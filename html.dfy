/**
 * Link-preview metadata extraction (src/html.rs): walks an HTML document tree and fills
 * a `Meta` record from `<title>` and from Open Graph (`og:*`) and Twitter Card
 * (`twitter:*`) `<meta>` tags, then truncates the title and the description.
 */
module Html {
  import opened Wrappers
  import opened Strings

  /** An attribute of an element: its local name and its raw value. */
  datatype Attribute = Attribute(name: string, value: string)

  /** A node of the parsed document tree (the parser itself is not part of this model). */
  datatype Node =
    | Document(children: seq<Node>)
    | Element(name: string, attrs: seq<Attribute>, children: seq<Node>)
    | Text(contents: string)
    | OtherNode   // doctype, comment, processing instruction

  /** The value of a `Meta` record. */
  datatype MetaValue = MetaValue(title: string, description: string, url: Option<string>, image: Option<string>)

  /** `Meta::default()`. */
  const EmptyMeta := MetaValue("", "", None, None)

  /** The longest title and description a `Meta` keeps. */
  const MAX_LEN: nat := 200

  /** `Meta`: the accumulator that `walk` fills in place. */
  class Meta {
    var title: string
    var description: string
    var url: Option<string>
    var image: Option<string>

    constructor ()
      ensures Value() == EmptyMeta
    {
      title, description, url, image := "", "", None, None;
    }

    function Value(): MetaValue
      reads this
    {
      MetaValue(title, description, url, image)
    }

    /** `Meta::truncate`: keeps the first 200 characters of the title and of the description. */
    method Truncate()
      modifies this
      ensures Value() == Truncated(old(Value()))
    {
      title := Strings.Truncate(title, MAX_LEN);
      description := Strings.Truncate(description, MAX_LEN);
    }
  }

  /** The effect of `Meta::truncate` on a record: a prefix of at most 200 characters each. */
  function Truncated(m: MetaValue): (t: MetaValue)
    ensures |t.title| <= MAX_LEN && |t.description| <= MAX_LEN
    ensures |t.title| <= |m.title| && |t.description| <= |m.description|
    ensures t.title == m.title[..|t.title|] && t.description == m.description[..|t.description|]
    ensures |m.title| <= MAX_LEN ==> t.title == m.title
    ensures |m.description| <= MAX_LEN ==> t.description == m.description
    ensures t.url == m.url && t.image == m.image
  {
    m.(title := Strings.Truncate(m.title, MAX_LEN), description := Strings.Truncate(m.description, MAX_LEN))
  }

  /** Attribute `i`, at or after `from`, is the first there called `name` whose trimmed value is not empty. */
  predicate IsFirstMatch(attrs: seq<Attribute>, name: string, from: nat, i: int)
  {
    && from <= i < |attrs|
    && attrs[i].name == name && Trim(attrs[i].value) != ""
    && forall j :: from <= j < i && attrs[j].name == name ==> Trim(attrs[j].value) == ""
  }

  /** The `find_map` of `get_attribute`, from attribute `from` on. */
  function FindAttribute(attrs: seq<Attribute>, name: string, from: nat): (r: Option<string>)
    requires from <= |attrs|
    ensures r.None? <==> forall i :: from <= i < |attrs| && attrs[i].name == name ==> Trim(attrs[i].value) == ""
    ensures r.Some? ==> r.value != "" && Trim(r.value) == r.value
    decreases |attrs| - from
  {
    if from == |attrs| then None
    else if attrs[from].name == name && Trim(attrs[from].value) != "" then
      TrimIdempotent(attrs[from].value);
      Some(Trim(attrs[from].value))
    else FindAttribute(attrs, name, from + 1)
  }

  /** The search yields the trimmed value of the first non-empty attribute called `name`. */
  lemma {:induction false} FindAttributeFirst(attrs: seq<Attribute>, name: string, from: nat, i: int)
    requires from <= |attrs| && IsFirstMatch(attrs, name, from, i)
    ensures FindAttribute(attrs, name, from) == Some(Trim(attrs[i].value))
    decreases |attrs| - from
  {
    if from < i {
      assert IsFirstMatch(attrs, name, from + 1, i);
      FindAttributeFirst(attrs, name, from + 1, i);
    }
  }

  /**
   * `get_attribute`: the trimmed value of the first attribute called `name` whose trimmed
   * value is not empty; an empty value counts as absent.
   */
  function GetAttribute(attrs: seq<Attribute>, name: string): (r: Option<string>)
    ensures r.None? <==> forall i :: 0 <= i < |attrs| && attrs[i].name == name ==> Trim(attrs[i].value) == ""
    ensures r.Some? ==> r.value != "" && Trim(r.value) == r.value
    ensures forall i :: IsFirstMatch(attrs, name, 0, i) ==> r == Some(Trim(attrs[i].value))
  {
    forall i | IsFirstMatch(attrs, name, 0, i) ensures FindAttribute(attrs, name, 0) == Some(Trim(attrs[i].value)) {
      FindAttributeFirst(attrs, name, 0, i);
    }
    FindAttribute(attrs, name, 0)
  }

  /** The kind of a `<meta>` tag: its `name`, or its `property` when it has no `name`. */
  function MetaKey(attrs: seq<Attribute>): (r: Option<string>)
    ensures GetAttribute(attrs, "name").Some? ==> r == GetAttribute(attrs, "name")
    ensures GetAttribute(attrs, "name").None? ==> r == GetAttribute(attrs, "property")
  {
    match GetAttribute(attrs, "name")
    case Some(k) => Some(k)
    case None => GetAttribute(attrs, "property")
  }

  predicate IsDescriptionKey(k: string) { k == "description" || k == "og:description" || k == "twitter:description" }
  predicate IsTitleKey(k: string) { k == "og:title" || k == "twitter:title" }
  predicate IsImageKey(k: string) { k == "og:image" || k == "twitter:image" }
  predicate IsUrlKey(k: string) { k == "og:url" || k == "twitter:url" }

  /**
   * What a `<meta>` tag of kind `key` and with `content` does to the record: a description,
   * title, image or url key sets its field from the content, but only while that field is
   * still empty.
   */
  function ApplyMeta(key: Option<string>, content: Option<string>, m: MetaValue): MetaValue
  {
    if key.Some? && IsDescriptionKey(key.value) && m.description == "" then
      if content.Some? then m.(description := Trim(content.value)) else m
    else if key.Some? && IsTitleKey(key.value) && m.title == "" then
      if content.Some? then m.(title := Trim(content.value)) else m
    else if key.Some? && IsImageKey(key.value) && m.image.None? then
      if content.Some? then m.(image := Some(content.value)) else m
    else if key.Some? && IsUrlKey(key.value) && m.url.None? then
      if content.Some? then m.(url := Some(content.value)) else m
    else m
  }

  /** What a `<meta>` tag directly under `<head>` does to the record. */
  function VisitMeta(attrs: seq<Attribute>, m: MetaValue): MetaValue
  {
    ApplyMeta(MetaKey(attrs), GetAttribute(attrs, "content"), m)
  }

  /** The concatenated text children of a node (elements and other nodes contribute nothing). */
  function TextOf(children: seq<Node>): string
  {
    if children == [] then []
    else
      var last := children[|children| - 1];
      TextOf(children[..|children| - 1]) + (if last.Text? then last.contents else [])
  }

  /**
   * `walk(handle, meta, super_node)`: the record after visiting `n`, whose parent element
   * is called `superNode`, and whether the traversal should stop.
   */
  function Visit(n: Node, m: MetaValue, superNode: string): (MetaValue, bool)
    decreases n
  {
    match n
    case Element(name, attrs, children) =>
      if name == "html" || name == "head" then VisitChildren(children, m, name)
      else if name == "meta" && superNode == "head" then (VisitMeta(attrs, m), false)
      else if name == "link" && superNode == "head" then (m, false)
      else if name == "title" && superNode == "head" then (m.(title := Trim(TextOf(children))), false)
      else (m, false)
    case _ => (m, false)
  }

  /** The loop of `walk` over the children of `<html>` or `<head>`: it stops at the first child that asks to. */
  function VisitChildren(children: seq<Node>, m: MetaValue, superNode: string): (MetaValue, bool)
    decreases children
  {
    if children == [] then (m, false)
    else
      var (m1, stop) := Visit(children[0], m, superNode);
      if stop then (m1, true) else VisitChildren(children[1..], m1, superNode)
  }

  /** `parse_html_meta` after the document has been parsed into a tree. */
  function ExtractMeta(root: Node): MetaValue
  {
    var walked := if root.Document? then VisitChildren(root.children, EmptyMeta, "html").0
                  else Visit(root, EmptyMeta, "html").0;
    Truncated(walked)
  }

  /** `walk`, updating `meta` in place. */
  method Walk(handle: Node, meta: Meta, superNode: string) returns (stop: bool)
    modifies meta
    ensures (meta.Value(), stop) == Visit(handle, old(meta.Value()), superNode)
    decreases handle
  {
    if handle.Element? {
      var name, attrs, children := handle.name, handle.attrs, handle.children;
      if name == "html" || name == "head" {
        var i := 0;
        while i < |children|
          invariant 0 <= i <= |children|
          invariant VisitChildren(children, old(meta.Value()), name) == VisitChildren(children[i..], meta.Value(), name)
        {
          assert children[i..][1..] == children[i + 1..];
          var s := Walk(children[i], meta, name);
          if s {
            return true;
          }
          i := i + 1;
        }
        return false;
      } else if name == "meta" && superNode == "head" {
        WalkMeta(attrs, meta);
      } else if name == "link" && superNode == "head" {
        // Favicons are not extracted.
      } else if name == "title" && superNode == "head" {
        var text := CollectText(children);
        meta.title := Trim(text);
      }
    }
    return false;
  }

  /** The `<meta>` arm of `walk`: at most one field is set, and only while it is still unset. */
  method WalkMeta(attrs: seq<Attribute>, meta: Meta)
    modifies meta
    ensures meta.Value() == VisitMeta(attrs, old(meta.Value()))
  {
    var key := GetAttribute(attrs, "name");
    if key.None? {
      key := GetAttribute(attrs, "property");
    }
    var content := GetAttribute(attrs, "content");
    SetMetaField(key, content, meta);
  }

  /** The match on the kind of a `<meta>` tag. */
  method SetMetaField(key: Option<string>, content: Option<string>, meta: Meta)
    modifies meta
    ensures meta.Value() == ApplyMeta(key, content, old(meta.Value()))
  {
    if key.Some? && IsDescriptionKey(key.value) && meta.description == "" {
      if content.Some? {
        meta.description := Trim(content.value);
      }
    } else if key.Some? && IsTitleKey(key.value) && meta.title == "" {
      if content.Some? {
        meta.title := Trim(content.value);
      }
    } else if key.Some? && IsImageKey(key.value) && meta.image.None? {
      if content.Some? {
        meta.image := Some(content.value);
      }
    } else if key.Some? && IsUrlKey(key.value) && meta.url.None? {
      if content.Some? {
        meta.url := Some(content.value);
      }
    }
  }

  /** The text of a `<title>`: its text children concatenated (`filter_map` and `collect`). */
  method CollectText(children: seq<Node>) returns (text: string)
    ensures text == TextOf(children)
  {
    text := "";
    var i := 0;
    while i < |children|
      invariant 0 <= i <= |children|
      invariant text == TextOf(children[..i])
    {
      assert children[..i + 1][..i] == children[..i];
      if children[i].Text? {
        text := text + children[i].contents;
      }
      i := i + 1;
    }
    assert children[..i] == children;
  }

  /** `parse_html_meta` on an already parsed document: walk it from the root, then truncate. */
  method ParseHtmlMeta(root: Node) returns (m: MetaValue)
    ensures m == ExtractMeta(root)
    ensures |m.title| <= MAX_LEN && |m.description| <= MAX_LEN
  {
    var meta := new Meta();
    if root.Document? {
      var children := root.children;
      var i := 0;
      while i < |children|
        invariant 0 <= i <= |children|
        invariant VisitChildren(children, EmptyMeta, "html") == VisitChildren(children[i..], meta.Value(), "html")
      {
        assert children[i..][1..] == children[i + 1..];
        var stop := Walk(children[i], meta, "html");
        if stop {
          break;
        }
        i := i + 1;
      }
    } else {
      var _ := Walk(root, meta, "html");
    }
    meta.Truncate();
    m := meta.Value();
  }

  // Properties of the traversal.

  /** `walk` never asks to stop, so every child of `<html>` and `<head>` is visited. */
  lemma {:induction false} VisitNeverStops(n: Node, m: MetaValue, superNode: string)
    ensures !Visit(n, m, superNode).1
    decreases n
  {
    if n.Element? && (n.name == "html" || n.name == "head") {
      VisitChildrenNeverStops(n.children, m, n.name);
    }
  }

  lemma {:induction false} VisitChildrenNeverStops(children: seq<Node>, m: MetaValue, superNode: string)
    ensures !VisitChildren(children, m, superNode).1
    decreases children
  {
    if children != [] {
      VisitNeverStops(children[0], m, superNode);
      VisitChildrenNeverStops(children[1..], Visit(children[0], m, superNode).0, superNode);
    }
  }

  /** Once set, the description, the image and the url are never replaced: the first one wins. */
  ghost predicate KeepsFirst(before: MetaValue, after: MetaValue)
  {
    && (before.description != "" ==> after.description == before.description)
    && (before.image.Some? ==> after.image == before.image)
    && (before.url.Some? ==> after.url == before.url)
  }

  lemma ApplyMetaKeepsFirst(key: Option<string>, content: Option<string>, m: MetaValue)
    ensures KeepsFirst(m, ApplyMeta(key, content, m))
  {
  }

  lemma {:induction false} VisitKeepsFirst(n: Node, m: MetaValue, superNode: string)
    ensures KeepsFirst(m, Visit(n, m, superNode).0)
    decreases n
  {
    if n.Element? {
      if n.name == "html" || n.name == "head" {
        VisitChildrenKeepsFirst(n.children, m, n.name);
      } else if n.name == "meta" && superNode == "head" {
        ApplyMetaKeepsFirst(MetaKey(n.attrs), GetAttribute(n.attrs, "content"), m);
      }
    }
  }

  lemma {:induction false} VisitChildrenKeepsFirst(children: seq<Node>, m: MetaValue, superNode: string)
    ensures KeepsFirst(m, VisitChildren(children, m, superNode).0)
    decreases children
  {
    if children != [] {
      var m1 := Visit(children[0], m, superNode).0;
      VisitKeepsFirst(children[0], m, superNode);
      VisitNeverStops(children[0], m, superNode);
      VisitChildrenKeepsFirst(children[1..], m1, superNode);
    }
  }

  /**
   * A `<meta>` tag sets the title only when its kind is `og:title` or `twitter:title`, the
   * title is still empty and the tag has a content.
   */
  lemma MetaTitleOnlyWhileEmpty(key: Option<string>, content: Option<string>, m: MetaValue)
    ensures ApplyMeta(key, content, m).title ==
              if m.title == "" && key.Some? && IsTitleKey(key.value) && content.Some?
              then Trim(content.value)
              else m.title
  {
  }

  /**
   * The first tag wins: a description, image or url `<meta>` tag with a content sets its
   * field while that field is still empty, and only then.
   */
  lemma MetaFirstTaken(key: Option<string>, content: Option<string>, m: MetaValue)
    ensures ApplyMeta(key, content, m).description ==
              if m.description == "" && key.Some? && IsDescriptionKey(key.value) && content.Some?
              then Trim(content.value)
              else m.description
    ensures ApplyMeta(key, content, m).image ==
              if m.image.None? && key.Some? && IsImageKey(key.value) && content.Some?
              then Some(content.value)
              else m.image
    ensures ApplyMeta(key, content, m).url ==
              if m.url.None? && key.Some? && IsUrlKey(key.value) && content.Some?
              then Some(content.value)
              else m.url
  {
  }

  /** So the first `<meta name="description">` under `<head>` with a non-blank content sets the description. */
  lemma DescriptionTagSets(attrs: seq<Attribute>, i: nat, m: MetaValue)
    requires IsFirstMatch(attrs, "name", 0, i) && Trim(attrs[i].value) == "description"
    requires m.description == "" && GetAttribute(attrs, "content").Some?
    ensures Visit(Element("meta", attrs, []), m, "head").0.description == Trim(GetAttribute(attrs, "content").value)
  {
    NameBeforeProperty(attrs, i, "description");
    MetaUnderHead(attrs, m);
  }

  /** A `<meta>` directly under `<head>` is read by `VisitMeta`, and does not stop the walk. */
  lemma MetaUnderHead(attrs: seq<Attribute>, m: MetaValue)
    ensures Visit(Element("meta", attrs, []), m, "head") == (VisitMeta(attrs, m), false)
  {
    assert "meta" != "html" && "meta" != "head" by { assert "meta"[0] != "html"[0]; assert "meta"[0] != "head"[0]; }
  }

  /** The `name` attribute decides the kind of a `<meta>` tag; `property` is read only when `name` is absent or empty. */
  lemma NameBeforeProperty(attrs: seq<Attribute>, i: nat, key: string)
    requires IsFirstMatch(attrs, "name", 0, i) && Trim(attrs[i].value) == key
    ensures MetaKey(attrs) == Some(key)
  {
  }

  /** A `<meta>` tag whose every `content` attribute is blank changes nothing. */
  lemma BlankContentChangesNothing(attrs: seq<Attribute>, m: MetaValue)
    requires forall i :: 0 <= i < |attrs| && attrs[i].name == "content" ==> Trim(attrs[i].value) == ""
    ensures Visit(Element("meta", attrs, []), m, "head") == (m, false)
  {
  }

  /** A `<title>` directly under `<head>` sets the title to its trimmed text, whatever was there before. */
  lemma TitleTagOverrides(attrs: seq<Attribute>, children: seq<Node>, m: MetaValue)
    ensures Visit(Element("title", attrs, children), m, "head") == (m.(title := Trim(TextOf(children))), false)
  {
  }

  /**
   * Only `<html>` and `<head>` are descended into, and of the other elements only a `<meta>`
   * or `<title>` directly under `<head>` is read.
   */
  lemma OtherElementsIgnored(name: string, attrs: seq<Attribute>, children: seq<Node>, m: MetaValue, superNode: string)
    requires name != "html" && name != "head"
    requires superNode != "head" || (name != "meta" && name != "title")
    ensures Visit(Element(name, attrs, children), m, superNode) == (m, false)
  {
  }

  /** So a `<meta>` inside a `<noscript>` of `<head>` is ignored. */
  lemma {:induction false} NoscriptMetaIgnored(attrs: seq<Attribute>, m: MetaValue)
    ensures Visit(Element("head", [], [Element("noscript", [], [Element("meta", attrs, [])])]), m, "html") == (m, false)
  {
    var noscript := Element("noscript", [], [Element("meta", attrs, [])]);
    OtherElementsIgnored("noscript", [], [Element("meta", attrs, [])], m, "head");
    assert [noscript][1..] == [];
    assert VisitChildren([noscript], m, "head") == VisitChildren([], m, "head");
  }

  /** So a `<title>` inside a `<footer>` of the document is ignored. */
  lemma {:induction false} FooterTitleIgnored(title: string, m: MetaValue)
    ensures Visit(Element("html", [], [Element("footer", [], [Element("title", [], [Text(title)])])]), m, "html") == (m, false)
  {
    var footer := Element("footer", [], [Element("title", [], [Text(title)])]);
    assert Visit(footer, m, "html") == (m, false);
    assert [footer][1..] == [];
    assert VisitChildren([footer], m, "html") == VisitChildren([], m, "html");
  }
}
