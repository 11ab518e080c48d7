/**
 * The markdown transducer of src/markdown/render.rs as a pure state machine: the parser's
 * event stream is consumed one event at a time, each event is visited against the render
 * state, and the visit's answer decides what is emitted. The classes in `Render` implement
 * these steps imperatively; the properties of the transducer are stated here.
 */
module RenderModel {
  import opened Wrappers
  import opened Strings
  import EntityMarkdown

  // ---------------------------------------------------------------------------
  // Parser events (pulldown-cmark), reduced to what the transducer distinguishes.

  /** `HeadingLevel`, as the `usize` the transducer turns it into. */
  type HeadingLevel = x: nat | 1 <= x <= 6 witness 1

  datatype Tag =
    | Heading(level: HeadingLevel, id: Option<string>)
    | Image(destUrl: string, title: string)
    | FencedCodeBlock(info: string)
    | IndentedCodeBlock
    | OtherTag(name: string)

  /** `TagEnd`: one `CodeBlock` end closes both kinds of code block. */
  datatype TagEnd = HeadingEnd(level: HeadingLevel) | ImageEnd | CodeBlockEnd | OtherEnd(name: string)

  datatype Event =
    | Start(tag: Tag)
    | End(tagEnd: TagEnd)
    | Text(text: string)
    | Code(code: string)
    | Html(html: string)
    | Other(name: string)   // breaks, rules, footnote references, inline HTML, ...

  // ---------------------------------------------------------------------------
  // Collaborators whose code is not part of this model.

  /** `code_blocks::Fenced`: a fence's name and its (uninterpreted) options. */
  datatype Fenced = Fenced(name: string, options: string)

  /**
   * The template environment, `html::push_html`, the `code_blocks` module and the
   * highlighter, as functions. `None` stands for the failure that the source unwraps.
   */
  datatype Collaborators = Collaborators(
    pushHtml: seq<Event> -> string,
    headingTemplate: (string, nat, string) -> Option<string>,  // heading HTML, level, id
    parseFenced: string -> Option<Fenced>,
    isBuiltin: Fenced -> bool,
    urlPreviewName: string,
    calloutName: string,
    quoteName: string,
    urlPreview: (string, string) -> Option<string>,            // url, options
    callout: (string, string) -> Option<string>,               // options, block
    quote: string -> Option<string>,                           // parse and template
    hasTheme: string -> bool,
    highlight: (string, string, string) -> Option<string>)     // theme, language, text

  /** `MarkdownVisitor`: the fence reaches `visitCustomBlock` as its name. */
  datatype Visitor = Visitor(visitCode: string -> Option<string>, visitCustomBlock: (string, string) -> Option<string>)

  /** What a render is configured with: the fields of `MarkdownRender` no event changes. */
  datatype Setup = Setup(config: EntityMarkdown.MarkdownConfig, ext: Collaborators, visitor: Option<Visitor>, rss: bool)

  // ---------------------------------------------------------------------------
  // Render state.

  datatype Toc = Toc(depth: nat, level: HeadingLevel, id: Option<string>, title: string)

  /** `Heading`: its TOC entry and the events buffered while it is open. */
  datatype HeadingState = HeadingState(toc: Toc, events: seq<Event>)

  /** The fields of `MarkdownRender` that visiting updates. */
  datatype RenderState = RenderState(
    fenced: Option<string>,
    processingImage: bool,
    imageAlt: Option<string>,
    curr: Option<HeadingState>,
    levels: set<nat>,
    headings: Option<seq<HeadingState>>)

  const INITIAL: RenderState := RenderState(None, false, None, None, {}, None)

  /** `Visiting`: emit a new event, keep the original one, or drop it. */
  datatype Visiting = Emit(event: Event) | NotChanged | Ignore

  /** `Visiting::resolve`. */
  function Resolve(v: Visiting, original: Event): (r: Option<Event>)
    ensures v.Emit? ==> r == Some(v.event)
    ensures v.NotChanged? ==> r == Some(original)
    ensures v.Ignore? ==> r == None
  {
    match v
    case Emit(e) => Some(e)
    case NotChanged => Some(original)
    case Ignore => None
  }

  // ---------------------------------------------------------------------------
  // Headings.

  function NewHeading(level: HeadingLevel, id: Option<string>): HeadingState
  {
    HeadingState(Toc(level, level, id, ""), [])
  }

  function PushEvent(h: HeadingState, e: Event): HeadingState
  {
    h.(events := h.events + [e])
  }

  function PushText(h: HeadingState, t: string): HeadingState
  {
    h.(toc := h.toc.(title := h.toc.title + t))
  }

  /** The anchor derived from a title: lower-cased, each space replaced by `-`. */
  function DeriveId(title: string): (id: string)
    ensures |id| == |title|
    ensures forall k :: 0 <= k < |id| ==> id[k] == (if title[k] == ' ' then '-' else LowerChar(title[k]))
    ensures forall k :: 0 <= k < |id| ==> id[k] != ' ' && !('A' <= id[k] <= 'Z')
  {
    ReplaceChar(ToLower(title), ' ', '-')
  }

  /** The id a heading renders with: the explicit one if given, else the derived one. */
  function HeadingId(toc: Toc): (id: string)
    ensures toc.id.Some? ==> id == toc.id.value
    ensures toc.id.None? ==> id == DeriveId(toc.title)
  {
    if toc.id.Some? then toc.id.value else DeriveId(toc.title)
  }

  /**
   * `Heading::render`: the id is fixed, the buffered events are taken out and turned into
   * HTML, and the heading template wraps it; a template failure is a panic.
   */
  function RenderHeading(ext: Collaborators, h: HeadingState): (r: Result<(HeadingState, Event), string>)
    ensures r.Ok? <==> ext.headingTemplate(ext.pushHtml(h.events), h.toc.level, HeadingId(h.toc)).Some?
    ensures r.Ok? ==> r.value.0 == HeadingState(h.toc.(id := Some(HeadingId(h.toc))), [])
    ensures r.Ok? ==> r.value.1 == Html(ext.headingTemplate(ext.pushHtml(h.events), h.toc.level, HeadingId(h.toc)).value)
  {
    var id := HeadingId(h.toc);
    match ext.headingTemplate(ext.pushHtml(h.events), h.toc.level, id)
    case None => Err("Render heading failed.")
    case Some(html) => Ok((HeadingState(h.toc.(id := Some(id)), []), Html(html)))
  }

  // ---------------------------------------------------------------------------
  // Visiting one event.

  /** The `<img>` element that replaces a markdown image. */
  function ImgHtml(destUrl: string, alt: string, title: string): string
  {
    "<img src=\"" + destUrl + "\" alt=\"" + alt + "\" title=\"" + title + "\" loading=\"lazy\">"
  }

  /** `visit_start_tag`. */
  function StartTag(s: RenderState, tag: Tag): (RenderState, Visiting)
  {
    match tag
    case FencedCodeBlock(info) => (s.(fenced := Some(info)), Ignore)
    case Image(destUrl, title) =>
      (s.(imageAlt := None, processingImage := true), Emit(Html(ImgHtml(destUrl, s.imageAlt.GetOr(""), title))))
    case Heading(level, id) => (s.(curr := Some(NewHeading(level, id))), Ignore)
    case _ =>
      if s.curr.Some? then (s.(curr := Some(PushEvent(s.curr.value, Start(tag)))), Ignore)
      else (s, NotChanged)
  }

  /** `visit_end_tag`: a heading end records the level, renders the heading and files it in the TOC. */
  function EndTag(setup: Setup, s: RenderState, tag: TagEnd): Result<(RenderState, Visiting), string>
  {
    match tag
    case ImageEnd => Ok((s.(processingImage := false), Ignore))
    case CodeBlockEnd => Ok((s.(fenced := None), Ignore))
    case HeadingEnd(_) =>
      if s.curr.None? then Ok((s, Ignore))
      else
        var levels := s.levels + {s.curr.value.toc.level};
        (match RenderHeading(setup.ext, s.curr.value)
         case Err(e) => Err(e)
         case Ok((h, event)) =>
           var headings := if s.headings.Some? then Some(s.headings.value + [h]) else None;
           Ok((s.(curr := None, levels := levels, headings := headings), Emit(event))))
    case OtherEnd(_) =>
      if s.curr.Some? then Ok((s.(curr := Some(PushEvent(s.curr.value, End(tag)))), Ignore))
      else Ok((s, NotChanged))
  }

  /** `highlight_syntax`: an unknown theme is a panic, as is a highlighter failure. */
  function Highlight(setup: Setup, lang: string, text: string): (r: Result<string, string>)
    ensures !setup.ext.hasTheme(setup.config.highlightTheme) ==> r.Err?
    ensures setup.ext.hasTheme(setup.config.highlightTheme) ==>
              && (r.Ok? <==> setup.ext.highlight(setup.config.highlightTheme, lang, text).Some?)
              && (r.Ok? ==> r.value == setup.ext.highlight(setup.config.highlightTheme, lang, text).value)
              && (r.Err? ==> r.error == "Highlight failed")
  {
    var theme := setup.config.highlightTheme;
    if !setup.ext.hasTheme(theme) then Err("No theme: `" + theme + "` founded")
    else match setup.ext.highlight(theme, lang, text)
      case None => Err("Highlight failed")
      case Some(html) => Ok(html)
  }

  /**
   * `render_code_block`: the built-in renderers by fence name; a url preview gets the
   * trimmed block and may decline, callout and quote failures are panics, and any other
   * name yields nothing.
   */
  function RenderCodeBlock(ext: Collaborators, fenced: Fenced, block: string): (r: Result<Option<string>, string>)
    ensures fenced.name == ext.urlPreviewName ==> r == Ok(ext.urlPreview(Trim(block), fenced.options))
    ensures fenced.name != ext.urlPreviewName && fenced.name != ext.calloutName && fenced.name != ext.quoteName ==> r == Ok(None)
    ensures fenced.name != ext.urlPreviewName && fenced.name == ext.calloutName ==>
              && (r.Ok? <==> ext.callout(fenced.options, block).Some?)
              && (r.Ok? ==> r.value == ext.callout(fenced.options, block))
    ensures fenced.name != ext.urlPreviewName && fenced.name != ext.calloutName && fenced.name == ext.quoteName ==>
              && (r.Ok? <==> ext.quote(block).Some?)
              && (r.Ok? ==> r.value == ext.quote(block))
  {
    if fenced.name == ext.urlPreviewName then Ok(ext.urlPreview(Trim(block), fenced.options))
    else if fenced.name == ext.calloutName then
      match ext.callout(fenced.options, block)
      case None => Err("callout block failed")
      case Some(html) => Ok(Some(html))
    else if fenced.name == ext.quoteName then
      match ext.quote(block)
      case None => Err("Render quote block failed.")
      case Some(html) => Ok(Some(html))
    else Ok(None)
  }

  /** The text of an open fenced block, dispatched on the fence's parsed name. */
  function FencedText(setup: Setup, info: string, text: string): Result<Visiting, string>
  {
    match setup.ext.parseFenced(info)
    case None => Err("invalid fence")
    case Some(fenced) =>
      if fenced.name == setup.ext.urlPreviewName && setup.rss then Ok(Ignore)
      else if setup.ext.isBuiltin(fenced) then
        match RenderCodeBlock(setup.ext, fenced, text)
        case Err(e) => Err(e)
        case Ok(None) => Ok(NotChanged)
        case Ok(Some(html)) => Ok(Emit(Html(html)))
      else if setup.visitor.Some? && setup.visitor.value.visitCustomBlock(fenced.name, text).Some? then
        Ok(Emit(Html(setup.visitor.value.visitCustomBlock(fenced.name, text).value)))
      else if setup.config.highlightCode then
        match Highlight(setup, fenced.name, text)
        case Err(e) => Err(e)
        case Ok(html) => Ok(Emit(Html(html)))
      else Ok(Emit(Html("<pre>" + text + "</pre>")))
  }

  /** `visit_text`: heading capture, then image capture, then fenced capture. */
  function TextEvent(setup: Setup, s: RenderState, text: string): Result<(RenderState, Visiting), string>
  {
    if s.curr.Some? then Ok((s.(curr := Some(PushEvent(PushText(s.curr.value, text), Text(text)))), Ignore))
    else if s.processingImage then Ok((s.(imageAlt := Some(text)), Ignore))
    else if s.fenced.Some? then
      match FencedText(setup, s.fenced.value, text)
      case Err(e) => Err(e)
      case Ok(v) => Ok((s, v))
    else Ok((s, NotChanged))
  }

  /** `visit_code`: heading capture, then the visitor's HTML for inline code. */
  function CodeEvent(setup: Setup, s: RenderState, code: string): (RenderState, Visiting)
  {
    if s.curr.Some? then (s.(curr := Some(PushEvent(PushText(s.curr.value, code), Code(code)))), Ignore)
    else if setup.visitor.Some? && setup.visitor.value.visitCode(code).Some? then
      (s, Emit(Html(setup.visitor.value.visitCode(code).value)))
    else (s, NotChanged)
  }

  /** One event of `render_html`'s `filter_map`: visit it and resolve the answer. */
  function Step(setup: Setup, s: RenderState, e: Event): Result<(RenderState, Option<Event>), string>
  {
    match e
    case Start(tag) =>
      var (s', v) := StartTag(s, tag);
      Ok((s', Resolve(v, e)))
    case End(tag) =>
      (match EndTag(setup, s, tag)
       case Err(msg) => Err(msg)
       case Ok((s', v)) => Ok((s', Resolve(v, e))))
    case Code(code) =>
      var (s', v) := CodeEvent(setup, s, code);
      Ok((s', Resolve(v, e)))
    case Text(text) =>
      (match TextEvent(setup, s, text)
       case Err(msg) => Err(msg)
       case Ok((s', v)) => Ok((s', Resolve(v, e))))
    case _ => Ok((s, Some(e)))
  }

  function OptionToSeq(o: Option<Event>): seq<Event>
  {
    if o.Some? then [o.value] else []
  }

  /** The events of a stream, visited in order; a panic anywhere aborts the whole render. */
  function Run(setup: Setup, s: RenderState, events: seq<Event>): Result<(RenderState, seq<Event>), string>
    decreases |events|
  {
    if events == [] then Ok((s, []))
    else
      match Run(setup, s, events[..|events| - 1])
      case Err(msg) => Err(msg)
      case Ok((s1, out)) =>
        match Step(setup, s1, events[|events| - 1])
        case Err(msg) => Err(msg)
        case Ok((s2, o)) => Ok((s2, out + OptionToSeq(o)))
  }

  /** Running one more event is running the prefix and then stepping. */
  lemma RunSnoc(setup: Setup, s: RenderState, events: seq<Event>, e: Event)
    ensures Run(setup, s, events + [e]) ==
            match Run(setup, s, events)
            case Err(msg) => Err(msg)
            case Ok((s1, out)) =>
              match Step(setup, s1, e)
              case Err(msg) => Err(msg)
              case Ok((s2, o)) => Ok((s2, out + OptionToSeq(o)))
  {
    assert (events + [e])[..|events|] == events;
  }

  // ---------------------------------------------------------------------------
  // Table-of-contents depths.

  /** `xs` is strictly increasing. */
  ghost predicate Increasing(xs: seq<nat>)
  {
    forall i, j :: 0 <= i < j < |xs| ==> xs[i] < xs[j]
  }

  lemma {:induction false} Min(levels: set<nat>) returns (m: nat)
    requires levels != {}
    ensures m in levels && forall x :: x in levels ==> m <= x
    decreases |levels|
  {
    var y :| y in levels;
    if levels == {y} {
      return y;
    }
    var n := Min(levels - {y});
    m := if y < n then y else n;
    forall x | x in levels ensures m <= x {
      if x != y { assert x in levels - {y}; }
    }
  }

  predicate IsMin(m: nat, levels: set<nat>)
  {
    m in levels && forall x :: x in levels ==> m <= x
  }

  lemma MinExists(levels: set<nat>)
    requires levels != {}
    ensures exists m :: IsMin(m, levels)
  {
    var m := Min(levels);
    assert IsMin(m, levels);
  }

  lemma PrependMin(m: nat, levels: set<nat>, rest: seq<nat>)
    requires m in levels && forall x :: x in levels ==> m <= x
    requires Increasing(rest) && |rest| == |levels - {m}|
    requires forall x :: x in rest <==> x in levels - {m}
    ensures Increasing([m] + rest)
    ensures |[m] + rest| == |levels|
    ensures forall x :: x in [m] + rest <==> x in levels
  {
    assert |levels - {m}| == |levels| - 1;
    var xs := [m] + rest;
    forall i, j | 0 <= i < j < |xs| ensures xs[i] < xs[j] {
      assert xs[j] == rest[j - 1] && rest[j - 1] in rest;
      if i > 0 { assert xs[i] == rest[i - 1]; }
    }
  }

  /** `Vec::from_iter(&levels)` over a `BTreeSet`: the distinct levels in ascending order. */
  function SortedLevels(levels: set<nat>): (xs: seq<nat>)
    ensures Increasing(xs)
    ensures |xs| == |levels|
    ensures forall x :: x in xs <==> x in levels
    decreases |levels|
  {
    if levels == {} then []
    else
      MinExists(levels);
      assert forall a, b :: IsMin(a, levels) && IsMin(b, levels) ==> a == b;
      var m :| IsMin(m, levels);
      var rest := SortedLevels(levels - {m});
      PrependMin(m, levels, rest);
      [m] + rest
  }

  /** `iter().position(|x| x == level)`: the first index holding `x`. */
  function Position(xs: seq<nat>, x: nat): (r: Option<nat>)
    ensures r.Some? <==> x in xs
    ensures r.Some? ==> r.value < |xs| && xs[r.value] == x
    ensures r.Some? ==> forall j :: 0 <= j < r.value ==> xs[j] != x
  {
    if xs == [] then None
    else if xs[0] == x then Some(0)
    else
      var p := Position(xs[1..], x);
      if p.Some? then Some(p.value + 1) else None
  }

  /** One TOC entry renumbered: 1 + the rank of its level; a level not recorded is a panic. */
  function Renumber(sorted: seq<nat>, h: HeadingState): Result<HeadingState, string>
  {
    match Position(sorted, h.toc.level)
    case None => Err("Invalid heading level")
    case Some(p) => Ok(h.(toc := h.toc.(depth := p + 1)))
  }

  /** `rebuild_toc_depth`'s `for_each` over the headings, in order. */
  function RenumberAll(sorted: seq<nat>, hs: seq<HeadingState>): (r: Result<seq<HeadingState>, string>)
    ensures r.Ok? <==> forall i :: 0 <= i < |hs| ==> hs[i].toc.level in sorted
    ensures r.Ok? ==> |r.value| == |hs|
    ensures r.Ok? ==> forall i :: 0 <= i < |hs| ==> Renumber(sorted, hs[i]) == Ok(r.value[i])
    ensures r.Err? ==> r.error == "Invalid heading level"
    decreases |hs|
  {
    if hs == [] then Ok([])
    else
      match RenumberAll(sorted, hs[..|hs| - 1])
      case Err(e) => Err(e)
      case Ok(init) =>
        match Renumber(sorted, hs[|hs| - 1])
        case Err(e) => Err(e)
        case Ok(h) => Ok(init + [h])
  }

  /** `rebuild_toc_depth`: only when the TOC is enabled. */
  function RebuildTocDepth(s: RenderState): Result<RenderState, string>
  {
    if s.headings.None? then Ok(s)
    else
      match RenumberAll(SortedLevels(s.levels), s.headings.value)
      case Err(e) => Err(e)
      case Ok(hs) => Ok(s.(headings := Some(hs)))
  }

  /** `render_html` over the parsed events: visit them, turn the result into HTML, renumber the TOC. */
  function RenderHtml(setup: Setup, s: RenderState, events: seq<Event>): Result<(RenderState, string), string>
  {
    match Run(setup, s, events)
    case Err(e) => Err(e)
    case Ok((s1, out)) =>
      match RebuildTocDepth(s1)
      case Err(e) => Err(e)
      case Ok(s2) => Ok((s2, setup.ext.pushHtml(out)))
  }

  /** `get_toc`: the TOC entries, in order. */
  function Tocs(headings: Option<seq<HeadingState>>): (r: seq<Toc>)
    ensures headings.None? ==> r == []
    ensures headings.Some? ==> |r| == |headings.value| && forall i :: 0 <= i < |r| ==> r[i] == headings.value[i].toc
  {
    if headings.None? then [] else seq(|headings.value|, i requires 0 <= i < |headings.value| => headings.value[i].toc)
  }

  // ---------------------------------------------------------------------------
  // Properties of the transducer.

  /** An image start emits exactly one `<img>` with the pending alt (or ""), which it clears. */
  lemma ImageStart(setup: Setup, s: RenderState, destUrl: string, title: string)
    ensures Step(setup, s, Start(Image(destUrl, title))) ==
            Ok((s.(imageAlt := None, processingImage := true),
                Some(Html("<img src=\"" + destUrl + "\" alt=\"" + s.imageAlt.GetOr("") + "\" title=\"" + title + "\" loading=\"lazy\">"))))
  {
  }

  /** Outside a heading, an image's text overwrites the alt buffer and is not emitted. */
  lemma ImageTextBuffered(setup: Setup, s: RenderState, text: string)
    requires s.curr.None? && s.processingImage
    ensures Step(setup, s, Text(text)) == Ok((s.(imageAlt := Some(text)), None))
  {
  }

  /**
   * The alt is taken when the image starts, before its own text arrives: with no pending
   * alt, the first image gets `alt=""` and its text becomes the next image's alt.
   */
  lemma ImageAltTakenAtStart(setup: Setup, d1: string, t1: string, alt: string, d2: string, t2: string)
    ensures Run(setup, INITIAL, [Start(Image(d1, t1)), Text(alt), End(ImageEnd), Start(Image(d2, t2))]) ==
            Ok((INITIAL.(processingImage := true), [Html(ImgHtml(d1, "", t1)), Html(ImgHtml(d2, alt, t2))]))
  {
    var e1, e2, e3, e4 := Start(Image(d1, t1)), Text(alt), End(ImageEnd), Start(Image(d2, t2));
    var s1 := INITIAL.(processingImage := true);
    var s2 := s1.(imageAlt := Some(alt));
    var s3 := s2.(processingImage := false);
    var img1 := Html(ImgHtml(d1, "", t1));
    assert Step(setup, INITIAL, e1) == Ok((s1, Some(img1)));
    assert Step(setup, s1, e2) == Ok((s2, None));
    assert Step(setup, s2, e3) == Ok((s3, None));
    assert Step(setup, s3, e4) == Ok((s1, Some(Html(ImgHtml(d2, alt, t2)))));
    assert Run(setup, INITIAL, []) == Ok((INITIAL, []));
    RunSnoc(setup, INITIAL, [], e1);
    assert [] + [e1] == [e1] && [] + OptionToSeq(Some(img1)) == [img1];
    assert [img1] + OptionToSeq(None) == [img1];
    assert Run(setup, INITIAL, [e1]) == Ok((s1, [img1]));
    RunSnoc(setup, INITIAL, [e1], e2);
    assert [e1] + [e2] == [e1, e2];
    assert Run(setup, INITIAL, [e1, e2]) == Ok((s2, [img1]));
    RunSnoc(setup, INITIAL, [e1, e2], e3);
    assert [e1, e2] + [e3] == [e1, e2, e3];
    assert Run(setup, INITIAL, [e1, e2, e3]) == Ok((s3, [img1]));
    RunSnoc(setup, INITIAL, [e1, e2, e3], e4);
    assert [e1, e2, e3] + [e4] == [e1, e2, e3, e4];
    assert [img1] + OptionToSeq(Some(Html(ImgHtml(d2, alt, t2)))) == [img1, Html(ImgHtml(d2, alt, t2))];
  }

  /** The events a heading buffers without emitting them. */
  predicate HeadingBody(e: Event)
  {
    || e.Text?
    || e.Code?
    || (e.Start? && (e.tag.IndentedCodeBlock? || e.tag.OtherTag?))
    || (e.End? && e.tagEnd.OtherEnd?)
  }

  /** What one buffered event adds to a heading's title. */
  function TitlePiece(e: Event): string
  {
    if e.Text? then e.text else if e.Code? then e.code else ""
  }

  lemma HeadingBodyStep(setup: Setup, s: RenderState, e: Event)
    requires s.curr.Some? && HeadingBody(e)
    ensures Step(setup, s, e) ==
            Ok((s.(curr := Some(HeadingState(s.curr.value.toc.(title := s.curr.value.toc.title + TitlePiece(e)),
                                             s.curr.value.events + [e]))), None))
  {
    var h := s.curr.value;
    if e.Start? || e.End? {
      assert h.toc.title + TitlePiece(e) == h.toc.title;
    }
  }

  /** What the text and inline code of some events add to a heading's title. */
  function TitleOf(events: seq<Event>): string
  {
    if events == [] then ""
    else
      var e := events[|events| - 1];
      TitleOf(events[..|events| - 1]) + TitlePiece(e)
  }

  /** The state after a heading has buffered `events`: title extended, events appended. */
  function Captured(s: RenderState, events: seq<Event>): RenderState
    requires s.curr.Some?
  {
    var h := s.curr.value;
    s.(curr := Some(HeadingState(h.toc.(title := h.toc.title + TitleOf(events)), h.events + events)))
  }

  lemma CapturedNothing(s: RenderState)
    requires s.curr.Some?
    ensures Captured(s, []) == s
  {
    var h := s.curr.value;
    assert h.toc.title + TitleOf([]) == h.toc.title && h.events + [] == h.events;
    assert HeadingState(h.toc.(title := h.toc.title), h.events) == h;
  }

  lemma CapturedSnoc(s: RenderState, init: seq<Event>, e: Event)
    requires s.curr.Some?
    ensures var c := Captured(s, init).curr.value;
            Captured(s, init + [e]) ==
            Captured(s, init).(curr := Some(HeadingState(c.toc.(title := c.toc.title + TitlePiece(e)), c.events + [e])))
  {
    var h := s.curr.value;
    var events := init + [e];
    assert events[..|events| - 1] == init;
    assert TitleOf(events) == TitleOf(init) + TitlePiece(e);
    assert h.toc.title + TitleOf(init) + TitlePiece(e) == h.toc.title + TitleOf(events);
    assert h.events + init + [e] == h.events + events;
  }

  /**
   * Inside a heading, text, inline code and other tags are buffered in order, text and
   * code are appended to the title, and nothing is emitted.
   */
  lemma {:induction false} HeadingCaptureSilent(setup: Setup, s: RenderState, events: seq<Event>)
    requires s.curr.Some?
    requires forall e :: e in events ==> HeadingBody(e)
    ensures Run(setup, s, events) == Ok((Captured(s, events), []))
    decreases |events|
  {
    if events == [] {
      CapturedNothing(s);
    } else {
      var init := events[..|events| - 1];
      var e := events[|events| - 1];
      assert events == init + [e];
      HeadingCaptureSilent(setup, s, init);
      HeadingCaptureStep(setup, s, init, e);
    }
  }

  lemma HeadingCaptureStep(setup: Setup, s: RenderState, init: seq<Event>, e: Event)
    requires s.curr.Some? && HeadingBody(e)
    requires Run(setup, s, init) == Ok((Captured(s, init), []))
    ensures Run(setup, s, init + [e]) == Ok((Captured(s, init + [e]), []))
  {
    HeadingBodyStep(setup, Captured(s, init), e);
    CapturedSnoc(s, init, e);
    assert Step(setup, Captured(s, init), e) == Ok((Captured(s, init + [e]), None));
    RunSnoc(setup, s, init, e);
    assert [] + OptionToSeq(None) == [];
  }

  /**
   * A heading end inside a heading records the level, emits exactly one `Html` event from
   * the heading template, and appends the heading to the TOC only if the TOC is enabled.
   */
  lemma HeadingEndEmitsOne(setup: Setup, s: RenderState, level: HeadingLevel)
    requires s.curr.Some?
    ensures var h := s.curr.value;
            var id := HeadingId(h.toc);
            var html := setup.ext.headingTemplate(setup.ext.pushHtml(h.events), h.toc.level, id);
            var done := HeadingState(h.toc.(id := Some(id)), []);
            match Step(setup, s, End(HeadingEnd(level)))
            case Err(_) => html.None?
            case Ok((s', out)) =>
              && html.Some? && out == Some(Html(html.value))
              && s'.curr.None? && s'.levels == s.levels + {h.toc.level}
              && (s.headings.Some? ==> s'.headings == Some(s.headings.value + [done]))
              && (s.headings.None? ==> s'.headings.None?)
  {
  }

  /** A heading end outside any heading is dropped and changes nothing. */
  lemma StrayHeadingEnd(setup: Setup, s: RenderState, level: HeadingLevel)
    requires s.curr.None?
    ensures Step(setup, s, End(HeadingEnd(level))) == Ok((s, None))
  {
  }

  /** A heading start replaces any open heading and emits nothing. */
  lemma HeadingStart(setup: Setup, s: RenderState, level: HeadingLevel, id: Option<string>)
    ensures Step(setup, s, Start(Heading(level, id))) ==
            Ok((s.(curr := Some(HeadingState(Toc(level, level, id, ""), []))), None))
  {
  }

  /** Fence starts and ends (and image ends) are never emitted. */
  lemma FenceTagsDropped(setup: Setup, s: RenderState, info: string)
    ensures Step(setup, s, Start(FencedCodeBlock(info))) == Ok((s.(fenced := Some(info)), None))
    ensures Step(setup, s, End(CodeBlockEnd)) == Ok((s.(fenced := None), None))
    ensures Step(setup, s, End(ImageEnd)) == Ok((s.(processingImage := false), None))
  {
  }

  /** An indented code block's start passes through, but its end is dropped like a fence's. */
  lemma IndentedCodeBlockEndDropped(setup: Setup, s: RenderState)
    requires s.curr.None?
    ensures Step(setup, s, Start(IndentedCodeBlock)) == Ok((s, Some(Start(IndentedCodeBlock))))
    ensures Step(setup, s, End(CodeBlockEnd)).Ok? && Step(setup, s, End(CodeBlockEnd)).value.1 == None
  {
  }

  /**
   * Text inside a fenced block (and outside headings and images): a url preview in RSS
   * mode is dropped; a built-in block is rendered, or passes through when its renderer
   * declines; then the visitor's HTML; then highlighting; then a plain `<pre>`.
   */
  lemma FencedDispatch(setup: Setup, s: RenderState, text: string)
    requires s.curr.None? && !s.processingImage && s.fenced.Some?
    ensures var f := setup.ext.parseFenced(s.fenced.value);
            var r := Step(setup, s, Text(text));
            && (f.None? ==> r.Err?)
            && (f.Some? && f.value.name == setup.ext.urlPreviewName && setup.rss ==> r == Ok((s, None)))
            && (f.Some? && !(f.value.name == setup.ext.urlPreviewName && setup.rss) && setup.ext.isBuiltin(f.value) ==>
                  match RenderCodeBlock(setup.ext, f.value, text)
                  case Err(e) => r == Err(e)
                  case Ok(None) => r == Ok((s, Some(Text(text))))
                  case Ok(Some(html)) => r == Ok((s, Some(Html(html)))))
            && (f.Some? && !(f.value.name == setup.ext.urlPreviewName && setup.rss) && !setup.ext.isBuiltin(f.value) ==>
                  var custom := if setup.visitor.Some? then setup.visitor.value.visitCustomBlock(f.value.name, text) else None;
                  && (custom.Some? ==> r == Ok((s, Some(Html(custom.value)))))
                  && (custom.None? && setup.config.highlightCode ==>
                        match Highlight(setup, f.value.name, text)
                        case Err(e) => r == Err(e)
                        case Ok(html) => r == Ok((s, Some(Html(html)))))
                  && (custom.None? && !setup.config.highlightCode ==> r == Ok((s, Some(Html("<pre>" + text + "</pre>"))))))
  {
  }

  /** A url-preview block in RSS mode is dropped before any renderer or visitor is consulted. */
  lemma RssSuppressesUrlPreview(setup: Setup, s: RenderState, text: string, other: Setup)
    requires s.curr.None? && !s.processingImage && s.fenced.Some?
    requires setup.rss
    requires setup.ext.parseFenced(s.fenced.value).Some?
    requires setup.ext.parseFenced(s.fenced.value).value.name == setup.ext.urlPreviewName
    requires other == setup.(visitor := other.visitor, config := other.config)
    ensures Step(setup, s, Text(text)) == Step(other, s, Text(text)) == Ok((s, None))
  {
  }

  /** Heading capture comes first: text goes to the open heading whatever else is open. */
  lemma HeadingBeatsImageAndFence(setup: Setup, s: RenderState, text: string)
    requires s.curr.Some?
    ensures Step(setup, s, Text(text)) ==
            Ok((s.(curr := Some(HeadingState(s.curr.value.toc.(title := s.curr.value.toc.title + text),
                                             s.curr.value.events + [Text(text)]))), None))
  {
  }

  /** Image capture comes before fenced capture. */
  lemma ImageBeatsFence(setup: Setup, s: RenderState, text: string)
    requires s.curr.None? && s.processingImage && s.fenced.Some?
    ensures Step(setup, s, Text(text)) == Ok((s.(imageAlt := Some(text)), None))
  {
  }

  /** Outside every context, text passes unchanged and inline code becomes the visitor's HTML or stays. */
  lemma PassThrough(setup: Setup, s: RenderState, text: string, code: string)
    requires s.curr.None? && !s.processingImage && s.fenced.None?
    ensures Step(setup, s, Text(text)) == Ok((s, Some(Text(text))))
    ensures var html := if setup.visitor.Some? then setup.visitor.value.visitCode(code) else None;
            Step(setup, s, Code(code)) == Ok((s, Some(if html.Some? then Html(html.value) else Code(code))))
  {
  }

  /** Raw HTML and the other events pass through unchanged, even inside a heading. */
  lemma OtherEventsUnchanged(setup: Setup, s: RenderState, html: string, name: string)
    ensures Step(setup, s, Html(html)) == Ok((s, Some(Html(html))))
    ensures Step(setup, s, Other(name)) == Ok((s, Some(Other(name))))
  {
  }

  /** The state invariant: every TOC entry's level has been recorded. */
  ghost predicate Inv(s: RenderState)
  {
    s.headings.Some? ==> forall i :: 0 <= i < |s.headings.value| ==> s.headings.value[i].toc.level in s.levels
  }

  lemma StepPreservesInv(setup: Setup, s: RenderState, e: Event)
    requires Inv(s)
    requires Step(setup, s, e).Ok?
    ensures Inv(Step(setup, s, e).value.0)
  {
    if e.End? && e.tagEnd.HeadingEnd? && s.curr.Some? && s.headings.Some? {
      var s' := Step(setup, s, e).value.0;
      assert s'.levels == s.levels + {s.curr.value.toc.level};
      assert s'.headings.value[..|s.headings.value|] == s.headings.value;
    }
  }

  lemma {:induction false} RunPreservesInv(setup: Setup, s: RenderState, events: seq<Event>)
    requires Inv(s)
    requires Run(setup, s, events).Ok?
    ensures Inv(Run(setup, s, events).value.0)
    decreases |events|
  {
    if events != [] {
      var init := events[..|events| - 1];
      RunPreservesInv(setup, s, init);
      StepPreservesInv(setup, Run(setup, s, init).value.0, events[|events| - 1]);
    }
  }

  /** The "Invalid heading level" panic cannot happen: renumbering succeeds under the invariant. */
  lemma RebuildNeverFails(s: RenderState)
    requires Inv(s)
    ensures RebuildTocDepth(s).Ok?
    ensures RebuildTocDepth(s).value.levels == s.levels
  {
  }

  /** The depth of a recorded level: 1 + its rank among the distinct recorded levels. */
  function Depth(levels: set<nat>, level: nat): (d: nat)
    requires level in levels
    ensures 1 <= d <= |levels|
  {
    Position(SortedLevels(levels), level).value + 1
  }

  /** A renumbered entry's depth is the depth of its level; nothing else of it changes. */
  lemma RenumberDepth(levels: set<nat>, h: HeadingState)
    requires h.toc.level in levels
    ensures Renumber(SortedLevels(levels), h) == Ok(h.(toc := h.toc.(depth := Depth(levels, h.toc.level))))
  {
  }

  /** Depths preserve the order of levels: a lower level gets a strictly smaller depth. */
  lemma DepthOrdered(levels: set<nat>, a: nat, b: nat)
    requires a in levels && b in levels
    ensures a < b <==> Depth(levels, a) < Depth(levels, b)
    ensures a == b <==> Depth(levels, a) == Depth(levels, b)
  {
    var xs := SortedLevels(levels);
    assert xs[Position(xs, a).value] == a && xs[Position(xs, b).value] == b;
  }

  /** Every depth from 1 to the number of distinct levels is taken by some level. */
  lemma DepthsDense(levels: set<nat>, d: nat)
    requires 1 <= d <= |levels|
    ensures exists l :: l in levels && Depth(levels, l) == d
  {
    var xs := SortedLevels(levels);
    var l := xs[d - 1];
    assert xs[Position(xs, l).value] == l;
    assert Depth(levels, l) == d;
  }

  /** Headings at levels 2, 2 and 4 get depths 1, 1 and 2. */
  lemma DepthExample()
    ensures Depth({2, 4}, 2) == 1 && Depth({2, 4}, 4) == 2
  {
    var xs := SortedLevels({2, 4});
    assert xs[0] in {2, 4} && xs[1] in {2, 4};
    assert xs == [2, 4];
  }

  /**
   * After a render that does not panic while visiting, the TOC is renumbered without
   * panicking, and every entry's depth is the depth of its level.
   */
  lemma RenderHtmlDepths(setup: Setup, s: RenderState, events: seq<Event>)
    requires Inv(s)
    requires Run(setup, s, events).Ok?
    ensures RenderHtml(setup, s, events).Ok?
    ensures var (s', _) := RenderHtml(setup, s, events).value;
            && Inv(s')
            && s'.levels == Run(setup, s, events).value.0.levels
            && (s'.headings.Some? ==> forall i :: 0 <= i < |s'.headings.value| ==>
                  s'.headings.value[i].toc.depth == Depth(s'.levels, s'.headings.value[i].toc.level))
  {
    RunPreservesInv(setup, s, events);
    var s1 := Run(setup, s, events).value.0;
    RebuildNeverFails(s1);
    if s1.headings.Some? {
      var hs := s1.headings.value;
      var xs := SortedLevels(s1.levels);
      var rs := RenumberAll(xs, hs).value;
      forall i | 0 <= i < |rs| ensures rs[i].toc.level == hs[i].toc.level && rs[i].toc.depth == Depth(s1.levels, hs[i].toc.level) {
        RenumberDepth(s1.levels, hs[i]);
      }
    }
  }
}
