/**
 * `Heading` and `MarkdownRender` of src/markdown/render.rs as classes whose methods update
 * their fields one event at a time. Each method's new state is tied to the corresponding
 * step of `RenderModel`, where the transducer's properties are proved.
 */
module Render {
  import opened Wrappers
  import opened Strings
  import opened RenderModel
  import EntityMarkdown

  /** `Heading`: a TOC entry being filled in and the events buffered for its HTML. */
  class Heading {
    var toc: Toc
    var events: seq<Event>

    function Value(): HeadingState
      reads this
    {
      HeadingState(toc, events)
    }

    /** `Heading::new`: the depth starts as the level, the title empty. */
    constructor (level: HeadingLevel, id: Option<string>)
      ensures Value() == NewHeading(level, id)
    {
      toc := Toc(level, level, id, "");
      events := [];
    }

    /** `push_event`. */
    method PushEvent(e: Event)
      modifies this
      ensures Value() == RenderModel.PushEvent(old(Value()), e)
    {
      events := events + [e];
    }

    /** `push_text`. */
    method PushText(t: string)
      modifies this
      ensures Value() == RenderModel.PushText(old(Value()), t)
    {
      toc := toc.(title := toc.title + t);
    }

    /**
     * `render`: fixes the id (lower-cased title, then spaces replaced) when none was given,
     * takes the buffered events, and renders the heading template.
     */
    method Render(ext: Collaborators) returns (r: Result<Event, string>)
      modifies this
      ensures match RenderHeading(ext, old(Value()))
              case Err(e) => r == Err(e)
              case Ok((h, event)) => r == Ok(event) && Value() == h
    {
      if toc.id.None? {
        toc := toc.(id := Some(ToLower(toc.title)));
        toc := toc.(id := Some(ReplaceChar(toc.id.value, ' ', '-')));
      }
      var heading := ext.pushHtml(events);
      events := [];
      match ext.headingTemplate(heading, toc.level, toc.id.value)
      case None =>
        return Err("Render heading failed.");
      case Some(html) =>
        return Ok(Html(html));
    }
  }

  /** `MarkdownRender`. */
  class MarkdownRender {
    const markdownConfig: EntityMarkdown.MarkdownConfig
    /** The template environment and the other collaborators. */
    const ext: Collaborators
    var visitor: Option<Visitor>
    var codeBlockFenced: Option<string>
    var processingImage: bool
    var imageAlt: Option<string>
    var currHeading: Option<Heading>
    var levels: set<nat>
    /** `render_mode`: RSS rather than article. */
    var rss: bool
    var headings: Option<seq<HeadingState>>

    /** The heading object the state depends on. */
    function CurrRepr(): set<object>
      reads this
    {
      if currHeading.Some? then {currHeading.value} else {}
    }

    function State(): RenderState
      reads this, CurrRepr()
    {
      RenderState(codeBlockFenced, processingImage, imageAlt,
                  if currHeading.Some? then Some(currHeading.value.Value()) else None,
                  levels, headings)
    }

    function SetupOf(): Setup
      reads this
    {
      Setup(markdownConfig, ext, visitor, rss)
    }

    /** The class invariant: every TOC entry's level has been recorded. */
    ghost predicate Valid()
      reads this, CurrRepr()
    {
      Inv(State())
    }

    /** `MarkdownRender::new`: article mode, no visitor, no TOC. */
    constructor (markdownConfig: EntityMarkdown.MarkdownConfig, ext: Collaborators)
      ensures State() == INITIAL
      ensures SetupOf() == Setup(markdownConfig, ext, None, false)
      ensures Valid()
    {
      this.markdownConfig := markdownConfig;
      this.ext := ext;
      visitor := None;
      codeBlockFenced := None;
      processingImage := false;
      imageAlt := None;
      currHeading := None;
      levels := {};
      rss := false;
      headings := None;
    }

    /** `set_markdown_visitor`. */
    method SetMarkdownVisitor(v: Visitor)
      modifies this`visitor
      ensures SetupOf() == old(SetupOf()).(visitor := Some(v))
      ensures State() == old(State()) && Valid() == old(Valid())
    {
      visitor := Some(v);
    }

    /** `enable_rss_mode`. */
    method EnableRssMode()
      modifies this`rss
      ensures SetupOf() == old(SetupOf()).(rss := true)
      ensures State() == old(State()) && Valid() == old(Valid())
    {
      rss := true;
    }

    /** `enable_toc`: starts an empty TOC (dropping any recorded one). */
    method EnableToc()
      modifies this`headings
      ensures State() == old(State()).(headings := Some([]))
      ensures Valid()
    {
      headings := Some([]);
    }

    /** `get_toc`: hands out the recorded TOC and leaves none behind. */
    method GetToc() returns (tocs: seq<Toc>)
      modifies this`headings
      ensures tocs == Tocs(old(headings))
      ensures State() == old(State()).(headings := None)
      ensures Valid()
    {
      tocs := Tocs(headings);
      headings := None;
    }

    /**
     * `rebuild_toc_depth`: renumbers each TOC entry, in place, by the rank of its level.
     * Under the class invariant its "Invalid heading level" panic cannot happen.
     */
    method RebuildTocDepth()
      requires Valid()
      modifies this`headings
      ensures RenderModel.RebuildTocDepth(old(State())).Ok?
      ensures State() == RenderModel.RebuildTocDepth(old(State())).value
      ensures Valid()
    {
      RebuildNeverFails(State());
      if headings.None? {
        return;
      }
      var renumbered := RenumberEach(SortedLevels(levels), headings.value);
      headings := Some(renumbered.value);
    }

    /** `visit_start_tag`. */
    method VisitStartTag(tag: Tag) returns (v: Visiting)
      modifies this, CurrRepr()
      ensures (State(), v) == StartTag(old(State()), tag)
      ensures SetupOf() == old(SetupOf())
      ensures currHeading.Some? ==> currHeading == old(currHeading) || fresh(currHeading.value)
    {
      match tag
      case FencedCodeBlock(info) =>
        codeBlockFenced := Some(info);
        v := Ignore;
      case Image(destUrl, title) =>
        var alt := imageAlt.GetOr("");
        imageAlt := None;
        processingImage := false;
        processingImage := true;
        v := Emit(Html(ImgHtml(destUrl, alt, title)));
      case Heading(level, id) =>
        var h := new Heading(level, id);
        currHeading := Some(h);
        v := Ignore;
      case _ =>
        if currHeading.Some? {
          currHeading.value.PushEvent(Start(tag));
          v := Ignore;
        } else {
          v := NotChanged;
        }
    }

    /** `visit_end_tag`; a heading-template failure is returned as the panic it is. */
    method VisitEndTag(tag: TagEnd) returns (r: Result<Visiting, string>)
      modifies this, CurrRepr()
      ensures match EndTag(old(SetupOf()), old(State()), tag)
              case Err(e) => r == Err(e)
              case Ok((s, v)) => r == Ok(v) && State() == s
      ensures SetupOf() == old(SetupOf())
      ensures currHeading.Some? ==> currHeading == old(currHeading)
    {
      match tag
      case ImageEnd =>
        processingImage := false;
        return Ok(Ignore);
      case CodeBlockEnd =>
        codeBlockFenced := None;
        return Ok(Ignore);
      case HeadingEnd(_) =>
        if currHeading.None? {
          return Ok(Ignore);
        }
        var heading := currHeading.value;
        currHeading := None;
        levels := levels + {heading.toc.level};
        var event := heading.Render(ext);
        if event.Err? {
          return Err(event.error);
        }
        if headings.Some? {
          headings := Some(headings.value + [heading.Value()]);
        }
        return Ok(Emit(event.value));
      case OtherEnd(_) =>
        if currHeading.Some? {
          currHeading.value.PushEvent(End(tag));
          return Ok(Ignore);
        }
        return Ok(NotChanged);
    }

    /** `visit_text`: heading capture, then image capture, then the fenced-block dispatch. */
    method VisitText(text: string) returns (r: Result<Visiting, string>)
      modifies this, CurrRepr()
      ensures match TextEvent(old(SetupOf()), old(State()), text)
              case Err(e) => r == Err(e)
              case Ok((s, v)) => r == Ok(v) && State() == s
      ensures SetupOf() == old(SetupOf())
      ensures currHeading == old(currHeading)
    {
      if currHeading.Some? {
        currHeading.value.PushText(text);
        currHeading.value.PushEvent(Text(text));
        return Ok(Ignore);
      }
      if processingImage {
        imageAlt := Some(text);
        return Ok(Ignore);
      }
      if codeBlockFenced.Some? {
        return FencedText(SetupOf(), codeBlockFenced.value, text);
      }
      return Ok(NotChanged);
    }

    /** `visit_code`. */
    method VisitCode(code: string) returns (v: Visiting)
      modifies this, CurrRepr()
      ensures (State(), v) == CodeEvent(old(SetupOf()), old(State()), code)
      ensures SetupOf() == old(SetupOf())
      ensures currHeading == old(currHeading)
    {
      if currHeading.Some? {
        currHeading.value.PushText(code);
        currHeading.value.PushEvent(Code(code));
        return Ignore;
      }
      if visitor.Some? {
        var html := visitor.value.visitCode(code);
        if html.Some? {
          return Emit(Html(html.value));
        }
      }
      return NotChanged;
    }

    /** One event of the `filter_map`: visit it and resolve the answer. */
    method VisitEvent(e: Event) returns (r: Result<Option<Event>, string>)
      requires Valid()
      modifies this, CurrRepr()
      ensures match Step(old(SetupOf()), old(State()), e)
              case Err(msg) => r == Err(msg)
              case Ok((s, o)) => r == Ok(o) && State() == s
      ensures SetupOf() == old(SetupOf())
      ensures currHeading.Some? ==> currHeading == old(currHeading) || fresh(currHeading.value)
      ensures r.Ok? ==> Valid()
    {
      if Step(SetupOf(), State(), e).Ok? {
        StepPreservesInv(SetupOf(), State(), e);
      }
      match e
      case Start(tag) =>
        var v := VisitStartTag(tag);
        return Ok(Resolve(v, e));
      case End(tag) =>
        var v := VisitEndTag(tag);
        if v.Err? {
          return Err(v.error);
        }
        return Ok(Resolve(v.value, e));
      case Code(code) =>
        var v := VisitCode(code);
        return Ok(Resolve(v, e));
      case Text(text) =>
        var v := VisitText(text);
        if v.Err? {
          return Err(v.error);
        }
        return Ok(Resolve(v.value, e));
      case _ =>
        return Ok(Some(e));
    }

    /**
     * `render_html` over the parsed events: every event is visited in order, the surviving
     * events become HTML, and the TOC depths are rebuilt.
     */
    method RenderHtml(markdown: seq<Event>) returns (r: Result<string, string>)
      requires Valid()
      modifies this, CurrRepr()
      ensures match RenderModel.RenderHtml(old(SetupOf()), old(State()), markdown)
              case Err(e) => r == Err(e)
              case Ok((s, html)) => r == Ok(html) && State() == s
      ensures r.Ok? ==> Valid()
      ensures r.Ok? && headings.Some? ==>
                forall i :: 0 <= i < |headings.value| ==>
                  headings.value[i].toc.depth == Depth(levels, headings.value[i].toc.level)
    {
      ghost var setup := SetupOf();
      ghost var start := State();
      assert Inv(start);
      var out: seq<Event> := [];
      var i := 0;
      while i < |markdown|
        invariant 0 <= i <= |markdown|
        invariant SetupOf() == setup
        invariant Run(setup, start, markdown[..i]) == Ok((State(), out))
        invariant Valid()
        invariant currHeading.Some? ==> currHeading.value in old(CurrRepr()) || fresh(currHeading.value)
      {
        RunSnoc(setup, start, markdown[..i], markdown[i]);
        assert markdown[..i + 1] == markdown[..i] + [markdown[i]];
        var o := VisitEvent(markdown[i]);
        if o.Err? {
          RunErrSticky(setup, start, markdown, i + 1);
          return Err(o.error);
        }
        out := out + OptionToSeq(o.value);
        i := i + 1;
      }
      assert markdown[..i] == markdown;
      var html := ext.pushHtml(out);
      RenderHtmlDepths(setup, start, markdown);
      RebuildTocDepth();
      return Ok(html);
    }
  }

  /** The `iter_mut().for_each` of `rebuild_toc_depth`: each entry's depth rewritten in turn. */
  method RenumberEach(depths: seq<nat>, headings: seq<HeadingState>) returns (r: Result<seq<HeadingState>, string>)
    ensures r == RenumberAll(depths, headings)
  {
    var hs := headings;
    var i := 0;
    while i < |hs|
      invariant 0 <= i <= |hs| == |headings|
      invariant RenumberAll(depths, headings[..i]) == Ok(hs[..i])
      invariant hs[i..] == headings[i..]
    {
      var h := hs[i];
      assert h == headings[i];
      var p := Position(depths, h.toc.level);
      if p.None? {
        RenumberFails(depths, headings, i);
        return Err("Invalid heading level");
      }
      var renumbered := h.(toc := h.toc.(depth := p.value + 1));
      RenumberSnoc(depths, headings[..i], h);
      assert headings[..i + 1] == headings[..i] + [h];
      ghost var prefix := hs[..i];
      hs := hs[i := renumbered];
      assert hs[..i + 1] == prefix + [renumbered];
      i := i + 1;
    }
    assert headings[..i] == headings && hs[..i] == hs;
    return Ok(hs);
  }

  lemma RenumberSnoc(sorted: seq<nat>, hs: seq<HeadingState>, h: HeadingState)
    ensures RenumberAll(sorted, hs + [h]) ==
            match RenumberAll(sorted, hs)
            case Err(e) => Err(e)
            case Ok(init) =>
              match Renumber(sorted, h)
              case Err(e) => Err(e)
              case Ok(h') => Ok(init + [h'])
  {
    assert (hs + [h])[..|hs|] == hs;
  }

  lemma RenumberFails(sorted: seq<nat>, hs: seq<HeadingState>, i: nat)
    requires i < |hs| && hs[i].toc.level !in sorted
    ensures RenumberAll(sorted, hs) == Err("Invalid heading level")
  {
  }

  /** A run that has panicked stays panicked, whatever follows. */
  lemma {:induction false} RunErrSticky(setup: Setup, s: RenderState, events: seq<Event>, n: nat)
    requires n <= |events|
    requires Run(setup, s, events[..n]).Err?
    ensures Run(setup, s, events) == Run(setup, s, events[..n])
    decreases |events|
  {
    if n < |events| {
      var init := events[..|events| - 1];
      assert init[..n] == events[..n];
      RunErrSticky(setup, s, init, n);
    } else {
      assert events[..n] == events;
    }
  }

  /** The TOC is handed out once: a second `get_toc` returns nothing. */
  method TocTakenOnce(r: MarkdownRender) returns (first: seq<Toc>, second: seq<Toc>)
    modifies r
    ensures first == Tocs(old(r.headings)) && second == []
  {
    first := r.GetToc();
    second := r.GetToc();
  }
}
