# genkit core, modelled in Dafny

genkit is a Rust toolkit for static site generators. This project models four of its
pieces and proves properties about them:

- **The markdown transducer** (`src/markdown/render.rs`): `MarkdownRender` takes the
  pulldown-cmark event stream and rewrites it. Heading, image and fenced-block events are
  captured and replaced by generated HTML, and a table of contents is collected whose
  depths are renumbered at the end.
- **The link-preview cache** (`src/data.rs`): `GenkitData` holds the preview records per
  URL, the table of fetch tasks and the markdown options. The source's `DIRTY` flag is a
  process-wide `static AtomicBool`; the model makes it a field of the class. The module
  also covers the JSON encoding that `export` writes and `new` reads.
- **The HTML meta extractor** (`src/html.rs`): `walk` fills a `Meta` record from
  `<title>` and from Open Graph and Twitter Card `<meta>` tags, then truncates it.
- **The link linter** (`src/cmd/lint.rs`): HTTP statuses are classified (sections 15.4,
  15.5.5 and 15.6 of RFC 9110) and non-normal URLs are grouped by condition.

It also models two supporting pieces: how entities compose (`src/entity/mod.rs`) and
the `MarkdownConfig` defaults (`src/entity/markdown.rs`).

Layout. Each file holds one module.

- `wrappers.dfy`: `Option`, `Result` and `Outcome`.
- `strings.dfy`: the Rust string methods used by the models: `trim`, `trim_end`,
  lower-casing, `replace`, `truncate`, plus lexicographic order.
- `json.dfy`: a JSON value.
- `entity_markdown.dfy` and `entity.dfy`: the entity pieces.
- `lint.dfy`: the linter.
- `html.dfy`: the extractor. The pure functions `Visit` and `ExtractMeta` specify it. The
  class `Meta` and the method `Walk` implement it by updating the record in place.
- `render_model.dfy`: the transducer as a pure state machine. `Step` handles one event
  and `Run` handles a stream. All of the transducer's properties are proved here.
- `render.dfy`: the classes `Heading` and `MarkdownRender`. Each method updates its
  fields and states its new `State()` as the matching step of `RenderModel`.
- `data.dfy`: the cache. It has the pure encodings and the class `GenkitData`.

## Model

| member | source | states |
|---|---|---|
| EntityMarkdown.DefaultHighlightCode | src/entity/markdown.rs:6-7 | the serde default of `highlight_code` is true |
| EntityMarkdown.DefaultHighlightTheme | src/entity/markdown.rs:22-26 | the serde default of `highlight_theme` is "monokai" |
| EntityMarkdown.Default | src/entity/markdown.rs:12-19 | `Default` gives `highlight_code = true` and `highlight_theme = "monokai"` |
| EntityMarkdown.Deserialize | src/entity/markdown.rs:3-10 | a present key is taken as is; a missing key gets its serde default |
| EntityMarkdown.Serialize | src/entity/markdown.rs:3-10 | both fields are always written |
| EntityMarkdown.FieldDefaultsAgreeWithDefault | src/entity/markdown.rs:6-19 | a record with both keys missing reads as `Default()` |
| EntityMarkdown.SerializeRoundTrip | src/entity/markdown.rs:3-10 | writing a config and reading it back gives the same config |
| Entity.DefaultParse | src/entity/mod.rs:24-26 | the default `parse` succeeds and leaves the entity unchanged |
| Entity.DefaultRender | src/entity/mod.rs:28-30 | the default `render` succeeds |
| Entity.OptionParse | src/entity/mod.rs:34-39 | `None` succeeds untouched; `Some(e)` gives `e`'s parse result and updated entity |
| Entity.OptionRender | src/entity/mod.rs:41-46 | `None` succeeds; `Some(e)` renders exactly as `e` |
| Entity.VecParse | src/entity/mod.rs:50-53 | success iff every element's parse succeeds, with every element then replaced by its parsed form; a failure carries some failing element's error; each element is either untouched or parsed |
| Entity.VecRender | src/entity/mod.rs:55-60 | success iff every element renders with the same environment, context and destination; a failure is some failing element's error |
| Lint.Classify | src/cmd/lint.rs:94-103 | 404 iff NotFound; 3xx iff Redirected; 5xx iff ServerError; everything else iff Normal |
| Lint.CheckUrl | src/cmd/lint.rs:89-105 | a status pairs the url with its classification; a request error is returned as is |
| Lint.UrlsWithMembership | src/cmd/lint.rs:63-74 | a url is listed under condition c iff some result pairs it with c |
| Lint.UrlsWithEmpty | src/cmd/lint.rs:63-74 | the list of c is empty iff no result has condition c |
| Lint.GroupByCondition | src/cmd/lint.rs:60-74 | the fold: Normal is never a key; any other condition is a key iff some url has it; its list holds those urls in input order |
| Lint.LintProject | src/cmd/lint.rs:60-86 | Err iff some check fails, and then with a failing check's error; otherwise true iff every url is Normal |
| Html.Meta.constructor | src/html.rs:11-17 | `Meta::default()`: empty title and description, no url, no image |
| Html.Meta.Truncate | src/html.rs:20-23 | the record becomes `Truncated` of the old record |
| Html.Truncated | src/html.rs:20-23 | title and description are prefixes of at most 200 characters (the limit counts characters, where the source counts bytes), unchanged when already short enough; url and image are untouched |
| Html.FindAttribute | src/html.rs:63-78 | None iff every attribute with that name has a blank value; a found value is non-empty and already trimmed |
| Html.FindAttributeFirst | src/html.rs:63-78 | the search yields the trimmed value of the first attribute with that name whose value is not blank |
| Html.GetAttribute | src/html.rs:63-78 | `get_attribute`: the trimmed value of the first non-blank attribute of that name; blank values count as absent; trimming the result again changes nothing |
| Html.MetaKey | src/html.rs:100 | the `name` attribute is consulted before `property` |
| Html.Walk | src/html.rs:62-158 | updating the record in place ends in exactly the record and stop flag of `Visit` |
| Html.WalkMeta | src/html.rs:96-126 | the `<meta>` arm updates the record as `VisitMeta` says |
| Html.SetMetaField | src/html.rs:101-125 | the match on the tag's kind updates the record as `ApplyMeta` says |
| Html.CollectText | src/html.rs:139-150 | the `<title>` text is the concatenation of the text children |
| Html.ParseHtmlMeta | src/html.rs:27-56 | the result is `ExtractMeta` of the tree, so title and description have at most 200 characters |
| Html.VisitNeverStops | src/html.rs:86-157 | `walk` never asks to stop, so every child of `html` and `head` is visited |
| Html.VisitKeepsFirst | src/html.rs:101-123 | once set, the description, the image and the url are never replaced |
| Html.MetaTitleOnlyWhileEmpty | src/html.rs:108-112 | a `<meta>` sets the title only for `og:title`/`twitter:title` with content while the title is still empty |
| Html.MetaFirstTaken | src/html.rs:101-123 | a description, image or url tag with a content sets its field exactly when that field is still empty (description trimmed, image and url as is); otherwise the field is unchanged |
| Html.MetaUnderHead | src/html.rs:96-126 | a `<meta>` directly under `<head>` updates the record as `VisitMeta` says and does not stop the walk |
| Html.DescriptionTagSets | src/html.rs:96-107 | the first non-blank `name="description"` tag under `<head>` sets an empty description to the trimmed content |
| Html.NameBeforeProperty | src/html.rs:100 | a non-blank `name` decides the kind, whatever `property` says |
| Html.BlankContentChangesNothing | src/html.rs:96-124 | a `<meta>` whose `content` values are all blank changes nothing |
| Html.TitleTagOverrides | src/html.rs:130-152 | a `<title>` under `<head>` sets the title to its trimmed text, overriding any earlier value |
| Html.OtherElementsIgnored | src/html.rs:86-155 | an element other than `html`/`head` changes nothing and does not stop the walk, unless it is a `<meta>` or `<title>` directly under `<head>` |
| Html.NoscriptMetaIgnored | src/html.rs:86-155 | a `<meta>` inside `<head><noscript>` is not read |
| Html.FooterTitleIgnored | src/html.rs:86-152 | a `<title>` inside a `<footer>` is ignored |
| Data.SerializeInfo | src/data.rs:81-89 | a preview record is written as exactly `[title, description, image-or-""]` |
| Data.NextString | src/data.rs:115-119 | past the end gives absent; otherwise Ok iff the element is a string, and then that string |
| Data.DeserializeInfo | src/data.rs:111-125 | Ok iff an array of at most three strings; missing title and description read as "", a missing image as None |
| Data.InfoRoundTrip | src/data.rs:81-124 | write-then-read gives the record back, except that a None image comes back as Some("") |
| Data.InfoLenient | src/data.rs:115-124 | arrays of zero, one or two strings are accepted, and the missing fields take their defaults |
| Data.SortedKeys | src/data.rs:146-150 | the `BTreeMap` keys: strictly ascending, each key of the map exactly once |
| Data.SerializeData | src/data.rs:152-154 | an object with the single key `urlPreviews`, holding one entry per record |
| Data.SerializeDataSorted | src/data.rs:146-154 | the exported entries are in strictly ascending order of URL |
| Data.SerializeDataEntries | src/data.rs:146-154 | each exported entry is the encoding of the record cached under its URL |
| Data.SerializeDataComplete | src/data.rs:146-154 | every cached record is exported |
| Data.DeserializeData | src/data.rs:128-138 | a one-element array reads as its element's map of records; any other array, and anything but an object or an array, is an error |
| Data.ArrayForm | src/data.rs:128-138 | the sequence form: `[v]` reads as `v`'s records; an empty array and a two-element array are errors |
| Data.ExtraKeysIgnored | src/data.rs:128-138 | keys other than `urlPreviews`, before or after it, are ignored |
| Data.SingleField | src/data.rs:128-138 | an object whose only key is `urlPreviews` reads as that key's map |
| Data.FieldRequiredOnce | src/data.rs:128-138 | a missing `urlPreviews` is an error, and so is a repeated one |
| Data.FieldDecoded | src/data.rs:128-138 | an object of any size with exactly one `urlPreviews` entry, at any position, reads as that entry's value |
| Data.FieldMissing | src/data.rs:128-138 | an object of any size without a `urlPreviews` entry is an error |
| Data.FieldRepeated | src/data.rs:128-138 | an object with two `urlPreviews` entries, anywhere, is an error |
| Data.DataRoundTrip | src/data.rs:141-169 | exporting the cache and loading it back gives the same records, with missing images read as Some("") |
| Data.DataFilename | src/data.rs:49-51 | the configured data file name, else "genkit.json" |
| Data.OutcomeCell.constructor | src/data.rs:201 | a new task's receiver starts out with no outcome |
| Data.GenkitData.constructor | src/data.rs:171-175 | default markdown config, no tasks, the given previews, not dirty |
| Data.GenkitData.New | src/data.rs:165-177 | a missing file gives an empty cache; a read or decode error is returned; a decoded file gives its records; markdown config defaulted and no tasks either way |
| Data.GenkitData.GetPreview | src/data.rs:183-191 | the stored record if the url is present, None otherwise; reading only |
| Data.GenkitData.PreviewUrl | src/data.rs:196-227 | true iff the url had no task yet, which then registers a fresh empty receiver; otherwise false and the existing receiver, with nothing changed; the records, dirty flag and config are not consulted or changed |
| Data.GenkitData.CompleteFetch | src/data.rs:208-224 | on success the extracted record is stored under the url, the cache becomes dirty and `Finished(info)` is published; on failure only `Failed(msg)` is published |
| Data.GenkitData.SetMarkdownConfig | src/data.rs:229-232 | the config becomes the given one, and nothing else changes |
| Data.GenkitData.GetMarkdownConfig | src/data.rs:234-236 | returns the stored markdown config |
| Data.ConfigSetThenGet | src/data.rs:229-236 | reading the config after setting it gives the config set |
| Data.GenkitData.Export | src/data.rs:55-67 | not dirty: nothing is written; dirty and empty: nothing written, flag cleared; dirty and non-empty: the sorted JSON is written to the data file and the flag cleared, unless the write fails |
| Data.ExportTwice | src/data.rs:55-67 | two exports with no insertion between them write at most once |
| Data.FailedFetchIsKept | src/data.rs:196-225 | after a failed fetch the task stays; a later call returns false and the `Failed` outcome, and the records and dirty flag are unchanged |
| RenderModel.Resolve | src/markdown/render.rs:406-417 | Event gives that event; NotChanged gives the original event; Ignore drops it |
| RenderModel.DeriveId | src/markdown/render.rs:106-113 | character by character: a space becomes '-', anything else is lower-cased; so no spaces or upper-case letters remain |
| RenderModel.HeadingId | src/markdown/render.rs:106-113 | an explicit id is kept unchanged; otherwise the derived one is used |
| RenderModel.RenderHeading | src/markdown/render.rs:105-129 | succeeds iff the template renders; the heading keeps the fixed id and has no buffered events; the emitted event is the template's HTML |
| RenderModel.Highlight | src/markdown/render.rs:191-205 | an unknown theme is a panic; with a known theme the result is the highlighter's HTML, and a highlighter failure is the "Highlight failed" panic |
| RenderModel.RenderCodeBlock | src/markdown/render.rs:233-260 | a url preview renders the trimmed block and may give None; a callout or quote succeeds iff its renderer does, with that renderer's HTML, and otherwise panics; any other name gives None |
| RenderModel.RunSnoc | src/markdown/render.rs:208-222 | rendering one more event is rendering the prefix and then visiting that event |
| RenderModel.SortedLevels | src/markdown/render.rs:180 | the recorded levels, distinct and in ascending order |
| RenderModel.Position | src/markdown/render.rs:182-184 | the first index holding the value, present iff the value occurs |
| RenderModel.RenumberAll | src/markdown/render.rs:179-188 | succeeds iff every entry's level is recorded, otherwise "Invalid heading level"; each entry is renumbered in place |
| RenderModel.Tocs | src/markdown/render.rs:169-175 | the TOC entries in order, or none when the TOC is not enabled |
| RenderModel.ImageStart | src/markdown/render.rs:268-281 | an image start emits exactly `<img src="D" alt="A" title="T" loading="lazy">`, with A the pending alt or "", and clears the alt |
| RenderModel.ImageTextBuffered | src/markdown/render.rs:343-346 | while an image is open, text overwrites the alt buffer and is not emitted |
| RenderModel.ImageAltTakenAtStart | src/markdown/render.rs:268-346 | the alt is read at the image's start, so an image's own text becomes the next image's alt |
| RenderModel.HeadingBodyStep | src/markdown/render.rs:290-384 | inside a heading, a text, code or other tag event is buffered, text and code extend the title, nothing is emitted |
| RenderModel.HeadingCaptureSilent | src/markdown/render.rs:290-384 | a whole run of such events is buffered in order and emits nothing |
| RenderModel.HeadingEndEmitsOne | src/markdown/render.rs:311-319 | a heading end records the level, emits exactly one Html event from the template, and appends the heading to the TOC only if the TOC is enabled |
| RenderModel.StrayHeadingEnd | src/markdown/render.rs:320-322 | a heading end with no open heading is dropped |
| RenderModel.HeadingStart | src/markdown/render.rs:283-289 | a heading start opens a new heading (depth = level, empty title) and emits nothing |
| RenderModel.FenceTagsDropped | src/markdown/render.rs:264-310 | fence starts, code-block ends and image ends are never emitted |
| RenderModel.IndentedCodeBlockEndDropped | src/markdown/render.rs:290-310 | an indented code block's start passes through but its end is dropped |
| RenderModel.FencedDispatch | src/markdown/render.rs:348-373 | fenced text: url preview in RSS mode dropped; built-in rendered, or passed through when it yields None; then visitor HTML; then highlighting; then `<pre>text</pre>` |
| RenderModel.RssSuppressesUrlPreview | src/markdown/render.rs:350-354 | in RSS mode a url preview block is dropped whatever the visitor and config |
| RenderModel.HeadingBeatsImageAndFence | src/markdown/render.rs:336-341 | an open heading takes text before image and fence capture |
| RenderModel.ImageBeatsFence | src/markdown/render.rs:343-348 | image capture comes before fenced capture |
| RenderModel.PassThrough | src/markdown/render.rs:375-392 | outside all contexts text passes unchanged, and inline code becomes the visitor's HTML or stays |
| RenderModel.OtherEventsUnchanged | src/markdown/render.rs:221 | raw HTML and other events pass unchanged |
| RenderModel.StepPreservesInv | src/markdown/render.rs:312-318 | every TOC entry's level is recorded, an invariant one event keeps |
| RenderModel.RunPreservesInv | src/markdown/render.rs:208-318 | a whole stream keeps that invariant |
| RenderModel.RebuildNeverFails | src/markdown/render.rs:178-317 | under the invariant, the "Invalid heading level" panic cannot happen |
| RenderModel.Depth | src/markdown/render.rs:180-186 | every depth lies in 1..number of distinct levels |
| RenderModel.RenumberDepth | src/markdown/render.rs:181-187 | renumbering sets the depth to 1 + the rank of the level and changes nothing else |
| RenderModel.DepthOrdered | src/markdown/render.rs:180-186 | a lower level gets a strictly smaller depth, and equal levels get equal depths |
| RenderModel.DepthsDense | src/markdown/render.rs:180-186 | every depth from 1 to the number of distinct levels is used |
| RenderModel.DepthExample | src/markdown/render.rs:180-186 | levels {2, 4} give depths 1 and 2, so headings at levels 2, 2, 4 get depths 1, 1, 2 |
| RenderModel.RenderHtmlDepths | src/markdown/render.rs:178-228 | after a render whose visits do not panic, the depth rebuild does not panic and every TOC depth is its level's depth |
| Render.Heading.constructor | src/markdown/render.rs:82-92 | a new heading: depth = level, the given id, empty title, no events |
| Render.Heading.PushEvent | src/markdown/render.rs:94-97 | appends the event to the buffer |
| Render.Heading.PushText | src/markdown/render.rs:99-102 | appends the text to the title |
| Render.Heading.Render | src/markdown/render.rs:105-129 | updating the heading in place ends in the state that `RenderHeading` gives, and returns its event |
| Render.MarkdownRender.constructor | src/markdown/render.rs:133-146 | the initial state: article mode, no visitor, no TOC, nothing open; the class invariant (every TOC level recorded) holds |
| Render.MarkdownRender.SetMarkdownVisitor | src/markdown/render.rs:148-154 | the visitor is set and nothing else changes |
| Render.MarkdownRender.EnableRssMode | src/markdown/render.rs:157-160 | RSS mode is set and nothing else changes |
| Render.MarkdownRender.EnableToc | src/markdown/render.rs:163-166 | starts an empty TOC and nothing else changes |
| Render.MarkdownRender.GetToc | src/markdown/render.rs:169-175 | returns the recorded TOC entries and leaves no TOC |
| Render.MarkdownRender.RebuildTocDepth | src/markdown/render.rs:178-189 | under the class invariant the "Invalid heading level" panic cannot happen; the new state is `RenderModel.RebuildTocDepth` of the old one, and the invariant still holds |
| Render.MarkdownRender.VisitStartTag | src/markdown/render.rs:262-299 | new state and answer are those of `StartTag` |
| Render.MarkdownRender.VisitEndTag | src/markdown/render.rs:301-333 | new state and answer are those of `EndTag`, or its panic |
| Render.MarkdownRender.VisitText | src/markdown/render.rs:335-376 | new state and answer are those of `TextEvent`, or its panic |
| Render.MarkdownRender.VisitCode | src/markdown/render.rs:378-393 | new state and answer are those of `CodeEvent` |
| Render.MarkdownRender.VisitEvent | src/markdown/render.rs:212-222 | one event of the `filter_map`: the new state and surviving event are those of `Step`; the class invariant is kept |
| Render.MarkdownRender.RenderHtml | src/markdown/render.rs:208-228 | the HTML and new state are those of `RenderModel.RenderHtml`, or the first panic; after a render that does not panic, each TOC depth is 1 + the rank of its level among the recorded levels |
| Render.RenumberEach | src/markdown/render.rs:181-187 | the in-place loop computes `RenumberAll` |
| Render.RunErrSticky | src/markdown/render.rs:208-222 | once a visit has panicked, the render stays failed whatever follows |
| Render.TocTakenOnce | src/markdown/render.rs:169-175 | a second `get_toc` returns nothing |
| Strings.LeadingWhitespace | src/html.rs:66 | the length of the whitespace prefix: all whitespace, followed by the end or a non-whitespace character |
| Strings.Trim | src/html.rs:66 | `str::trim`: the infix of `s` after its leading whitespace, followed only by whitespace, and neither starting nor ending with whitespace |
| Strings.TrimIdempotent | src/html.rs:66-110 | trimming a trimmed string changes nothing, so the second trim of a looked-up content (lines 105 and 110) is a no-op |
| Strings.ToLower | src/markdown/render.rs:108 | each character is lower-cased on its own |
| Strings.ReplaceChar | src/markdown/render.rs:111 | each occurrence of the character is replaced, and nothing else is changed |
| Strings.Truncate | src/html.rs:21-22 | keeps the first n characters (not bytes), or the whole string if shorter |

## Left out

- Parsing markdown (pulldown-cmark) is not modelled: the transducer takes the event
  stream as input. `html::push_html` and the minijinja templates are functions of
  `Collaborators`.
- Syntax highlighting with syntect is not modelled: the theme lookup and the highlighter
  are functions of `Collaborators`.
- The `code_blocks` module is not part of this model. `Fenced::parse`, the built-in test,
  the url-preview, callout and quote renderers and the three block-name constants are
  parameters. A callout failure (`new`/`render`) and a quote failure (parse, template
  lookup, template render) are each one function returning None.
- Only the fence's name reaches `visit_custom_block`, which in the source takes
  `&fenced`.
- Every `unwrap`, `expect` and `panic!` becomes an `Err` result naming the failure. Each
  template collaborator is one partial function, so a failed template lookup and a failed
  render share the render's message: "Get heading template failed." (render.rs:121) comes
  out as "Render heading failed.", and "Get quote template failed." (render.rs:248) as
  "Render quote block failed.". The other `expect` and `panic!` messages are kept. The
  `unwrap` calls of the fence parser and of the callout and quote blocks get a message of
  the model's own, since the underlying error text comes from code outside this model. A
  panic aborts the whole render.
- The `DIRTY` flag (data.rs:28) is one process-wide atomic in the source, shared by every
  `GenkitData` and set from the fetch threads. The model keeps one flag per object and
  runs a fetch's completion as a single step (`CompleteFetch`), so the sharing between
  instances and the interleaving of threads are not modelled.
- `RenderModel.DeriveId`: lowercases ASCII letters only. Rust's Unicode `to_lowercase`,
  which can change the length of a string, is not modelled.
- `Strings.ToLower`: likewise ASCII only.
- Offset iteration, `CowStr` ownership and the heading-attribute classes of tags are not
  modelled.
- The network is not modelled: the result of `helpers::fetch_url` is the `page` input of
  `CompleteFetch`. The HTML parser (html5ever) is not modelled either: `CompleteFetch`
  takes the parsed tree.
- JSON text is not modelled. `export` writes a JSON value, and `new` gets a JSON value or
  an error.
- File creation, writing and reading are not modelled: a write failure is the
  `writeError` input, and a missing file is `None`.
- The data filename is an `Option` parameter rather than the `OnceCell` global.
- The global `RwLock` and the `load`/`read`/`write` accessors are not modelled.
- The DashMap `Locked` panic of `get_preview` is not modelled, because the model runs one
  task at a time.
- The tokio watch channel is an `OutcomeCell` with the latest outcome.
- `tokio::spawn` is not modelled: the spawned task is the separate method
  `CompleteFetch`, which a caller runs after `PreviewUrl`.
- `get_all_previews` (returns the shared map) is not modelled: the field `urlPreviews`
  is read directly.
- Rayon's parallel iteration is not modelled. `VecParse` visits the elements in order and
  stops at the first failure; the source may parse further elements.
- `Entity.VecParse`: says only that each element is either unchanged or parsed, because
  which elements are parsed after a failure depends on rayon's scheduling.
- The hyper HEAD request is the `head` input of `LintProject`.
- The linter's console output and the reading of the preview cache in `lint_project` are
  not modelled.
- `Strings.Truncate`: counts the limit in characters, where `String::truncate` counts UTF-8
  bytes, so a title of 150 two-byte characters is kept whole here but cut to 100
  characters by the source. The panic that `String::truncate` raises off a char boundary
  is not modelled either, because strings are sequences of characters here.
- `Html.Truncated`: likewise counts the 200-character limit in characters, not bytes.
- `Data.DeserializeData`: its own contract states the array form and the rejection of
  other values; the object form is stated by separate lemmas: `FieldDecoded`,
  `FieldMissing` and `FieldRepeated` for objects of any size, and `DataRoundTrip`.

Where the behaviour differs from what a reader might expect, the model follows the code:

- A failed fetch is never retried. `preview_url` never removes a task, so every later call
  returns the old receiver and its `Failed` outcome (`FailedFetchIsKept`).
- An image of None is written as "", so it reads back as Some("") rather than None
  (`InfoRoundTrip`).
- An image's alt text is read when the image starts, before that image's own text
  arrives, so each image gets the alt of the previous one (`ImageAltTakenAtStart`).
- A `CodeBlock` end is dropped even when it closes an indented code block, whose start
  passes through (`IndentedCodeBlockEndDropped`).
