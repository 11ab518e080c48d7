/** The Markdown options of a site (src/entity/markdown.rs). */
module EntityMarkdown {
  import opened Wrappers

  /** `MarkdownConfig`: whether fenced code is syntax-highlighted, and with which theme. */
  datatype MarkdownConfig = MarkdownConfig(highlightCode: bool, highlightTheme: string)

  const DEFAULT_HIGHLIGHT_THEME: string := "monokai"

  /** The serde default of `highlight_code`. */
  function DefaultHighlightCode(): (b: bool)
    ensures b
  {
    true
  }

  /** The serde default of `highlight_theme`. */
  function DefaultHighlightTheme(): (t: string)
    ensures t == "monokai"
  {
    DEFAULT_HIGHLIGHT_THEME
  }

  /** `impl Default for MarkdownConfig`. */
  function Default(): (c: MarkdownConfig)
    ensures c.highlightCode
    ensures c.highlightTheme == "monokai"
  {
    MarkdownConfig(true, DefaultHighlightTheme())
  }

  /**
   * A configuration record as read from a site's configuration: each of the two
   * (snake_case) keys `highlight_code` and `highlight_theme` may be missing.
   */
  datatype RawMarkdownConfig = RawMarkdownConfig(highlightCode: Option<bool>, highlightTheme: Option<string>)

  /** The derived `Deserialize`: a present key is taken, a missing key gets its serde default. */
  function Deserialize(raw: RawMarkdownConfig): (c: MarkdownConfig)
    ensures raw.highlightCode.Some? ==> c.highlightCode == raw.highlightCode.value
    ensures raw.highlightCode.None? ==> c.highlightCode == DefaultHighlightCode()
    ensures raw.highlightTheme.Some? ==> c.highlightTheme == raw.highlightTheme.value
    ensures raw.highlightTheme.None? ==> c.highlightTheme == DefaultHighlightTheme()
  {
    MarkdownConfig(raw.highlightCode.GetOr(DefaultHighlightCode()),
                   raw.highlightTheme.GetOr(DefaultHighlightTheme()))
  }

  /** The derived `Serialize`: both fields are always written. */
  function Serialize(c: MarkdownConfig): (raw: RawMarkdownConfig)
    ensures raw.highlightCode.Some? && raw.highlightTheme.Some?
  {
    RawMarkdownConfig(Some(c.highlightCode), Some(c.highlightTheme))
  }

  /** The serde field defaults agree with `Default`: an empty record reads as `Default()`. */
  lemma FieldDefaultsAgreeWithDefault()
    ensures Deserialize(RawMarkdownConfig(None, None)) == Default()
  {
  }

  /** Writing a configuration and reading it back gives the same configuration. */
  lemma SerializeRoundTrip(c: MarkdownConfig)
    ensures Deserialize(Serialize(c)) == c
  {
  }
}
