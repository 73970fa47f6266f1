/** The styling parameters shared by all three widgets: background, text
    colour, font stack and padding, with the two total mappings
    `getFontFamily` and `getPaddingValue`.
 */
module Style {
  import opened Query

  const SerifStack := "ui-serif, Georgia, Cambria, 'Times New Roman', Times, serif"
  const MonoStack := "ui-monospace, 'Cascadia Code', 'Source Code Pro', Menlo, Consolas, 'DejaVu Sans Mono', monospace"
  const SansStack := "ui-sans-serif, -apple-system, BlinkMacSystemFont, 'Segoe UI', Helvetica, 'Apple Color Emoji', Arial, sans-serif, 'Segoe UI Emoji', 'Segoe UI Symbol'"

  const DefaultBackground := "#ffffff"
  const DefaultTextColor := "#37352F"
  const DefaultFont := "sans"
  const DefaultPadding := "medium"

  /** `getFontFamily`: a CSS font stack for any font name. */
  function FontFamily(font: string): (stack: string)
    ensures stack == SerifStack <==> font == "serif"
    ensures stack == MonoStack <==> font == "mono"
    ensures stack == SansStack <==> font != "serif" && font != "mono"
  {
    match font
    case "serif" => SerifStack
    case "mono" => MonoStack
    case _ => SansStack
  }

  /** `getPaddingValue`: a CSS length for any padding name. */
  function PaddingValue(padding: string): (length: string)
    ensures length == "12px" <==> padding == "small"
    ensures length == "32px" <==> padding == "large"
    ensures length == "20px" <==> padding != "small" && padding != "large"
  {
    match padding
    case "small" => "12px"
    case "large" => "32px"
    case _ => "20px"
  }

  /** The resolved styling every generated document interpolates into its `body` rule. */
  datatype StyleParams = StyleParams(fontFamily: string, background: string, textColor: string, padding: string)

  /** The four styling lines common to the clock, weather and countdown generators. */
  function StyleOf(q: Params): (s: StyleParams)
    ensures s.fontFamily in {SerifStack, MonoStack, SansStack}
    ensures s.padding in {"12px", "20px", "32px"}
    ensures s.background != "" && s.textColor != ""
    ensures s.fontFamily == SansStack <==> !("font" in q && q["font"] in {"serif", "mono"})
    ensures s.padding == "20px" <==> !("padding" in q && q["padding"] in {"small", "large"})
    ensures s.fontFamily == FontFamily(Get(q, "font").GetOr(""))
    ensures s.padding == PaddingValue(Get(q, "padding").GetOr(""))
    ensures "bg" in q && q["bg"] != "" ==> s.background == q["bg"]
    ensures !("bg" in q && q["bg"] != "") ==> s.background == DefaultBackground
    ensures "color" in q && q["color"] != "" ==> s.textColor == q["color"]
    ensures !("color" in q && q["color"] != "") ==> s.textColor == DefaultTextColor
  {
    StyleParams(
      FontFamily(Param(q, "font", DefaultFont)),
      Param(q, "bg", DefaultBackground),
      Param(q, "color", DefaultTextColor),
      PaddingValue(Param(q, "padding", DefaultPadding)))
  }

  /** The styling a request with no styling parameters gets. */
  const DefaultStyle := StyleParams(SansStack, DefaultBackground, DefaultTextColor, "20px")

  /** With none of `bg`, `color`, `font`, `padding` supplied, every widget is
      drawn in the sans-serif stack, on white, in the default text colour, with
      20px padding. */
  lemma StyleDefaults(q: Params)
    requires "bg" !in q && "color" !in q && "font" !in q && "padding" !in q
    ensures StyleOf(q) == DefaultStyle
  {
  }

  /** The explicit fallbacks "sans" and "medium" add nothing: a missing or
      empty `font`/`padding` resolves exactly as an unrecognised name would. */
  lemma FallbackNamesAreUnrecognised(q: Params, unknownFont: string, unknownPadding: string)
    requires unknownFont != "serif" && unknownFont != "mono"
    requires unknownPadding != "small" && unknownPadding != "large"
    ensures FontFamily(Param(q, "font", DefaultFont)) == FontFamily(Get(q, "font").GetOr(unknownFont))
    ensures PaddingValue(Param(q, "padding", DefaultPadding)) == PaddingValue(Get(q, "padding").GetOr(unknownPadding))
  {
  }
}
