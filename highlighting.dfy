/** The few types of the syntax-highlighting library that the configuration
    resolver handles. Themes and syntax sets are kept as opaque handles: the
    resolver only passes them along or looks them up by name. */
module Highlighting {
  import opened Wrappers

  newtype u8 = x: int | 0 <= x < 0x100

  /** An RGBA colour, as the highlighting library defines it. */
  datatype Color = Color(r: u8, g: u8, b: u8, a: u8)

  /** The library's set of font-style bit flags (bold, underline, italic). */
  datatype FontStyle = FontStyle(bits: u8)

  /** A complete style: every field has a value. */
  datatype Style = Style(foreground: Color, background: Color, fontStyle: FontStyle)

  /** A delta over a base style; `None` in a field keeps the base style's value. */
  datatype StyleModifier = StyleModifier(
    foreground: Option<Color>,
    background: Option<Color>,
    fontStyle: Option<FontStyle>)

  /** The error `Color::from_str` reports for text that is not a colour. */
  datatype ParseThemeError = IncorrectColor

  /** `Color::from_str`: the library's colour-text parser, supplied from outside. */
  type ColorParser = string -> Result<Color, ParseThemeError>

  /** A handle on one loaded theme. */
  datatype Theme = Theme(id: nat)

  /** The loaded themes, by name. */
  datatype ThemeSet = ThemeSet(themes: map<string, Theme>)

  /** A handle on the loaded syntax definitions. */
  datatype SyntaxSet = SyntaxSet(id: nat)
}
