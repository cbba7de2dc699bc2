/** The constants the resolver takes from the program's style module: default
    theme names, the names of the light themes, the light and dark default
    backgrounds of the four line categories, the "no colour" foreground and the
    empty style. Their concrete values are not part of this model, so they travel
    together as one record argument. */
module StyleDefaults {
  import opened Highlighting

  datatype Palette = Palette(
    defaultLightTheme: string,
    defaultDarkTheme: string,
    lightThemes: seq<string>,
    lightThemeMinusColor: Color,
    darkThemeMinusColor: Color,
    lightThemeMinusEmphColor: Color,
    darkThemeMinusEmphColor: Color,
    lightThemePlusColor: Color,
    darkThemePlusColor: Color,
    lightThemePlusEmphColor: Color,
    darkThemePlusEmphColor: Color,
    noColor: Color,
    noStyle: Style)
}
