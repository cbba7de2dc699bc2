/** The style-configuration resolver: from the parsed options, the loaded
    themes and the terminal widths it builds the one `Config` the diff renderer
    reads. Theme name, active theme and light/dark mode are decided once; the
    four style modifiers (removed, removed-emphasised, added, added-emphasised)
    are then built against that single light/dark decision. */
module Config {
  import opened Wrappers
  import opened Highlighting
  import opened Ascii
  import opened StyleDefaults
  import opened Cli

  /** The resolved configuration. */
  datatype Config = Config(
    theme: Option<Theme>,
    themeName: string,
    minusStyleModifier: StyleModifier,
    minusEmphStyleModifier: StyleModifier,
    plusStyleModifier: StyleModifier,
    plusEmphStyleModifier: StyleModifier,
    syntaxSet: SyntaxSet,
    terminalWidth: nat,
    width: Option<nat>,
    tabWidth: nat,
    opt: Opt,
    noStyle: Style,
    maxBufferedLines: nat)

  /** How many lines the renderer may buffer. */
  const MaxBufferedLines: nat := 32

  /** The theme name asked for, or the default light or dark theme name. */
  function ThemeName(opt: Opt, pal: Palette): (name: string)
    ensures opt.theme == Some(name) || name == pal.defaultLightTheme || name == pal.defaultDarkTheme
  {
    match opt.theme
    case Some(theme) => theme
    case None => if opt.light then pal.defaultLightTheme else pal.defaultDarkTheme
  }

  /** The name turns theming off: it is "none" up to case. */
  predicate IsNoneName(name: string)
    ensures IsNoneName(name) ==> |name| == 4
  {
    ToLowercase(name) == "none"
  }

  /** The loaded theme of that name is needed, and present, unless the name
      turns theming off (otherwise the lookup fails). */
  predicate ThemeKnown(opt: Opt, pal: Palette, themeSet: ThemeSet)
    ensures opt.theme.Some? && IsNoneName(opt.theme.value) ==> ThemeKnown(opt, pal, themeSet)
    ensures ThemeName(opt, pal) in themeSet.themes ==> ThemeKnown(opt, pal, themeSet)
  {
    var name := ThemeName(opt, pal);
    !IsNoneName(name) ==> name in themeSet.themes
  }

  /** No theme for a "none" name, else the loaded theme of that name. */
  function ActiveTheme(name: string, themeSet: ThemeSet): (theme: Option<Theme>)
    requires !IsNoneName(name) ==> name in themeSet.themes
    ensures theme.None? <==> IsNoneName(name)
    ensures theme.Some? ==> name in themeSet.themes && theme.value == themeSet.themes[name]
  {
    if IsNoneName(name) then None else Some(themeSet.themes[name])
  }

  /** Light without a theme unless dark was asked for; with a theme, light
      exactly for the names of the built-in light themes. */
  function IsLightTheme(theme: Option<Theme>, name: string, opt: Opt, pal: Palette): (light: bool)
    ensures theme.None? ==> light == !opt.dark
    ensures theme.Some? ==> light == (name in pal.lightThemes)
  {
    if theme.None? then !opt.dark else name in pal.lightThemes
  }

  /** The background for one line category: the user's colour when it is given
      and parses, else the light or the dark default. Never fails. */
  function ColorFromArg(arg: Option<string>, isLightTheme: bool,
                        lightThemeDefault: Color, darkThemeDefault: Color,
                        parse: ColorParser): (c: Color)
    ensures arg.Some? && parse(arg.value).Ok? ==> c == parse(arg.value).value
    ensures arg.None? || parse(arg.value).Err? ==>
      c == (if isLightTheme then lightThemeDefault else darkThemeDefault)
  {
    arg.AndThen(s => parse(s).ToOption())
       .UnwrapOrElse(() => if isLightTheme then lightThemeDefault else darkThemeDefault)
  }

  /** The whole resolution. */
  function GetConfig(opt: Opt, syntaxSet: SyntaxSet, themeSet: ThemeSet,
                     terminalWidth: nat, width: Option<nat>,
                     pal: Palette, parse: ColorParser): (cfg: Config)
    requires ThemeKnown(opt, pal, themeSet)
    ensures cfg.themeName == ThemeName(opt, pal)
    ensures cfg.syntaxSet == syntaxSet && cfg.opt == opt
    ensures cfg.terminalWidth == terminalWidth && cfg.width == width
    ensures cfg.tabWidth == opt.tabWidth
    ensures cfg.noStyle == pal.noStyle
    ensures cfg.maxBufferedLines == 32
  {
    var themeName := ThemeName(opt, pal);
    var theme := ActiveTheme(themeName, themeSet);
    var isLightTheme := IsLightTheme(theme, themeName, opt, pal);

    var minusStyleModifier := StyleModifier(
      background := Some(ColorFromArg(opt.minusColor, isLightTheme,
        pal.lightThemeMinusColor, pal.darkThemeMinusColor, parse)),
      foreground := if opt.highlightRemoved then None else Some(pal.noColor),
      fontStyle := None);

    var minusEmphStyleModifier := StyleModifier(
      background := Some(ColorFromArg(opt.minusEmphColor, isLightTheme,
        pal.lightThemeMinusEmphColor, pal.darkThemeMinusEmphColor, parse)),
      foreground := if opt.highlightRemoved then None else Some(pal.noColor),
      fontStyle := None);

    var plusStyleModifier := StyleModifier(
      background := Some(ColorFromArg(opt.plusColor, isLightTheme,
        pal.lightThemePlusColor, pal.darkThemePlusColor, parse)),
      foreground := None,
      fontStyle := None);

    var plusEmphStyleModifier := StyleModifier(
      background := Some(ColorFromArg(opt.plusEmphColor, isLightTheme,
        pal.lightThemePlusEmphColor, pal.darkThemePlusEmphColor, parse)),
      foreground := None,
      fontStyle := None);

    Config(
      theme := theme,
      themeName := themeName,
      minusStyleModifier := minusStyleModifier,
      minusEmphStyleModifier := minusEmphStyleModifier,
      plusStyleModifier := plusStyleModifier,
      plusEmphStyleModifier := plusEmphStyleModifier,
      terminalWidth := terminalWidth,
      width := width,
      tabWidth := opt.tabWidth,
      syntaxSet := syntaxSet,
      opt := opt,
      noStyle := pal.noStyle,
      maxBufferedLines := MaxBufferedLines)
  }

  /** The light/dark decision `GetConfig` builds its modifiers against: with
      theming off it follows the `dark` flag alone; with a theme it is
      membership of the name as written (not its lower-case form) among the
      light themes. */
  function ResolvedIsLight(opt: Opt, pal: Palette, themeSet: ThemeSet): (light: bool)
    requires ThemeKnown(opt, pal, themeSet)
    ensures IsNoneName(ThemeName(opt, pal)) ==> light == !opt.dark
    ensures !IsNoneName(ThemeName(opt, pal)) ==> light == (ThemeName(opt, pal) in pal.lightThemes)
  {
    var name := ThemeName(opt, pal);
    IsLightTheme(ActiveTheme(name, themeSet), name, opt, pal)
  }

  // ---------------------------------------------------------------------------
  // Theme name

  /** Without a theme option the name is the default light theme's when light
      was asked for and the default dark theme's otherwise; a given name is kept
      as written. */
  lemma ThemeNameChoice(opt: Opt, syntaxSet: SyntaxSet, themeSet: ThemeSet,
                        terminalWidth: nat, width: Option<nat>,
                        pal: Palette, parse: ColorParser)
    requires ThemeKnown(opt, pal, themeSet)
    ensures var cfg := GetConfig(opt, syntaxSet, themeSet, terminalWidth, width, pal, parse);
      && (opt.theme.Some? ==> cfg.themeName == opt.theme.value)
      && (opt.theme.None? && opt.light ==> cfg.themeName == pal.defaultLightTheme)
      && (opt.theme.None? && !opt.light ==> cfg.themeName == pal.defaultDarkTheme)
  {
  }

  /** Helper: the theme name never depends on the `dark` flag. */
  lemma ThemeNameIgnoresDark(opt: Opt, pal: Palette)
    ensures ThemeName(opt, pal) == ThemeName(opt.(dark := !opt.dark), pal)
  {
  }

  // ---------------------------------------------------------------------------
  // Active theme

  /** The theme is absent exactly when the name is "none" in any case, and is
      otherwise the loaded theme of that name. */
  lemma ActiveThemeIffNotNone(opt: Opt, syntaxSet: SyntaxSet, themeSet: ThemeSet,
                              terminalWidth: nat, width: Option<nat>,
                              pal: Palette, parse: ColorParser)
    requires ThemeKnown(opt, pal, themeSet)
    ensures var cfg := GetConfig(opt, syntaxSet, themeSet, terminalWidth, width, pal, parse);
      && (cfg.theme.None? <==> IsNoneName(cfg.themeName))
      && (cfg.theme.Some? ==> cfg.themeName in themeSet.themes
                              && cfg.theme.value == themeSet.themes[cfg.themeName])
  {
  }

  /** "none", "None" and "NONE" all turn theming off, whatever the loaded themes. */
  lemma NoneNamesDisableTheme(themeSet: ThemeSet)
    ensures ActiveTheme("none", themeSet).None?
    ensures ActiveTheme("None", themeSet).None?
    ensures ActiveTheme("NONE", themeSet).None?
  {
    NoneSpellings("none");
    NoneSpellings("None");
    NoneSpellings("NONE");
  }

  /** A name that is not four letters long never turns theming off. */
  lemma OtherLengthsSelectTheme(name: string, themeSet: ThemeSet)
    requires |name| != 4 && name in themeSet.themes
    ensures ActiveTheme(name, themeSet) == Some(themeSet.themes[name])
  {
    NoneSpellings(name);
  }

  // ---------------------------------------------------------------------------
  // Light or dark

  /** With theming off by an explicit theme option, the `light` flag plays no
      part in the decision. */
  lemma LightWithoutThemeIgnoresLightFlag(opt: Opt, pal: Palette, themeSet: ThemeSet, light: bool)
    requires opt.theme.Some? && IsNoneName(opt.theme.value)
    ensures ThemeKnown(opt.(light := light), pal, themeSet)
    ensures ThemeKnown(opt, pal, themeSet)
    ensures ResolvedIsLight(opt, pal, themeSet) == ResolvedIsLight(opt.(light := light), pal, themeSet)
  {
  }

  /** With a theme, the `dark` flag has no say: flipping it changes nothing. */
  lemma LightFromThemeIgnoresDark(opt: Opt, pal: Palette, themeSet: ThemeSet)
    requires ThemeKnown(opt, pal, themeSet)
    requires !IsNoneName(ThemeName(opt, pal))
    ensures ThemeKnown(opt.(dark := !opt.dark), pal, themeSet)
    ensures ResolvedIsLight(opt, pal, themeSet) == ResolvedIsLight(opt.(dark := !opt.dark), pal, themeSet)
  {
    ThemeNameIgnoresDark(opt, pal);
  }

  // ---------------------------------------------------------------------------
  // Colour resolution

  /** A colour that is given and parses makes the result independent of the
      light/dark mode and of both defaults. */
  lemma OverrideWins(s: string, parse: ColorParser,
                     isLight1: bool, light1: Color, dark1: Color,
                     isLight2: bool, light2: Color, dark2: Color)
    requires parse(s).Ok?
    ensures ColorFromArg(Some(s), isLight1, light1, dark1, parse)
         == ColorFromArg(Some(s), isLight2, light2, dark2, parse)
         == parse(s).value
  {
  }

  // ---------------------------------------------------------------------------
  // Style modifiers

  /** All four backgrounds are set; each comes from its own category's option
      and default pair, and all four use one and the same light/dark decision. */
  lemma BackgroundsShareOneMode(opt: Opt, syntaxSet: SyntaxSet, themeSet: ThemeSet,
                                terminalWidth: nat, width: Option<nat>,
                                pal: Palette, parse: ColorParser)
    requires ThemeKnown(opt, pal, themeSet)
    ensures var cfg := GetConfig(opt, syntaxSet, themeSet, terminalWidth, width, pal, parse);
      var isLight := ResolvedIsLight(opt, pal, themeSet);
      && cfg.minusStyleModifier.background
         == Some(ColorFromArg(opt.minusColor, isLight,
                   pal.lightThemeMinusColor, pal.darkThemeMinusColor, parse))
      && cfg.minusEmphStyleModifier.background
         == Some(ColorFromArg(opt.minusEmphColor, isLight,
                   pal.lightThemeMinusEmphColor, pal.darkThemeMinusEmphColor, parse))
      && cfg.plusStyleModifier.background
         == Some(ColorFromArg(opt.plusColor, isLight,
                   pal.lightThemePlusColor, pal.darkThemePlusColor, parse))
      && cfg.plusEmphStyleModifier.background
         == Some(ColorFromArg(opt.plusEmphColor, isLight,
                   pal.lightThemePlusEmphColor, pal.darkThemePlusEmphColor, parse))
  {
  }

  /** Removed lines have their foreground blanked to "no colour" unless removed
      text is to stay highlighted; added lines never touch the foreground; no
      modifier touches the font style. */
  lemma ForegroundAndFontStyle(opt: Opt, syntaxSet: SyntaxSet, themeSet: ThemeSet,
                               terminalWidth: nat, width: Option<nat>,
                               pal: Palette, parse: ColorParser)
    requires ThemeKnown(opt, pal, themeSet)
    ensures var cfg := GetConfig(opt, syntaxSet, themeSet, terminalWidth, width, pal, parse);
      && (opt.highlightRemoved ==>
            cfg.minusStyleModifier.foreground.None? && cfg.minusEmphStyleModifier.foreground.None?)
      && (!opt.highlightRemoved ==>
            && cfg.minusStyleModifier.foreground == Some(pal.noColor)
            && cfg.minusEmphStyleModifier.foreground == Some(pal.noColor))
      && cfg.plusStyleModifier.foreground.None?
      && cfg.plusEmphStyleModifier.foreground.None?
      && cfg.minusStyleModifier.fontStyle.None?
      && cfg.minusEmphStyleModifier.fontStyle.None?
      && cfg.plusStyleModifier.fontStyle.None?
      && cfg.plusEmphStyleModifier.fontStyle.None?
  {
  }

  // ---------------------------------------------------------------------------
  // Whole-resolution examples

  /** A named dark theme with a removed-line colour that parses: the theme is
      that loaded theme, the mode is dark even though `dark` was not asked for,
      and the removed-line background is the parsed colour. */
  lemma NamedDarkThemeWithOverride(opt: Opt, syntaxSet: SyntaxSet, themeSet: ThemeSet,
                                   terminalWidth: nat, width: Option<nat>,
                                   pal: Palette, parse: ColorParser)
    requires opt.theme == Some("dracula") && !opt.dark
    requires "dracula" in themeSet.themes && "dracula" !in pal.lightThemes
    requires opt.minusColor == Some("#112233") && parse("#112233").Ok?
    ensures ThemeKnown(opt, pal, themeSet)
    ensures var cfg := GetConfig(opt, syntaxSet, themeSet, terminalWidth, width, pal, parse);
      && cfg.theme == Some(themeSet.themes["dracula"])
      && !ResolvedIsLight(opt, pal, themeSet)
      && cfg.minusStyleModifier.background == Some(parse("#112233").value)
  {
    NoneSpellings("dracula");
  }

  /** Theming off by name with `dark` asked for: no theme, dark mode, and the
      added-line background falls back to the dark default. */
  lemma NoThemeDarkFallback(opt: Opt, syntaxSet: SyntaxSet, themeSet: ThemeSet,
                            terminalWidth: nat, width: Option<nat>,
                            pal: Palette, parse: ColorParser)
    requires opt.theme == Some("none") && opt.dark && opt.plusColor.None?
    ensures ThemeKnown(opt, pal, themeSet)
    ensures var cfg := GetConfig(opt, syntaxSet, themeSet, terminalWidth, width, pal, parse);
      && cfg.theme.None?
      && !ResolvedIsLight(opt, pal, themeSet)
      && cfg.plusStyleModifier.background == Some(pal.darkThemePlusColor)
  {
    NoneSpellings("none");
  }
}
