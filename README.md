# delta style-configuration resolver, in Dafny

This project models `get_config` and `color_from_arg` from delta's
`src/config.rs`. These build the `Config` that the diff renderer reads. The
resolution runs in four steps:

1. **Theme name.** The `--theme` option is used as written. Without it, the
   default light or dark theme name is used, chosen by `--light`.
2. **Active theme.** There is no theme when the name is "none" in any mix of
   case. Otherwise it is the loaded theme of that name.
3. **Light or dark.** With no theme, the mode is light unless `--dark` was
   given. With a theme, the mode is light exactly when the name is one of the
   built-in light themes.
4. **Style modifiers.** There are four: removed, removed-emphasised, added and
   added-emphasised. Each background is the user's colour when it is given and
   parses, and otherwise the light or dark default for that category. Removed
   lines blank their foreground to the "no colour" value unless removed text
   is to stay highlighted. Added lines leave the foreground alone. No modifier
   changes the font style.

The other `Config` fields pass through unchanged: widths, tab width, the
options, the syntax set and the empty style. `max_buffered_lines` is 32.

Files:
- `wrappers.dfy` holds `Option` and `Result` with the combinators the source chains.
- `highlighting.dfy` holds the highlighting library's colour, style and
  style-modifier types, plus opaque theme and syntax-set handles.
- `style.dfy` holds the style module's constants, gathered in one `Palette` record.
- `cli.dfy` holds the options that are read here.
- `ascii.dfy` holds lower-casing.
- `config.dfy` holds the resolver and its properties.

Several collaborators of the source are parameters of the model:
- **Colour parser.** `Color::from_str` becomes `parse: string -> Result<Color, ParseThemeError>`.
- **Style constants.** The constants of `src/style.rs` become a `Palette` argument.
  `src/style.rs` is not part of this model, so their values are unknown.
- **Theme set.** The loaded theme set becomes a map from names to theme handles.

The source indexes the theme map with the chosen name, and that panics when
the name is missing. `GetConfig` therefore requires `ThemeKnown`: the name
either turns theming off or is a loaded theme.

The `Config` record follows the source struct, which has no light/dark field.
The light/dark decision is the function `ResolvedIsLight`.
`BackgroundsShareOneMode` shows that all four backgrounds are computed against
that one decision.

## Model

| member | source | states |
|---|---|---|
| `Ascii.LowerChar` | src/config.rs:42 | ASCII upper-case letters map to the matching lower-case letter. Every other character is unchanged. |
| `Ascii.ToLowercase` | src/config.rs:42 | Lower-casing keeps the length and lower-cases every character in place. |
| `Ascii.NoneSpellings` | src/config.rs:42 | A name lower-cases to "none" exactly when it has four characters that spell n, o, n, e in any mix of case. |
| `Config.ThemeName` | src/config.rs:32-41 | The name is the given theme option or one of the two default theme names. Which one is stated by `Config.ThemeNameChoice`. |
| `Config.IsNoneName` | src/config.rs:42 | Only a four-character name can turn theming off. The exact spellings are stated by `Ascii.NoneSpellings`. |
| `Config.ThemeKnown` | src/config.rs:45 | The lookup's precondition holds whenever the chosen name is loaded. It also holds whenever an explicit theme option turns theming off, whatever themes are loaded. |
| `Config.ActiveTheme` | src/config.rs:42-46 | There is no theme exactly when the name lower-cases to "none". Otherwise the name is loaded and the theme is its loaded entry. |
| `Config.IsLightTheme` | src/config.rs:47-51 | With no theme, the mode is light exactly when `dark` is not set. With a theme, it is light exactly when the name is among the light themes. |
| `Config.ResolvedIsLight` | src/config.rs:42-51 | When the chosen name turns theming off, the mode is `!dark`, and `light` plays no part. Otherwise the mode is light exactly when the name as written is among the light themes, whatever `dark` is. The lower-cased name is not what is checked. |
| `Config.ColorFromArg` | src/config.rs:122-136 | Given a colour that parses, the result is the parsed colour. Given no colour, or one that fails to parse, the result is the light default when light and the dark default when dark. It never fails. |
| `Config.OverrideWins` | src/config.rs:128 | A colour that parses makes the result independent of the light/dark mode and of both defaults: every choice of them gives the parsed value. |
| `Config.GetConfig` | src/config.rs:105-119 | The theme name is the chosen name. Syntax set, options, terminal width, width and the empty style pass through unchanged. The tab width is the option's. The buffered-line limit is 32. |
| `Config.ThemeNameChoice` | src/config.rs:32-41 | A given theme name is kept verbatim. Without one, the name is the default light theme's when `light` holds and the default dark theme's otherwise. |
| `Config.ActiveThemeIffNotNone` | src/config.rs:42-46 | There is no theme exactly when the name lower-cases to "none". Otherwise the name is loaded and the theme is the loaded entry for it. |
| `Config.NoneNamesDisableTheme` | src/config.rs:42-46 | "none", "None" and "NONE" each turn theming off, whatever themes are loaded. |
| `Config.OtherLengthsSelectTheme` | src/config.rs:42-46 | A loaded name whose length is not four always selects its loaded theme. |
| `Config.LightWithoutThemeIgnoresLightFlag` | src/config.rs:32-48 | When an explicit theme option turns theming off, changing `light` does not change the light/dark decision. |
| `Config.LightFromThemeIgnoresDark` | src/config.rs:47-51 | With a theme, flipping `dark` does not change the light/dark decision. |
| `Config.BackgroundsShareOneMode` | src/config.rs:53-103 | All four backgrounds are set. Each is resolved from its own category's option and its own light/dark default pair, and all four use the same light/dark decision. |
| `Config.ForegroundAndFontStyle` | src/config.rs:60-102 | The removed and removed-emphasised foregrounds are unset when `highlight_removed` holds and "no colour" otherwise. The added foregrounds are always unset. All four font styles are unset. |
| `Config.NamedDarkThemeWithOverride` | src/config.rs:32-59 | Take a loaded dark theme named "dracula", `dark` unset, and a removed-line colour that parses. The theme is the loaded one, the mode is dark, and the removed background is the parsed colour. |
| `Config.NoThemeDarkFallback` | src/config.rs:32-100 | Take theme "none", `dark` set, and no added-line colour. There is no theme, the mode is dark, and the added background is the dark default. |

## Left out

- `Ascii.ToLowercase` lower-cases only ASCII letters, while Rust's `to_lowercase` covers all of Unicode.
  The only non-ASCII characters whose lower-case forms contain ASCII letters are the Kelvin sign and the dotted capital I.
  Neither lower-cases to n, o or e, so the comparison against "none" comes out the same.
  Other uses of lower-casing are not modelled.
- The grammar of colour text (`Color::from_str`) belongs to the highlighting library. It is a parameter of the model.
- The concrete values in `src/style.rs` are not modelled: default theme names, the light-theme list, the eight default colours, the "no colour" value and `get_no_style()`. They are a `Palette` parameter.
- Loading the theme and syntax sets, and the contents of themes and syntax definitions, are not modelled. These are opaque handles.
- A theme name that is missing from the theme set panics in the source. The model excludes it with the `ThemeKnown` precondition rather than modelling the panic.
- Parsing of command-line arguments is not modelled. `Opt` holds only the fields the resolver reads.
- Terminal-width measurement is not modelled. The widths are inputs.
- The `usize` bound on the widths is not modelled. They are unbounded naturals that only pass through.
- Borrowed references and their lifetimes are not modelled. The configuration holds values and handles.
