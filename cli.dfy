/** The parsed command-line options, reduced to the fields the resolver reads. */
module Cli {
  import opened Wrappers

  datatype Opt = Opt(
    theme: Option<string>,
    light: bool,
    dark: bool,
    minusColor: Option<string>,
    minusEmphColor: Option<string>,
    plusColor: Option<string>,
    plusEmphColor: Option<string>,
    highlightRemoved: bool,
    tabWidth: nat)
}
