/** The fields of the command line (`app::Cli`) and of the configuration file
    (`config_file::Config`) that the tree-path and gitignore flags read. The
    rest of both records is not part of this model. */
module Args {
  import opened Wrappers

  /** `--tree-path`, `--tree-path-scope` (strings clap has already restricted
      to their allowed values) and the `--gitignore` switch. */
  datatype Cli = Cli(treePath: Option<string>, treePathScope: Option<string>, gitignore: bool)

  /** `tree-path`, `tree-path-scope` and `gitignore` from the YAML configuration. */
  datatype Config = Config(treePath: Option<string>, treePathScope: Option<string>, gitignore: Option<bool>)
}

/** The precedence every flag is resolved with: the command line's value if it
    gives one, else the configuration file's, else the flag's default. */
module Configurable {
  import opened Wrappers

  function ConfigureFrom<T>(fromCli: Option<T>, fromConfig: Option<T>, default: T): (r: T)
    ensures fromCli.Some? ==> r == fromCli.value
    ensures fromCli.None? && fromConfig.Some? ==> r == fromConfig.value
    ensures fromCli.None? && fromConfig.None? ==> r == default
  {
    if fromCli.Some? then fromCli.value
    else fromConfig.UnwrapOr(default)
  }
}
