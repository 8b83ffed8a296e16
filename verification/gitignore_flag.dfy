/** The `--gitignore` flag of `src/flags/gitignore.rs`: whether listings honour
    `.gitignore` files. */
module GitIgnoreFlag {
  import O = Wrappers
  import Args
  import Configurable

  datatype GitIgnore = GitIgnore(enabled: bool)

  /** The derived default: off. */
  const Default: GitIgnore := GitIgnore(false)

  /** `GitIgnore::from_cli` as written: always a value, the switch's state. */
  function FromCli(cli: Args.Cli): (r: O.Option<GitIgnore>)
    ensures r.Some?
    ensures r.value.enabled == cli.gitignore
  {
    O.Some(GitIgnore(cli.gitignore))
  }

  /** `GitIgnore::from_config`: the configuration's value, if it has one. */
  function FromConfig(config: Args.Config): (r: O.Option<GitIgnore>)
    ensures r.None? <==> config.gitignore.None?
    ensures r.Some? ==> r.value.enabled == config.gitignore.value
  {
    match config.gitignore
    case Some(b) => O.Some(GitIgnore(b))
    case None => O.None
  }

  /** As written, the configuration is never consulted: the command line always
      answers, so the flag is exactly the `--gitignore` switch. */
  lemma ConfigNeverConsulted(cli: Args.Cli, config: Args.Config)
    ensures Configurable.ConfigureFrom(FromCli(cli), FromConfig(config), Default) == GitIgnore(cli.gitignore)
  {
  }

  /** The input that shows it: `gitignore: true` in the configuration and no
      `--gitignore` on the command line leaves the flag off. */
  lemma ConfigTrueIsLost()
    ensures Configurable.ConfigureFrom(
              FromCli(Args.Cli(O.None, O.None, false)),
              FromConfig(Args.Config(O.None, O.None, O.Some(true))),
              Default) == GitIgnore(false)
  {
  }

  /** The command-line reading of a switch used by the other boolean flags:
      a value only when the switch is given. */
  function FromCliIntended(cli: Args.Cli): (r: O.Option<GitIgnore>)
    ensures r.Some? <==> cli.gitignore
    ensures r.Some? ==> r.value.enabled
  {
    if cli.gitignore then O.Some(GitIgnore(true)) else O.None
  }

  /** The flag resolved with the intended command-line reading. */
  function ConfiguredIntended(cli: Args.Cli, config: Args.Config): GitIgnore {
    Configurable.ConfigureFrom(FromCliIntended(cli), FromConfig(config), Default)
  }

  /** With the intended reading the switch still turns the flag on, and without
      it the configuration's value (else the default, off) is used. */
  lemma IntendedHonoursConfig(cli: Args.Cli, config: Args.Config)
    ensures cli.gitignore ==> ConfiguredIntended(cli, config).enabled
    ensures !cli.gitignore && config.gitignore.Some? ==>
              ConfiguredIntended(cli, config).enabled == config.gitignore.value
    ensures !cli.gitignore && config.gitignore.None? ==> !ConfiguredIntended(cli, config).enabled
  {
  }
}
