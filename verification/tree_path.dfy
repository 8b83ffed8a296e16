/** The `--tree-path` / `--tree-path-scope` flag of `src/flags/tree_path.rs`:
    how paths are shown in tree view, and for which entries. */
module TreePathFlag {
  import O = Wrappers
  import Args
  import Configurable

  /** How a path is shown; `None` is the default. */
  datatype TreePathType = None | Absolute | Relative

  /** Which entries show it; `Root` is the default. */
  datatype TreePathScope = Root | All

  datatype TreePath = TreePath(kind: TreePathType, scope: TreePathScope)

  const DefaultType: TreePathType := TreePathType.None
  const DefaultScope: TreePathScope := TreePathScope.Root
  const Default: TreePath := TreePath(DefaultType, DefaultScope)

  /** The kebab-case name each value is spelt with, on the command line and in
      the configuration file. */
  function TypeName(t: TreePathType): string {
    match t
    case None => "none"
    case Absolute => "absolute"
    case Relative => "relative"
  }

  function ScopeName(s: TreePathScope): string {
    match s
    case Root => "root"
    case All => "all"
  }

  /** The strings `from_arg_str` accepts; any other reaches `unreachable!`. */
  predicate IsTypeArg(v: string) {
    v == "none" || v == "absolute" || v == "relative"
  }

  predicate IsScopeArg(v: string) {
    v == "root" || v == "all"
  }

  /** `TreePathType::from_arg_str`: the value whose name is `v`. */
  function TypeFromArgStr(v: string): (t: TreePathType)
    requires IsTypeArg(v)
    ensures TypeName(t) == v
  {
    if v == "none" then TreePathType.None
    else if v == "absolute" then Absolute
    else Relative
  }

  /** `TreePathScope::from_arg_str`: the scope whose name is `v`. */
  function ScopeFromArgStr(v: string): (s: TreePathScope)
    requires IsScopeArg(v)
    ensures ScopeName(s) == v
  {
    if v == "root" then Root else All
  }

  /** Every value's name parses back to it: the parsers and the names are inverse. */
  lemma ArgStrRoundTrip(t: TreePathType, s: TreePathScope)
    ensures IsTypeArg(TypeName(t)) && TypeFromArgStr(TypeName(t)) == t
    ensures IsScopeArg(ScopeName(s)) && ScopeFromArgStr(ScopeName(s)) == s
  {
  }

  /** The option's strings are all accepted by the parser. */
  predicate ValidArgs(kind: O.Option<string>, scope: O.Option<string>) {
    (kind.Some? ==> IsTypeArg(kind.value)) && (scope.Some? ==> IsScopeArg(scope.value))
  }

  /** The `match (kind, scope)` shared by `from_cli` and `from_config`: nothing
      when neither half is given, else both halves with a missing one defaulted. */
  function Resolve(kind: O.Option<string>, scope: O.Option<string>): (r: O.Option<TreePath>)
    requires ValidArgs(kind, scope)
    ensures r.None? <==> kind.None? && scope.None?
    ensures r.Some? && kind.Some? ==> TypeName(r.value.kind) == kind.value
    ensures r.Some? && kind.None? ==> r.value.kind == DefaultType
    ensures r.Some? && scope.Some? ==> ScopeName(r.value.scope) == scope.value
    ensures r.Some? && scope.None? ==> r.value.scope == DefaultScope
  {
    var k := if kind.Some? then O.Some(TypeFromArgStr(kind.value)) else O.None;
    var s := if scope.Some? then O.Some(ScopeFromArgStr(scope.value)) else O.None;
    if k.None? && s.None? then O.None
    else O.Some(TreePath(k.UnwrapOr(DefaultType), s.UnwrapOr(DefaultScope)))
  }

  /** `TreePath::from_cli`. */
  function FromCli(cli: Args.Cli): (r: O.Option<TreePath>)
    requires ValidArgs(cli.treePath, cli.treePathScope)
    ensures r.None? <==> cli.treePath.None? && cli.treePathScope.None?
    ensures r.Some? ==>
              (if cli.treePath.Some? then TypeName(r.value.kind) == cli.treePath.value
               else r.value.kind == DefaultType)
              && (if cli.treePathScope.Some? then ScopeName(r.value.scope) == cli.treePathScope.value
                  else r.value.scope == DefaultScope)
  {
    Resolve(cli.treePath, cli.treePathScope)
  }

  /** `TreePath::from_config`; the configuration's strings go through the same
      parsers, so a value outside them is refused the same way. */
  function FromConfig(config: Args.Config): (r: O.Option<TreePath>)
    requires ValidArgs(config.treePath, config.treePathScope)
    ensures r.None? <==> config.treePath.None? && config.treePathScope.None?
    ensures r.Some? ==>
              (if config.treePath.Some? then TypeName(r.value.kind) == config.treePath.value
               else r.value.kind == DefaultType)
              && (if config.treePathScope.Some? then ScopeName(r.value.scope) == config.treePathScope.value
                  else r.value.scope == DefaultScope)
  {
    Resolve(config.treePath, config.treePathScope)
  }

  /** The flag's resolved value: command line, else configuration, else default. */
  function Configured(cli: Args.Cli, config: Args.Config): TreePath
    requires ValidArgs(cli.treePath, cli.treePathScope)
    requires ValidArgs(config.treePath, config.treePathScope)
  {
    Configurable.ConfigureFrom(FromCli(cli), FromConfig(config), Default)
  }

  /** The command line overrides the configuration as a whole: once either CLI
      half is given, the configuration is not consulted even for the other half,
      which takes its default. */
  lemma CliOverridesConfig(cli: Args.Cli, config: Args.Config)
    requires ValidArgs(cli.treePath, cli.treePathScope)
    requires ValidArgs(config.treePath, config.treePathScope)
    requires cli.treePath.Some? || cli.treePathScope.Some?
    ensures Configured(cli, config) == FromCli(cli).value
    ensures cli.treePath.None? ==> Configured(cli, config).kind == DefaultType
    ensures cli.treePathScope.None? ==> Configured(cli, config).scope == DefaultScope
  {
  }

  /** With nothing on the command line, the configuration decides, each missing
      half defaulted; with nothing anywhere the flag is (None, Root). */
  lemma ConfigWhenCliSilent(cli: Args.Cli, config: Args.Config)
    requires cli.treePath.None? && cli.treePathScope.None?
    requires ValidArgs(config.treePath, config.treePathScope)
    ensures config.treePath.None? && config.treePathScope.None? ==>
              Configured(cli, config) == TreePath(TreePathType.None, Root)
    ensures config.treePath.Some? ==> TypeName(Configured(cli, config).kind) == config.treePath.value
    ensures config.treePath.None? ==> Configured(cli, config).kind == TreePathType.None
    ensures config.treePathScope.Some? ==> ScopeName(Configured(cli, config).scope) == config.treePathScope.value
    ensures config.treePathScope.None? ==> Configured(cli, config).scope == Root
  {
  }

  /** The scenarios the module's own tests state, one ensures per test. */
  lemma StatedScenarios()
    // no CLI arguments, no configuration
    ensures Configured(Args.Cli(O.None, O.None, false), Args.Config(O.None, O.None, O.None))
              == TreePath(TreePathType.None, Root)
    // configuration gives only the kind
    ensures Configured(Args.Cli(O.None, O.None, false), Args.Config(O.Some("absolute"), O.None, O.None))
              == TreePath(Absolute, Root)
    // configuration gives both
    ensures Configured(Args.Cli(O.None, O.None, false), Args.Config(O.Some("relative"), O.Some("all"), O.None))
              == TreePath(Relative, All)
    // command line gives both and overrides the configuration
    ensures Configured(Args.Cli(O.Some("absolute"), O.Some("all"), false),
                       Args.Config(O.Some("relative"), O.Some("root"), O.None))
              == TreePath(Absolute, All)
    // only the scope on the command line: the configuration's kind is not used
    ensures Configured(Args.Cli(O.None, O.Some("all"), false), Args.Config(O.Some("absolute"), O.None, O.None))
              == TreePath(TreePathType.None, All)
  {
  }
}
