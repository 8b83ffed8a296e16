# lsd ignore filtering, modelled in Dafny

This project models the part of `lsd` (a directory lister) that decides whether
an entry is hidden because of `.gitignore` rules, and the two small flags that
configure tree paths and gitignore handling.

- **Ignore context** (`gitignore.dfy`, module `Gitignore`). A `GitignoreCtx`
  holds an optional repository root, that repository's compiled
  `info/exclude` matcher, and the per-directory layers found so far, shallowest
  first. `WithDir` derives the context for a subdirectory. It appends one layer
  exactly when that directory's `.gitignore` exists and builds, and otherwise
  returns the context unchanged. `IsIgnored` is the query loop: the repository
  exclude first, then the layers from deepest to shallowest, returning true on
  the first Ignore verdict. `BuildGitignoreContext` is the bootstrap. Contexts
  are immutable values, so "with_dir never changes the receiver" holds by
  construction.
- **Paths** (`paths.dfy`). Paths are sequences of components. `StripPrefix` is
  the component-wise `Path::strip_prefix`, and `Relativise` is
  `strip_prefix(root).unwrap_or(path)`.
- **Flags** (`tree_path.dfy`, `gitignore_flag.dfy`, `args.dfy`). These are the
  string parsers of `TreePathType` and `TreePathScope`, and `from_cli` /
  `from_config` for `TreePath` and `GitIgnore`. `Configurable.ConfigureFrom` is
  the CLI-else-config-else-default precedence that the flags are resolved with.
  Its driver is not part of this model. It is written as stated at
  src/flags/tree_path.rs:1-2 and :94-95.

The compiled matcher of the `ignore` crate is opaque. A `Matcher` carries only
its verdict function (`Ignore`, `Whitelist` or `NoMatch`; the crate calls the
last one `Match::None`). That function stands for
`matched_path_or_any_parents`. Filesystem and repository-discovery outcomes are
inputs:
- `GitignoreFile` says whether `<dir>/.gitignore` is absent, or present with the
  outcome of `build()`.
- `Repository` is what discovery found.
- `gitEnabled` is true exactly when the `no-git` build feature is off
  (`#[cfg(not(feature = "no-git"))]` at src/gitignore.rs:49).

The error that `b.add(&gi_path)` returns (src/gitignore.rs:19) is discarded.
So an unreadable or partly malformed `.gitignore` still contributes a layer
whenever `build()` succeeds. The model's only input is the outcome of `build()`.

## Model

| member | source | states |
|---|---|---|
| `Paths.StripPrefix` | src/gitignore.rs:29 | succeeds exactly when the root is a component prefix of the path, and the root followed by the result is the path |
| `Paths.Relativise` | src/gitignore.rs:36 | a path under the root is given as its suffix after the root (root + suffix = path); any other path is given unchanged |
| `Paths.RelativiseEdges` | src/gitignore.rs:36 | relativising against the empty root leaves the path unchanged; relativising a directory against itself gives the empty path |
| `Gitignore.WithDir` | src/gitignore.rs:14-25 | keeps the repository root and exclude; the old layers are a prefix of the new ones; at most one layer is added, exactly when the `.gitignore` exists and built, and it is (dir, that matcher) at the end |
| `Gitignore.BuildGitignoreContext` | src/gitignore.rs:46-64 | no layers; root and exclude are set together, exactly when git is enabled, a repository with a working directory was found and its exclude built, and then they are that workdir and matcher |
| `Gitignore.IsIgnored` | src/gitignore.rs:27-43 | the loop over the exclude and then the reversed layers returns true exactly when the exclude or some layer gives Ignore on the relativised path |
| `Gitignore.WithDirIgnored` | src/gitignore.rs:14-43 | after `WithDir` a path is ignored iff it was ignored before or the newly added matcher ignores it relative to the new directory |
| `Gitignore.WithDirMonotone` | src/gitignore.rs:21 | a path ignored in a context stays ignored after descending into any directory |
| `Gitignore.WithDirNoFile` | src/gitignore.rs:16-24 | an absent `.gitignore` or a failed build leaves the layers, and so every verdict, unchanged |
| `Gitignore.WithDirKeepsPairing` | src/gitignore.rs:14-15 | extending a context keeps the repository root and exclude both set or both absent |
| `Gitignore.WithDirKeepsNesting` | src/gitignore.rs:14-24 | descending into a subdirectory of the deepest layer's directory keeps every layer's directory an ancestor of the later layers' directories |
| `Gitignore.RepoExcludeWins` | src/gitignore.rs:28-34 | when root and exclude are set and the exclude ignores the relativised path, the path is ignored whatever the layers are |
| `Gitignore.NoRepoLayersDecide` | src/gitignore.rs:35-42 | without a repository exclude, a path is ignored iff some layer ignores it |
| `Gitignore.IgnoringLayerDecides` | src/gitignore.rs:35-40 | one layer that ignores the path is enough, whatever the layers before and after it say (a Whitelist never vetoes) |
| `Gitignore.DeeperIgnoreBeatsShallowerWhitelist` | src/gitignore.rs:35-40 | a deeper layer's Ignore wins over a shallower ancestor layer's Whitelist for a path under both |
| `Gitignore.LayerOrderIrrelevant` | src/gitignore.rs:35-42 | any rearrangement of the same layers gives the same answer |
| `Gitignore.ShallowestFirstScan` | src/gitignore.rs:35-42 | a first-match scan from the shallowest layer answers true exactly when some layer ignores the path, the same answer as the deepest-first loop of `IsIgnored` |
| `Gitignore.FreshContext` | src/gitignore.rs:46-64 | a fresh context ignores a path iff the repository exclude does; with git disabled or no repository found, it ignores no path |
| `TreePathFlag.TypeFromArgStr` | src/flags/tree_path.rs:20-27 | defined for "none", "absolute" and "relative" only, and returns the value of that kebab-case name |
| `TreePathFlag.ScopeFromArgStr` | src/flags/tree_path.rs:39-45 | defined for "root" and "all" only, and returns the scope of that name |
| `TreePathFlag.ArgStrRoundTrip` | src/flags/tree_path.rs:10-36 | every type and scope's kebab-case name is accepted and parses back to that value |
| `TreePathFlag.Resolve` | src/flags/tree_path.rs:61-67 | no value iff both halves are absent; otherwise each given half is the parsed string and a missing kind is None, a missing scope Root |
| `TreePathFlag.FromCli` | src/flags/tree_path.rs:55-68 | no value iff neither CLI option is given; otherwise the parsed options, missing kind None, missing scope Root |
| `TreePathFlag.FromConfig` | src/flags/tree_path.rs:70-84 | the same shape as the CLI reading, over the configuration's two fields |
| `Configurable.ConfigureFrom` | src/flags/tree_path.rs:94-95 | the CLI value if any, else the configuration value if any, else the default |
| `TreePathFlag.CliOverridesConfig` | src/flags/tree_path.rs:153-163 | once either CLI option is given the CLI result is used as a whole; a half missing on the CLI takes its default, not the configuration's value |
| `TreePathFlag.ConfigWhenCliSilent` | src/flags/tree_path.rs:100-132 | with nothing on the CLI, each configured half is used and each missing half defaults; nothing anywhere gives (None, Root) |
| `TreePathFlag.StatedScenarios` | src/flags/tree_path.rs:100-163 | the five scenarios of the module's tests give the stated (kind, scope) |
| `GitIgnoreFlag.FromCli` | src/flags/gitignore.rs:10-12 | always a value, holding exactly the `--gitignore` switch |
| `GitIgnoreFlag.FromConfig` | src/flags/gitignore.rs:14-16 | no value iff the configuration has none; otherwise a flag holding the configured boolean |
| `GitIgnoreFlag.ConfigNeverConsulted` | src/flags/gitignore.rs:9-17 | as written, the resolved flag is exactly the CLI switch for every configuration |
| `GitIgnoreFlag.ConfigTrueIsLost` | src/flags/gitignore.rs:10-12 | `gitignore: true` in the configuration without `--gitignore` resolves to off |
| `GitIgnoreFlag.FromCliIntended` | src/flags/gitignore.rs:10-12 | a value only when the switch is given, and then it is on |
| `GitIgnoreFlag.IntendedHonoursConfig` | src/flags/gitignore.rs:9-17 | with that reading the switch turns the flag on; without it the configured value, else off, is used |

The defaults are the constants `TreePathFlag.Default`, which is (None, Root),
and `GitIgnoreFlag.Default`, which is off. They come from src/flags/tree_path.rs:13-14
and :33-34 and src/flags/gitignore.rs:6-7. They are used in the lemmas above.

## Findings

| source | as written | input that shows it | evidently intended | confidence | as-written member | corrected member |
|---|---|---|---|---|---|---|
| src/flags/gitignore.rs:10-12 | `from_cli` always returns `Some(GitIgnore(cli.gitignore))`. With CLI-first precedence, the configuration's `gitignore` (read at :14-16) can never take effect | no `--gitignore` on the command line and `gitignore: true` in the configuration resolve to off | return a value only when the switch is given, so the configuration decides otherwise | medium, not executed; depends on the precedence driver, which is not part of this model, trying the CLI first | `GitIgnoreFlag.ConfigTrueIsLost` | `GitIgnoreFlag.IntendedHonoursConfig` |

## Left out

- The glob semantics of the `ignore` crate (`GitignoreBuilder`, `matched_path_or_any_parents`, `is_ignore`) are not modelled: a matcher is an opaque verdict function. That includes the crate's own root stripping, and its handling of a path that the fallback leaves un-relativised (an absolute path not under the matcher's root).
- Filesystem effects are inputs to `WithDir`: the existence check, the read inside `b.add`, and the outcome of `build()`. The error `b.add` returns is discarded by the source and is not represented.
- `git2` discovery, `workdir()`, `repo.path()` and the `info/exclude` location are not modelled. Nor is the start path: the discovery outcome is an input to `BuildGitignoreContext`, and the `no-git` feature gate is its `gitEnabled` parameter.
- OS path representation is reduced to component sequences: `PathBuf`, `Path::join`, string encoding, and the normalisation of `.` and trailing separators.
- Parsing is not modelled: clap's argument parsing, serde/YAML configuration loading, and the rest of `Cli` and `Config`. Only the fields the flags read are kept (`args.dfy`).
- `TreePathFlag.TypeFromArgStr` and `TreePathFlag.ScopeFromArgStr` take the accepted strings as a precondition, where the source panics through `unreachable!` (src/flags/tree_path.rs:25, :43). The same precondition sits on `TreePathFlag.FromConfig`. Whether the configuration loader rejects other strings before they get here is not part of this model.
- Nothing limits a directory to one layer: calling `WithDir` twice for the same directory appends two layers, as the source does.
