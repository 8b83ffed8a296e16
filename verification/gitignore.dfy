/** The hierarchical ignore context of `src/gitignore.rs`: the rules visible at
    one point of a top-down directory walk, how descending into a directory
    extends them, and the query that decides whether a path is ignored.

    The compiled `.gitignore` matcher of the `ignore` crate is opaque here: a
    `Matcher` only carries its verdict function. Whether a `.gitignore` exists
    and whether it compiled, and what repository discovery found, are inputs. */
module Gitignore {
  import opened Wrappers
  import opened Paths

  /** What a matcher says of a path: ignored, explicitly re-included by a
      negated pattern, or not matched (the crate's `Match::None`). */
  datatype Verdict = Ignore | Whitelist | NoMatch

  /** A compiled ignore file. Its verdict stands for
      `matched_path_or_any_parents(rel, is_dir)`. */
  datatype Matcher = Matcher(verdict: (Path, bool) -> Verdict)

  /** The verdict of `m` on the (already relativised) path `rel`. */
  function Test(m: Matcher, rel: Path, isDir: bool): Verdict {
    m.verdict(rel, isDir)
  }

  /** One directory's own `.gitignore`, rooted at that directory. */
  datatype Layer = Layer(dir: Path, matcher: Matcher)

  /** `GitignoreCtx`: the optional repository root and its compiled
      `info/exclude`, and the per-directory layers, shallowest first. */
  datatype GitignoreCtx = GitignoreCtx(
    repoRoot: Option<Path>,
    repoExclude: Option<Matcher>,
    dirIgnores: seq<Layer>)

  /** The state of `<dir>/.gitignore` when the walk enters `dir`: absent, or
      present with the outcome of `GitignoreBuilder::build` (`None` on error). */
  datatype GitignoreFile = Absent | Present(built: Option<Matcher>)

  /** What `git2::Repository::discover` found: the working directory, if the
      repository has one, and the outcome of compiling its `info/exclude`. */
  datatype Repository = Repository(workdir: Option<Path>, excludeBuilt: Option<Matcher>)

  /** The repository root and its exclude matcher are set together or not at all. */
  predicate RepoPaired(ctx: GitignoreCtx) {
    ctx.repoRoot.Some? == ctx.repoExclude.Some?
  }

  /** Each layer's directory is an ancestor of (or equal to) the next layer's,
      as it is when the walk extends the context once per level of descent. */
  predicate LayersNested(layers: seq<Layer>) {
    forall i, j :: 0 <= i < j < |layers| ==> IsUnder(layers[j].dir, layers[i].dir)
  }

  // ---------------------------------------------------------------------------
  // Construction

  /** `with_dir`: the context for the directory `dir` one level further down.
      A new layer is appended exactly when the `.gitignore` exists and built. */
  function WithDir(ctx: GitignoreCtx, dir: Path, file: GitignoreFile): (next: GitignoreCtx)
    ensures next.repoRoot == ctx.repoRoot && next.repoExclude == ctx.repoExclude
    ensures ctx.dirIgnores <= next.dirIgnores
    ensures |next.dirIgnores| <= |ctx.dirIgnores| + 1
    ensures |next.dirIgnores| == |ctx.dirIgnores| + 1 <==> file.Present? && file.built.Some?
    ensures |next.dirIgnores| == |ctx.dirIgnores| + 1 ==>
              next.dirIgnores[|ctx.dirIgnores|] == Layer(dir, file.built.value)
  {
    match file
    case Present(Some(ig)) => ctx.(dirIgnores := ctx.dirIgnores + [Layer(dir, ig)])
    case _ => ctx
  }

  /** `build_gitignore_context`: no layers; the repository root and exclude are
      set only when discovery is compiled in (`gitEnabled`), found a repository
      with a working directory, and its exclude file built. */
  function BuildGitignoreContext(gitEnabled: bool, discovered: Option<Repository>): (ctx: GitignoreCtx)
    ensures ctx.dirIgnores == []
    ensures RepoPaired(ctx)
    ensures ctx.repoRoot.Some? <==>
              gitEnabled && discovered.Some? && discovered.value.workdir.Some?
              && discovered.value.excludeBuilt.Some?
    ensures ctx.repoRoot.Some? ==>
              ctx.repoRoot.value == discovered.value.workdir.value
              && ctx.repoExclude.value == discovered.value.excludeBuilt.value
  {
    var empty := GitignoreCtx(None, None, []);
    if !gitEnabled then empty
    else match discovered
      case Some(Repository(Some(workdir), Some(ig))) =>
        empty.(repoRoot := Some(workdir), repoExclude := Some(ig))
      case _ => empty
  }

  // ---------------------------------------------------------------------------
  // Query

  /** The repository exclude, tested on the path relativised to the root, ignores it. */
  predicate ExcludeIgnores(ctx: GitignoreCtx, path: Path, isDir: bool) {
    ctx.repoRoot.Some? && ctx.repoExclude.Some?
    && Test(ctx.repoExclude.value, Relativise(path, ctx.repoRoot.value), isDir) == Ignore
  }

  /** The layer, tested on the path relativised to its directory, ignores it. */
  predicate LayerIgnores(layer: Layer, path: Path, isDir: bool) {
    Test(layer.matcher, Relativise(path, layer.dir), isDir) == Ignore
  }

  /** Some layer of `layers` ignores the path. */
  predicate AnyLayerIgnores(layers: seq<Layer>, path: Path, isDir: bool) {
    exists i :: 0 <= i < |layers| && LayerIgnores(layers[i], path, isDir)
  }

  /** The meaning of `is_ignored`: some rule source says Ignore. A Whitelist
      verdict from one source never cancels an Ignore from another. */
  predicate Ignored(ctx: GitignoreCtx, path: Path, isDir: bool) {
    ExcludeIgnores(ctx, path, isDir) || AnyLayerIgnores(ctx.dirIgnores, path, isDir)
  }

  /** `is_ignored`: the repository exclude first, then the layers from the
      deepest to the shallowest, stopping at the first Ignore verdict. */
  method IsIgnored(ctx: GitignoreCtx, path: Path, isDir: bool) returns (ignored: bool)
    ensures ignored == Ignored(ctx, path, isDir)
  {
    if ctx.repoRoot.Some? && ctx.repoExclude.Some? {
      var rel := Relativise(path, ctx.repoRoot.value);
      if Test(ctx.repoExclude.value, rel, isDir) == Ignore {
        return true;
      }
    }
    var layers := ctx.dirIgnores;
    var i := |layers|;
    while i > 0
      invariant 0 <= i <= |layers|
      invariant !ExcludeIgnores(ctx, path, isDir)
      invariant forall j :: i <= j < |layers| ==> !LayerIgnores(layers[j], path, isDir)
    {
      i := i - 1;
      var rel := Relativise(path, layers[i].dir);
      if Test(layers[i].matcher, rel, isDir) == Ignore {
        return true;
      }
    }
    return false;
  }

  // ---------------------------------------------------------------------------
  // Properties

  /** A new layer adds its own verdict to the query and takes nothing away. */
  lemma WithDirIgnored(ctx: GitignoreCtx, dir: Path, file: GitignoreFile, path: Path, isDir: bool)
    ensures Ignored(WithDir(ctx, dir, file), path, isDir) <==>
              Ignored(ctx, path, isDir)
              || (file.Present? && file.built.Some?
                  && Test(file.built.value, Relativise(path, dir), isDir) == Ignore)
  {
  }

  /** Monotonicity: a path ignored in a context stays ignored in every context
      derived from it by descending into a directory. */
  lemma WithDirMonotone(ctx: GitignoreCtx, dir: Path, file: GitignoreFile, path: Path, isDir: bool)
    requires Ignored(ctx, path, isDir)
    ensures Ignored(WithDir(ctx, dir, file), path, isDir)
  {
  }

  /** A missing or broken `.gitignore` leaves every verdict as it was. */
  lemma WithDirNoFile(ctx: GitignoreCtx, dir: Path, file: GitignoreFile, path: Path, isDir: bool)
    requires !(file.Present? && file.built.Some?)
    ensures WithDir(ctx, dir, file).dirIgnores == ctx.dirIgnores
    ensures Ignored(WithDir(ctx, dir, file), path, isDir) == Ignored(ctx, path, isDir)
  {
  }

  /** Repository-exclude precedence: an Ignore from the exclude file decides,
      whatever any directory layer says of the path. */
  lemma RepoExcludeWins(ctx: GitignoreCtx, path: Path, isDir: bool)
    requires ctx.repoRoot.Some? && ctx.repoExclude.Some?
    requires Test(ctx.repoExclude.value, Relativise(path, ctx.repoRoot.value), isDir) == Ignore
    ensures forall layers: seq<Layer> :: Ignored(ctx.(dirIgnores := layers), path, isDir)
  {
  }

  /** Without a repository exclude, the query is decided by the layers alone. */
  lemma NoRepoLayersDecide(ctx: GitignoreCtx, path: Path, isDir: bool)
    requires ctx.repoExclude.None?
    ensures Ignored(ctx, path, isDir) <==>
              exists i :: 0 <= i < |ctx.dirIgnores| && LayerIgnores(ctx.dirIgnores[i], path, isDir)
  {
  }

  /** Whitelist verdicts never veto: one layer saying Ignore is enough, whatever
      the layers before and after it say. */
  lemma {:induction false} IgnoringLayerDecides(ctx: GitignoreCtx, before: seq<Layer>, layer: Layer, after: seq<Layer>, path: Path, isDir: bool)
    requires LayerIgnores(layer, path, isDir)
    ensures Ignored(ctx.(dirIgnores := before + [layer] + after), path, isDir)
  {
    var layers := before + [layer] + after;
    assert layers[|before|] == layer;
  }

  /** The order of the layers does not change the answer: any rearrangement of
      the same layers gives the same verdict, so scanning deepest-first (as
      `is_ignored` does) or shallowest-first is the same. */
  lemma {:induction false} LayerOrderIrrelevant(a: seq<Layer>, b: seq<Layer>, path: Path, isDir: bool)
    requires multiset(a) == multiset(b)
    ensures AnyLayerIgnores(a, path, isDir) == AnyLayerIgnores(b, path, isDir)
  {
    forall x, y: seq<Layer> | multiset(x) == multiset(y) && AnyLayerIgnores(x, path, isDir)
      ensures AnyLayerIgnores(y, path, isDir)
    {
      var i :| 0 <= i < |x| && LayerIgnores(x[i], path, isDir);
      assert x[i] in multiset(y);
      var j :| 0 <= j < |y| && y[j] == x[i];
    }
  }

  /** The layers scanned shallowest-first, stopping at the first that ignores
      the path: the opposite order to `is_ignored`'s, with the same answer. */
  function ShallowestFirstScan(layers: seq<Layer>, path: Path, isDir: bool): (ignored: bool)
    ensures ignored == AnyLayerIgnores(layers, path, isDir)
  {
    if layers == [] then false
    else if Test(layers[0].matcher, Relativise(path, layers[0].dir), isDir) == Ignore then true
    else
      var rest := ShallowestFirstScan(layers[1..], path, isDir);
      assert forall k :: 1 <= k < |layers| ==> layers[k] == layers[1..][k - 1];
      rest
  }

  /** A fresh context ignores nothing unless the repository exclude does; with
      no repository it ignores no path at all. */
  lemma FreshContext(gitEnabled: bool, discovered: Option<Repository>, path: Path, isDir: bool)
    ensures Ignored(BuildGitignoreContext(gitEnabled, discovered), path, isDir) ==
              ExcludeIgnores(BuildGitignoreContext(gitEnabled, discovered), path, isDir)
    ensures (!gitEnabled || discovered.None?) ==>
              !Ignored(BuildGitignoreContext(gitEnabled, discovered), path, isDir)
  {
  }

  /** Extending a context keeps the repository root and exclude paired. */
  lemma WithDirKeepsPairing(ctx: GitignoreCtx, dir: Path, file: GitignoreFile)
    requires RepoPaired(ctx)
    ensures RepoPaired(WithDir(ctx, dir, file))
  {
  }

  /** Descending into a subdirectory of the deepest layer's directory keeps the
      layers ordered from ancestor to descendant. */
  lemma WithDirKeepsNesting(ctx: GitignoreCtx, dir: Path, file: GitignoreFile)
    requires LayersNested(ctx.dirIgnores)
    requires |ctx.dirIgnores| > 0 ==> IsUnder(dir, ctx.dirIgnores[|ctx.dirIgnores| - 1].dir)
    ensures LayersNested(WithDir(ctx, dir, file).dirIgnores)
  {
  }

  /** Deepest-first precedence among layers: when a deeper layer ignores the
      path, a shallower layer's Whitelist verdict does not re-include it. The
      two nesting hypotheses only set the scene (a path under both layers'
      directories); the conclusion follows from `IgnoringLayerDecides` alone. */
  lemma DeeperIgnoreBeatsShallowerWhitelist(ctx: GitignoreCtx, shallow: Layer, deep: Layer, path: Path, isDir: bool)
    requires IsUnder(deep.dir, shallow.dir) && IsUnder(path, deep.dir)
    requires Test(shallow.matcher, Relativise(path, shallow.dir), isDir) == Whitelist
    requires Test(deep.matcher, Relativise(path, deep.dir), isDir) == Ignore
    ensures Ignored(ctx.(dirIgnores := [shallow, deep]), path, isDir)
  {
    IgnoringLayerDecides(ctx, [shallow], deep, [], path, isDir);
    assert [shallow] + [deep] + [] == [shallow, deep];
  }
}
