/** Filesystem paths as sequences of components, and Rust's component-wise
    `Path::strip_prefix`, which the ignore context uses to relativise a path
    against the directory a matcher is rooted at. */
module Paths {
  import opened Wrappers

  /** One path component (a directory or file name). */
  type Component = string

  /** A path, one component per element; `/repo/sub` is `["/", "repo", "sub"]`. */
  type Path = seq<Component>

  /** `base` names `path` itself or one of its ancestors. */
  predicate IsUnder(path: Path, base: Path) {
    base <= path
  }

  /** Remove the leading components `base` from `path`, walking both component
      by component; `None` when `base` is not a component prefix of `path`. */
  function StripPrefix(path: Path, base: Path): (r: Option<Path>)
    ensures r.Some? <==> IsUnder(path, base)
    ensures r.Some? ==> base + r.value == path
    decreases base
  {
    if base == [] then Some(path)
    else if path == [] || path[0] != base[0] then None
    else StripPrefix(path[1..], base[1..])
  }

  /** `path.strip_prefix(root).unwrap_or(path)`: the part of `path` below `root`,
      or `path` unchanged when it is not under `root`. */
  function Relativise(path: Path, root: Path): (rel: Path)
    ensures IsUnder(path, root) ==> root + rel == path
    ensures !IsUnder(path, root) ==> rel == path
  {
    StripPrefix(path, root).UnwrapOr(path)
  }

  /** Relativising against the empty root, or against the path itself. */
  lemma RelativiseEdges(path: Path)
    ensures Relativise(path, []) == path
    ensures Relativise(path, path) == []
  {
  }
}
