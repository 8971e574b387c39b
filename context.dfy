/**
 * `_current_file` / `_current_project`: the keys under which time is booked,
 * derived from the path of the open document (`bpy.data.filepath`, or "" when the
 * document was never saved or the path cannot be read).
 */
module Context {
  /** The key used when no saved document is open. */
  const Unsaved: string := "(Unsaved)"

  /**
   * The path functions the add-on borrows from `os.path`, left uninterpreted:
   * `canonical` is `normpath(abspath(p))` and `dirname` is `dirname(p)`.
   */
  datatype PathFns = PathFns(canonical: string -> string, dirname: string -> string)

  /** `_normalize_path(p)`: the canonical absolute path, or "" for "". */
  function NormalizePath(p: string, fns: PathFns): (r: string)
    ensures p == "" ==> r == ""
    ensures p != "" ==> r == fns.canonical(p)
  {
    if p != "" then fns.canonical(p) else ""
  }

  /** `_current_file()`: the normalised document path, or the sentinel. */
  function FileKey(path: string, fns: PathFns): (r: string)
    ensures path == "" ==> r == Unsaved
    ensures path != "" ==> r == fns.canonical(path)
  {
    if path == "" then Unsaved else NormalizePath(path, fns)
  }

  /**
   * `_current_project()`: the normalised folder of the document; the sentinel when
   * there is no document or its folder normalises to "".
   */
  function ProjectKey(path: string, fns: PathFns): (r: string)
    ensures r != ""
    ensures path == "" || fns.dirname(path) == "" ==> r == Unsaved
    ensures path != "" && fns.dirname(path) != "" && fns.canonical(fns.dirname(path)) != ""
      ==> r == fns.canonical(fns.dirname(path))
  {
    if path == "" then Unsaved
    else
      var folder := NormalizePath(fns.dirname(path), fns);
      if folder != "" then folder else Unsaved
  }

  /**
   * Two document paths that normalise to the same path are booked under the same
   * file key, and two whose folders normalise alike under the same project key.
   */
  lemma {:induction false} SameLocationSameKeys(p: string, q: string, fns: PathFns)
    requires p != "" && q != ""
    ensures fns.canonical(p) == fns.canonical(q) ==> FileKey(p, fns) == FileKey(q, fns)
    ensures NormalizePath(fns.dirname(p), fns) == NormalizePath(fns.dirname(q), fns)
      ==> ProjectKey(p, fns) == ProjectKey(q, fns)
  {
  }
}
