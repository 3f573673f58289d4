/**
 * Workspace paths. The three toolboxes and the verifiers all turn a tool's
 * `path` argument into a file name the same way: an absolute path is kept,
 * a relative one is placed under the workspace directory.
 */
module Paths {
  import opened Strings

  /** The files a run can see: absolute file name to text content. */
  type Files = map<string, string>

  /**
   * Directories are not stored: a directory exists exactly when some file
   * lies beneath it (empty directories are not represented).
   */
  predicate IsDirIn(fs: Files, p: string) {
    exists k :: k in fs && StartsWith(k, p + "/")
  }

  /** `Path(p).exists()`: a file, or a directory holding some file. */
  predicate ExistsIn(fs: Files, p: string) {
    p in fs || IsDirIn(fs, p)
  }

  /** `Path(p).is_absolute()` on POSIX: the path starts with a slash. */
  predicate IsAbsolute(p: string) {
    |p| > 0 && p[0] == '/'
  }

  /**
   * `str(p if Path(p).is_absolute() else workspace / p)`. An empty `p` is
   * `Path(".")`, which pathlib drops when joining.
   */
  function Resolve(workspace: string, p: string): (r: string)
    ensures IsAbsolute(p) ==> r == p
    ensures !IsAbsolute(p) ==> StartsWith(r, workspace)
    ensures !IsAbsolute(p) && p != [] ==> EndsWith(r, "/" + p) && |r| == |workspace| + 1 + |p|
  {
    if IsAbsolute(p) then p
    else if p == [] then workspace
    else workspace + "/" + p
  }

  /** With an absolute workspace, every resolved path is absolute, and resolving again changes nothing. */
  lemma {:induction false} ResolveAbsolute(workspace: string, p: string)
    requires IsAbsolute(workspace)
    ensures IsAbsolute(Resolve(workspace, p))
    ensures Resolve(workspace, Resolve(workspace, p)) == Resolve(workspace, p)
  {
    var r := Resolve(workspace, p);
    if !IsAbsolute(p) {
      assert r[0] == workspace[0];
    }
  }

  /** Two relative, non-empty paths resolve to the same file exactly when they are the same path. */
  lemma {:induction false} ResolveInjective(workspace: string, p: string, q: string)
    requires !IsAbsolute(p) && !IsAbsolute(q) && p != [] && q != []
    ensures Resolve(workspace, p) == Resolve(workspace, q) <==> p == q
  {
    if Resolve(workspace, p) == Resolve(workspace, q) {
      var w := workspace + "/";
      assert Resolve(workspace, p) == w + p;
      assert Resolve(workspace, q) == w + q;
      assert p == (w + p)[|w|..];
      assert q == (w + q)[|w|..];
    }
  }
}
