/**
 * The workspace-root search `get_root_dir` (`crates/configure/src/lib.rs`): walk up from
 * the current directory to the first directory holding `Cargo.lock`.
 */
module RootDir {
  import opened Results
  import opened ConfigErrors

  /**
   * An absolute path as its components below the filesystem root; `[]` is the root.
   */
  type Path = seq<string>

  /** `Path::parent`: the root has none. */
  function Parent(p: Path): (r: Option<Path>)
    ensures r.None? <==> p == []
    ensures r.Some? ==> |r.value| == |p| - 1 && IsAncestorOrSelf(r.value, p)
  {
    if |p| == 0 then None else Some(p[..|p| - 1])
  }

  /** `a` is `p` or a directory above it. */
  predicate IsAncestorOrSelf(a: Path, p: Path) {
    |a| <= |p| && p[..|a|] == a
  }

  /** The marker file looked for (the program's message nevertheless names `Cargo.toml`). */
  const LockFile: string := "Cargo.lock"

  const NotFoundMessage: string := "Cannot find Cargo.toml in any parent directory"

  /**
   * The loop of `get_root_dir` from `current` on. `hasLock(d)` answers whether
   * `d/Cargo.lock` exists. A directory is only checked while it has a parent, so the
   * filesystem root is never checked.
   */
  function Search(current: Path, hasLock: Path -> bool): (r: Result<Path, ConfigError>)
    ensures r.Ok? ==> IsAncestorOrSelf(r.value, current) && r.value != [] && hasLock(r.value)
    ensures r.Ok? ==> forall k :: |r.value| < k <= |current| ==> !hasLock(current[..k])
    ensures r.Err? ==> r.error == Message(NotFoundMessage)
    ensures r.Err? ==> forall k :: 0 < k <= |current| ==> !hasLock(current[..k])
    decreases |current|
  {
    match Parent(current)
    case None => Err(Message(NotFoundMessage))
    case Some(parent) =>
      if hasLock(current) then
        assert current[..|current|] == current;
        Ok(current)
      else
        var r := Search(parent, hasLock);
        assert forall k :: 0 <= k <= |parent| ==> parent[..k] == current[..k];
        assert current[..|current|] == current;
        r
  }

  /**
   * `get_root_dir`, given what `std::env::current_dir` returned (its error as text).
   */
  function GetRootDir(cwd: Result<Path, string>, hasLock: Path -> bool): (r: Result<Path, ConfigError>)
    ensures cwd.Err? ==> r == Err(Message(cwd.error))
    ensures cwd.Ok? ==> r == Search(cwd.value, hasLock)
  {
    var current :- MapErr(cwd);
    Search(current, hasLock)
  }

  /** A failure to read the current directory becomes a configuration error carrying its text. */
  function MapErr(cwd: Result<Path, string>): (r: Result<Path, ConfigError>)
    ensures cwd.Ok? ==> r == Ok(cwd.value)
    ensures cwd.Err? ==> r == Err(Message(cwd.error))
  {
    match cwd
    case Ok(p) => Ok(p)
    case Err(e) => Err(Message(e))
  }

  /**
   * The search succeeds exactly when some directory from the start up to, but not
   * including, the root holds the marker, and then it returns the deepest such directory.
   */
  lemma {:induction false} SearchFindsNearest(current: Path, hasLock: Path -> bool)
    ensures Search(current, hasLock).Ok? <==> exists k :: 0 < k <= |current| && hasLock(current[..k])
    ensures Search(current, hasLock).Ok? ==>
              Search(current, hasLock).value == current[..|Search(current, hasLock).value|]
  {
  }

  /** A marker at the filesystem root alone is never found. */
  lemma RootMarkerIgnored(current: Path, hasLock: Path -> bool)
    requires forall p :: hasLock(p) <==> p == []
    ensures Search(current, hasLock) == Err(Message(NotFoundMessage))
  {
  }
}
