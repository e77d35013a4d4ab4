/** Backend detection and the construction dispatch of the VCS factory.
    The filesystem is an oracle: the set of existing paths, each with its kind.
    The four backend constructors are not modelled by what they build; a
    construction result only records which of them was called, with which
    arguments. */
module Factory {
  import opened Wrappers
  import opened Vcs

  /** What a path names when it exists: a directory, or anything else (a
      regular file, a device, a socket, a FIFO), which is all that
      `IsDir` tells apart. */
  datatype Kind = Directory | NotDirectory

  /** Every existing path and its kind; a path not in the map does not exist. */
  type FileSystem = map<string, Kind>

  /** The marker entries a repository carries in its working directory. */
  const JjMarker: string := ".jj"
  const GitMarker: string := ".git"

  /** The path of `name` inside directory `dir`. */
  function Join(dir: string, name: string): (p: string)
    ensures |p| >= |name| && p[|p| - |name|..] == name
  {
    if dir == "" then name else dir + "/" + name
  }

  /** `dir` holds a jj repository: `.jj` exists and is a directory. A `.jj`
      that is not a directory does not count. */
  function HasJjRepo(fs: FileSystem, dir: string): (found: bool)
    ensures found ==> Join(dir, JjMarker) in fs
    ensures Join(dir, JjMarker) in fs ==> (found <==> fs[Join(dir, JjMarker)] != NotDirectory)
  {
    var p := Join(dir, JjMarker);
    p in fs && fs[p] == Directory
  }

  /** `dir` holds a git repository: `.git` is a directory, or a file as in a
      worktree. */
  function HasGitRepo(fs: FileSystem, dir: string): (found: bool)
    ensures found <==> Join(dir, GitMarker) in fs
  {
    var p := Join(dir, GitMarker);
    if p in fs && fs[p] == Directory then true
    else if p in fs && fs[p] != Directory then true
    else false
  }

  /** The backend constructors, by name and arguments. */
  datatype Constructor =
    | NewGitVCS(dir: string)
    | NewGitVCSWithDir(gitDir: string, workDir: string)
    | NewJjVCS(dir: string)
    | NewJjVCSWithDir(jjDir: string, workDir: string)
  {
    /** The backend the constructor builds a handle for. */
    function Backend(): VcsType
    {
      match this
      case NewGitVCS(_) => Git
      case NewGitVCSWithDir(_, _) => Git
      case NewJjVCS(_) => Jj
      case NewJjVCSWithDir(_, _) => Jj
    }
  }

  /** The errors the factory itself raises. */
  datatype FactoryError =
    | SentinelError(sentinel: Vcs.Sentinel)
    /** "VCS type required for explicit git dir" */
    | TypeRequired

  /** What a factory call returns: whatever the chosen constructor returns,
      or an error raised before any constructor is called. */
  datatype Construction = Calls(ctor: Constructor) | Fails(error: FactoryError)

  /** The constructor for backend `t` on a plain working directory. */
  function ConstructorFor(t: VcsType, dir: string): (c: Constructor)
    ensures c.Backend() == t
    ensures c == NewJjVCS(dir) || c == NewGitVCS(dir)
  {
    match t
    case Jj => NewJjVCS(dir)
    case Git => NewGitVCS(dir)
  }

  /** Detects the backend of `dir`, checking jj first because a colocated
      repository carries both markers. */
  function DetectVCSType(fs: FileSystem, dir: string): (r: Result<VcsType, Vcs.Sentinel>)
    ensures r == Success(Jj) <==> HasJjRepo(fs, dir)
    ensures r == Success(Git) <==> !HasJjRepo(fs, dir) && Join(dir, GitMarker) in fs
    ensures r.Failure? <==> !HasJjRepo(fs, dir) && Join(dir, GitMarker) !in fs
    ensures r.Failure? ==> r.error == NotARepo
  {
    if HasJjRepo(fs, dir) then Success(Jj)
    else if HasGitRepo(fs, dir) then Success(Git)
    else Failure(NotARepo)
  }

  /** Opens `dir` with the auto-detected backend: the jj constructor when
      `.jj` is a directory, else the git constructor when `.git` exists, else
      `ErrNotARepo`. */
  function New(fs: FileSystem, dir: string): (r: Construction)
    ensures r == Calls(NewJjVCS(dir)) <==> HasJjRepo(fs, dir)
    ensures r == Calls(NewGitVCS(dir)) <==> !HasJjRepo(fs, dir) && Join(dir, GitMarker) in fs
    ensures r.Fails? <==> !HasJjRepo(fs, dir) && Join(dir, GitMarker) !in fs
    ensures r.Fails? ==> r.error == SentinelError(NotARepo)
  {
    if HasJjRepo(fs, dir) then Calls(NewJjVCS(dir))
    else if HasGitRepo(fs, dir) then Calls(NewGitVCS(dir))
    else Fails(SentinelError(NotARepo))
  }

  /** Opens `dir` with the configured backend when the configuration names
      one; any other value, the empty one included, auto-detects. */
  function NewFromConfig(fs: FileSystem, dir: string, vcsType: string): (r: Construction)
    ensures vcsType == "jj" ==> r == Calls(NewJjVCS(dir))
    ensures vcsType == "git" ==> r == Calls(NewGitVCS(dir))
  {
    match ParseType(vcsType)
    case Some(t) => Calls(ConstructorFor(t, dir))
    case None => New(fs, dir)
  }

  /** Opens a repository whose git (or jj) directory is given apart from the
      working directory. It has no filesystem to look at, so it never
      detects: without an explicit type it fails. */
  function NewWithGitDir(gitDir: string, workDir: string, vcsType: string): (r: Construction)
    ensures vcsType == "jj" ==> r == Calls(NewJjVCSWithDir(gitDir, workDir))
    ensures vcsType == "git" ==> r == Calls(NewGitVCSWithDir(gitDir, workDir))
    ensures vcsType != "jj" && vcsType != "git" ==> r == Fails(TypeRequired)
  {
    match ParseType(vcsType)
    case Some(Jj) => Calls(NewJjVCSWithDir(gitDir, workDir))
    case Some(Git) => Calls(NewGitVCSWithDir(gitDir, workDir))
    case None => Fails(TypeRequired)
  }

  /** A `.jj` directory selects jj whether or not `.git` is there too, for
      both detection and construction. */
  lemma JjWins(fs: FileSystem, dir: string, gitKind: Kind)
    requires Join(dir, JjMarker) in fs && fs[Join(dir, JjMarker)] == Directory
    ensures DetectVCSType(fs, dir) == Success(Jj)
    ensures DetectVCSType(fs[Join(dir, GitMarker) := gitKind], dir) == Success(Jj)
    ensures DetectVCSType(fs - {Join(dir, GitMarker)}, dir) == Success(Jj)
    ensures New(fs, dir) == Calls(NewJjVCS(dir))
  {
    MarkersDiffer(dir);
  }

  /** The two marker paths of a directory are different paths. */
  lemma MarkersDiffer(dir: string)
    ensures Join(dir, JjMarker) != Join(dir, GitMarker)
  {
    var j, g := Join(dir, JjMarker), Join(dir, GitMarker);
    assert |j| + 1 == |g|;
  }

  /** A `.jj` that is not a directory does not select jj: detection goes on
      to the git marker. */
  lemma JjFileIgnored(fs: FileSystem, dir: string)
    requires Join(dir, JjMarker) in fs && fs[Join(dir, JjMarker)] == NotDirectory
    ensures DetectVCSType(fs, dir) == if Join(dir, GitMarker) in fs then Success(Git) else Failure(NotARepo)
  {
  }

  /** `.git` counts whether it is a directory or not (a worktree's `.git` file). */
  lemma GitEitherKind(fs: FileSystem, dir: string, k: Kind)
    requires !HasJjRepo(fs, dir)
    ensures HasGitRepo(fs[Join(dir, GitMarker) := k], dir)
    ensures !HasJjRepo(fs[Join(dir, GitMarker) := k], dir)
    ensures DetectVCSType(fs[Join(dir, GitMarker) := k], dir) == Success(Git)
  {
    MarkersDiffer(dir);
  }

  /** With no jj directory and no `.git`, detection and construction both
      fail with `ErrNotARepo`. */
  lemma NoMarkerNotARepo(fs: FileSystem, dir: string)
    requires !HasJjRepo(fs, dir) && Join(dir, GitMarker) !in fs
    ensures DetectVCSType(fs, dir) == Failure(NotARepo)
    ensures New(fs, dir) == Fails(SentinelError(NotARepo))
  {
  }

  /** `New` calls the constructor of exactly the backend that detection
      reports, on the same directory, and fails exactly when detection does,
      with the same error. */
  lemma NewAgreesWithDetection(fs: FileSystem, dir: string)
    ensures New(fs, dir).Calls? <==> DetectVCSType(fs, dir).Success?
    ensures New(fs, dir).Calls? ==>
      New(fs, dir).ctor == ConstructorFor(DetectVCSType(fs, dir).value, dir)
    ensures New(fs, dir).Fails? ==> New(fs, dir).error == SentinelError(DetectVCSType(fs, dir).error)
  {
  }

  /** An explicit type picks its backend's constructor without consulting the
      markers: two filesystems, however different, give the same result. */
  lemma ExplicitTypeIgnoresMarkers(fs1: FileSystem, fs2: FileSystem, dir: string, t: VcsType)
    ensures NewFromConfig(fs1, dir, t.Name()) == NewFromConfig(fs2, dir, t.Name())
    ensures NewFromConfig(fs1, dir, t.Name()) == Calls(ConstructorFor(t, dir))
  {
  }

  /** Any value other than the two type names, the empty one included, makes
      `NewFromConfig` behave exactly as `New`. */
  lemma OtherTypeAutoDetects(fs: FileSystem, dir: string, vcsType: string)
    requires vcsType != "jj" && vcsType != "git"
    ensures NewFromConfig(fs, dir, vcsType) == New(fs, dir)
  {
  }

  /** Explicit configuration wins over the markers: in a directory that
      carries a `.jj` directory, configuring git still calls the git
      constructor. */
  lemma ConfigOverridesDetection(fs: FileSystem, dir: string)
    requires HasJjRepo(fs, dir)
    ensures New(fs, dir) == Calls(NewJjVCS(dir))
    ensures NewFromConfig(fs, dir, "git") == Calls(NewGitVCS(dir))
  {
  }
}
