/** Shared value types of the version-control abstraction: the backend
    identifier, the sentinel errors, the status records, and the promises
    that the documentation of the VCS interface makes about a few of its
    operations, stated over an abstract repository state. */
module Vcs {
  import opened Wrappers

  /** The version-control system behind a directory: git or jujutsu (jj). */
  datatype VcsType = Git | Jj {

    /** The string value of the backend constant ("git" or "jj"). */
    function Name(): (s: string)
      ensures s == "git" || s == "jj"
      ensures s == "jj" <==> this == Jj
    {
      match this
      case Git => "git"
      case Jj => "jj"
    }
  }

  /** Reads a configured type string as a backend; the factory's `switch`
      statements compare against exactly the two constants and nothing else. */
  function ParseType(s: string): (r: Option<VcsType>)
    ensures r.Some? ==> r.value.Name() == s
    ensures r.None? <==> s != "git" && s != "jj"
  {
    if s == Jj.Name() then Some(Jj)
    else if s == Git.Name() then Some(Git)
    else None
  }

  /** There are exactly two backends, with distinct names, and each name
      reads back as its own backend. */
  lemma TypeConstants(t: VcsType)
    ensures t == Git || t == Jj
    ensures Git.Name() == "git" && Jj.Name() == "jj" && Git.Name() != Jj.Name()
    ensures ParseType(t.Name()) == Some(t)
  {
  }

  /** The four sentinel errors shared by every backend. */
  datatype Sentinel = NotARepo | MergeConflict | RebaseConflict | AuthFailure {

    /** The message the sentinel was created with. */
    function Message(): (m: string)
      ensures |m| > 0
    {
      match this
      case NotARepo => "not a repository"
      case MergeConflict => "merge conflict"
      case RebaseConflict => "rebase conflict"
      case AuthFailure => "authentication failed"
    }
  }

  /** The sentinels are pairwise distinct, and so are their messages. */
  lemma SentinelsDistinct(a: Sentinel, b: Sentinel)
    ensures a != b ==> a.Message() != b.Message()
  {
  }

  /** The working directory state. */
  datatype Status = Status(
    clean: bool,
    modified: seq<string>,
    added: seq<string>,
    deleted: seq<string>,
    untracked: seq<string>)

  /** A git worktree or jj workspace: its path, its branch (git) or
      bookmark (jj), and its commit. */
  datatype Workspace = Workspace(path: string, branch: string, commit: string)

  /** A summary of the work in a directory that has not reached the remote. */
  datatype UncommittedWork = UncommittedWork(
    hasChanges: bool,
    stashCount: int,
    unpushedCommits: int,
    modifiedFiles: seq<string>,
    untrackedFiles: seq<string>)
  {
    /** True when there is no uncommitted work: a clean summary is the summary
        of no changes, no stashes and no unpushed commits, whatever its file
        lists. Being a predicate on a value, it cannot change its receiver. */
    predicate Clean()
      ensures Clean() <==> this == UncommittedWork(false, 0, 0, modifiedFiles, untrackedFiles)
    {
      !hasChanges && stashCount == 0 && unpushedCommits == 0
    }
  }

  /** Clean depends on the changes flag and the two counts only: the file
      lists never change the answer. */
  lemma CleanIgnoresFileLists(u: UncommittedWork, modified: seq<string>, untracked: seq<string>)
    ensures u.(modifiedFiles := modified, untrackedFiles := untracked).Clean() == u.Clean()
  {
  }

  /** A stash or an unpushed commit makes the work unclean even when the
      working copy has no changes; with none of the three, it is clean. */
  lemma CleanExactly(u: UncommittedWork)
    ensures u.hasChanges ==> !u.Clean()
    ensures u.stashCount != 0 ==> !u.Clean()
    ensures u.unpushedCommits != 0 ==> !u.Clean()
    ensures !u.hasChanges && u.stashCount == 0 && u.unpushedCommits == 0 ==> u.Clean()
  {
  }

  /** The persisted state of a repository that the interface's promises talk
      about: refs and what they point to, the staging area, the stash list and
      the working-copy files with their contents. */
  datatype RepoState = RepoState(
    refs: map<string, string>,
    staged: set<string>,
    stashes: seq<string>,
    workingCopy: map<string, string>)

  /** A VCS handle: bound to one backend and one working directory for its
      whole lifetime (the interface's `Type` and `WorkDir`). */
  datatype Handle = Handle(kind: VcsType, workDir: string)

  /** Number of stashes. jj has no stash concept, so it reports 0 whatever the
      state; git reports the length of its stash list. */
  function StashCount(h: Handle, s: RepoState): (n: int)
    ensures n >= 0
    ensures h.kind == Jj ==> n == 0
    ensures h.kind == Git ==> n == |s.stashes|
  {
    match h.kind
    case Jj => 0
    case Git => |s.stashes|
  }

  /** Stages files for commit. On jj, which tracks everything automatically,
      it is a no-op; on git it adds exactly the given paths to the staging
      area and changes nothing else. */
  function Add(h: Handle, s: RepoState, paths: seq<string>): (s': RepoState)
    ensures h.kind == Jj ==> s' == s
    ensures h.kind == Git ==> forall p :: p in s'.staged <==> p in s.staged || p in paths
    ensures s'.refs == s.refs && s'.stashes == s.stashes && s'.workingCopy == s.workingCopy
  {
    match h.kind
    case Jj => s
    case Git => s.(staged := s.staged + set p | p in paths)
  }

  /** The answer of a test merge of `source` into `target`: the conflicting
      files, empty when the merge would be clean. */
  datatype ConflictCheck = ConflictCheck(conflicts: seq<string>, after: RepoState)

  /** Checks whether `source` merges into `target` cleanly. The test merge is
      aborted afterwards, so the repository state after the call is the state
      before it, whatever the backend and whatever the answer. `trial` stands
      for what the backend's test merge reports, which depends on the
      repository state and the two revisions. */
  function CheckConflicts(h: Handle, s: RepoState, source: string, target: string,
                          trial: (RepoState, string, string) -> seq<string>): (r: ConflictCheck)
    ensures r.after == s
    ensures r.conflicts == trial(s, source, target)
  {
    ConflictCheck(trial(s, source, target), s)
  }

  /** Neither `Add` (on either backend) nor `CheckConflicts` changes what a later
      `StashCount` reports. */
  lemma StashCountUnaffected(h: Handle, s: RepoState, paths: seq<string>,
                              source: string, target: string,
                              trial: (RepoState, string, string) -> seq<string>)
    ensures StashCount(h, Add(h, s, paths)) == StashCount(h, s)
    ensures StashCount(h, CheckConflicts(h, s, source, target, trial).after) == StashCount(h, s)
  {
  }
}
