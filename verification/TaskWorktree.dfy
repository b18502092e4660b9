/** The worktree a task works in (internal/agent/agent_config.go, ensureTaskWorktree), on a repository
    that keeps what git keeps: worktrees, branches and what it knows of origin. */
module TaskWorktree {
  import opened Basics
  import opened Output
  import opened WorktreeList

  datatype Reason = GitFailed | BranchMismatch | NoBranchName | BadBranchName | NoFreePath | NotMade

  datatype Warning = NoOrigin | FetchFailed | NoDefaultBranch

  datatype Result = Ok(dir: string, branch: string, warnings: seq<Warning>) | Error(reason: Reason)

  /** How the calls outside this model end, for one run of EnsureTaskWorktree. fetched is what a fetch
      that works brings; defaultBase is the commit macroBaseBranch names. */
  datatype World = World(listed: bool, refOK: bool, made: bool, added: bool, hasOrigin: bool,
                         fetched: Option<map<string, string>>, defaultBase: Option<string>, head: string)

  predicate CommitOK(commit: string) {
    OneFrame(commit) && EndsSolid(commit)
  }

  predicate CommitsOK(refs: map<string, string>) {
    forall b :: b in refs ==> CommitOK(refs[b])
  }

  predicate WorldOK(w: World, branch: string) {
    && (w.refOK ==> OneFrame(branch) && EndsSolid(branch))
    && (w.fetched.Some? ==> CommitsOK(w.fetched.value))
    && (w.defaultBase.Some? ==> CommitOK(w.defaultBase.value))
    && CommitOK(w.head)
  }

  predicate PathOK(path: string) {
    path != "" && OneFrame(path) && path[|path| - 1] != '\r'
  }

  predicate NoBranchTwice(list: seq<Worktree>) {
    forall i, j :: 0 <= i < j < |list| && list[i].head.Branch? ==> list[i].head != list[j].head
  }

  /** The state of the repository that the calls of this file may change. */
  datatype Refs = Refs(worktrees: seq<Worktree>, branches: map<string, string>, remotes: map<string, string>,
                       paths: set<string>, directories: set<string>)

  class Repository {
    /** The directory a path leads to, as git prints it. */
    const resolve: string -> string
    var worktrees: seq<Worktree>
    var branches: map<string, string>
    var remotes: map<string, string>
    /** What Lstat finds, and what it cannot look at. */
    var paths: set<string>
    const unreadable: set<string>
    /** The directories that exist, resolved. */
    var directories: set<string>

    constructor (resolve: string -> string, worktrees: seq<Worktree>, branches: map<string, string>,
                 paths: set<string>, unreadable: set<string>, directories: set<string>)
      requires AllOK(worktrees) && NoBranchTwice(worktrees) && CommitsOK(branches)
      requires forall p :: resolve(resolve(p)) == resolve(p)
      ensures Valid()
      ensures View() == Refs(worktrees, branches, map[], paths, directories)
      ensures this.resolve == resolve
    {
      this.resolve, this.worktrees, this.branches, this.remotes := resolve, worktrees, branches, map[];
      this.paths, this.unreadable, this.directories := paths, unreadable, directories;
    }

    ghost predicate Valid()
      reads this
    {
      && AllOK(worktrees) && NoBranchTwice(worktrees)
      && CommitsOK(branches) && CommitsOK(remotes)
      && forall p :: resolve(resolve(p)) == resolve(p)
    }

    ghost function View(): Refs
      reads this
    {
      Refs(worktrees, branches, remotes, paths, directories)
    }

    /** Both exist and are the same directory. */
    predicate SameDirectory(a: string, b: string)
      reads this
    {
      resolve(a) in directories && resolve(b) in directories && resolve(a) == resolve(b)
    }

    /** The branch checked out at root, or "" when there is none. */
    function Current(root: string): string
      reads this
    {
      HeadOf(worktrees, resolve(root))
    }

    /** git worktree list --porcelain */
    method List() returns (out: string)
      ensures out == TrimSpace(Printed(worktrees))
    {
      return TrimSpace(Printed(worktrees));
    }

    method Fetch(w: World) returns (warnings: seq<Warning>)
      requires Valid() && (w.fetched.Some? ==> CommitsOK(w.fetched.value))
      modifies this`remotes
      ensures Valid()
      ensures remotes == if w.hasOrigin && w.fetched.Some? then w.fetched.value else old(remotes)
      ensures warnings == if !w.hasOrigin then [NoOrigin] else if w.fetched.None? then [FetchFailed] else []
    {
      if !w.hasOrigin {
        return [NoOrigin];
      }
      if w.fetched.None? {
        return [FetchFailed];
      }
      remotes := w.fetched.value;
      return [];
    }

    /** git worktree add target branch, which git refuses when it chooses to; git's own refusal of a branch
        that another worktree has is not relied on. */
    method AddWorktree(target: string, branch: string, commit: string, w: World) returns (ok: bool)
      requires Valid() && PathOK(resolve(target)) && OneFrame(branch) && EndsSolid(branch) && CommitOK(commit)
      requires forall i :: 0 <= i < |worktrees| ==> worktrees[i].head != Branch(branch)
      modifies this`worktrees, this`paths, this`directories
      ensures Valid() && ok == w.added
      ensures View() == if w.added then Grown(old(View()), target, resolve(target), branch, commit) else old(View())
    {
      if !w.added {
        return false;
      }
      worktrees := worktrees + [Worktree(resolve(target), Branch(branch), commit, [])];
      paths := paths + {target};
      directories := directories + {resolve(target)};
      return true;
    }

    /** git worktree add -b branch target base */
    method AddBranchWorktree(target: string, branch: string, base: string, w: World) returns (ok: bool)
      requires Valid() && PathOK(resolve(target)) && OneFrame(branch) && EndsSolid(branch) && CommitOK(base)
      requires Carrying(worktrees, branch) == "" && branch !in branches
      modifies this`worktrees, this`paths, this`directories, this`branches
      ensures Valid() && ok == w.added
      ensures ok ==> View() == Grown(old(View()), target, resolve(target), branch, base).(branches := branches)
      ensures ok ==> branches == old(branches)[branch := base]
      ensures !ok ==> View() == old(View())
      ensures ok ==> Carrying(worktrees, branch) == resolve(target)
    {
      CarryingNone(worktrees, branch);
      ok := AddWorktree(target, branch, base, w);
      if ok {
        branches := branches[branch := base];
      }
    }

    /** availableTaskWorktreePath, on the candidate paths in their order. */
    method AvailablePath(candidates: seq<string>) returns (target: Option<string>)
      ensures target.Some? ==> target.value !in paths && target.value !in unreadable
      ensures target.Some? <==> exists i :: 0 <= i < |candidates| && FreeAfterTaken(candidates, i)
      ensures forall i :: 0 <= i < |candidates| && FreeAfterTaken(candidates, i) ==> target == Some(candidates[i])
      ensures target.Some? ==> target.value in candidates
    {
      for i := 0 to |candidates|
        invariant forall j :: 0 <= j < i ==> candidates[j] in paths && candidates[j] !in unreadable
      {
        if candidates[i] in unreadable {
          return None;
        }
        if candidates[i] !in paths {
          assert FreeAfterTaken(candidates, i);
          return Some(candidates[i]);
        }
      }
      return None;
    }

    /** The i-th candidate is the first that is not taken, and none before it is unreadable. */
    predicate FreeAfterTaken(candidates: seq<string>, i: nat)
      requires i < |candidates|
      reads this
    {
      && candidates[i] !in paths && candidates[i] !in unreadable
      && forall j :: 0 <= j < i ==> candidates[j] in paths && candidates[j] !in unreadable
    }

    /** The commit a new branch starts from. */
    function Base(branch: string, fetch: bool, w: World): string
      reads this
    {
      if branch in remotes then remotes[branch]
      else if fetch && w.defaultBase.Some? then w.defaultBase.value
      else w.head
    }
  }

  function Grown(r: Refs, target: string, resolved: string, branch: string, commit: string): Refs {
    r.(worktrees := r.worktrees + [Worktree(resolved, Branch(branch), commit, [])],
       paths := r.paths + {target}, directories := r.directories + {resolved})
  }

  function HeadOf(list: seq<Worktree>, path: string): string {
    if list == [] then ""
    else if list[0].path == path && list[0].head.Branch? then list[0].head.name
    else HeadOf(list[1..], path)
  }

  /** The branch at a path is that of the first worktree listed there that has one. */
  lemma {:induction false} HeadOfFirst(list: seq<Worktree>, path: string)
    ensures (forall i :: 0 <= i < |list| && list[i].path == path ==> !list[i].head.Branch?) ==> HeadOf(list, path) == ""
    ensures forall i :: 0 <= i < |list| && list[i].path == path && list[i].head.Branch?
                        && (forall j :: 0 <= j < i && list[j].path == path ==> !list[j].head.Branch?)
                        ==> HeadOf(list, path) == list[i].head.name
  {
    if list != [] && !(list[0].path == path && list[0].head.Branch?) {
      HeadOfFirst(list[1..], path);
      assert forall i :: 0 < i < |list| ==> list[i] == list[1..][i - 1];
    }
  }

  // ---- ensureTaskWorktree ----

  /** The branch of the task: the one assigned, else the one its name format gives. */
  function TaskBranch(given: string, rendered: Option<string>): Option<string> {
    if given != "" then Some(given) else rendered
  }

  /** Without worktrees the task works in the checkout, on its assigned branch if it has one. */
  method CheckedOut(repo: Repository, root: string, given: string, w: World) returns (r: Result)
    ensures r.Ok? <==> w.listed && (given == "" || repo.Current(root) == given)
    ensures r.Ok? ==> r == Ok(root, repo.Current(root), [])
  {
    var current := if w.listed then repo.Current(root) else "";
    if given != "" && current != given {
      return Error(BranchMismatch);
    }
    return if w.listed then Ok(root, current, []) else Error(GitFailed);
  }

  /** The repository a call may leave: branches keep their tips, and the only branch it may add starts from
      the base the call chose. */
  ghost predicate KeepsBranches(before: Refs, after: Refs, branch: string, base: string) {
    && (forall b :: b in before.branches ==> b in after.branches && after.branches[b] == before.branches[b])
    && (forall b :: b in after.branches && b !in before.branches ==> b == branch && after.branches[b] == base)
  }

  predicate HasWorktree(list: seq<Worktree>, branch: Option<string>) {
    branch.Some? && Carrying(list, branch.value) != ""
  }

  /** One worktree more, and its directory. */
  ghost predicate Extends(before: Refs, after: Refs, target: string, resolved: string, branch: string) {
    && branch in after.branches
    && after.worktrees == before.worktrees + [Worktree(resolved, Branch(branch), after.branches[branch], [])]
    && after.paths == before.paths + {target} && after.directories == before.directories + {resolved}
  }

  /** A branch that exists is checked out as it is. */
  method CheckOutBranch(repo: Repository, target: string, branch: string, w: World) returns (ok: bool)
    requires repo.Valid() && WorldOK(w, branch) && w.refOK && PathOK(repo.resolve(target))
    requires Carrying(repo.worktrees, branch) == "" && branch in repo.branches
    modifies repo
    ensures repo.Valid() && ok == w.added
    ensures !ok ==> repo.View() == old(repo.View())
    ensures ok ==>
        repo.View() == Grown(old(repo.View()), target, repo.resolve(target), branch, old(repo.branches)[branch])
    ensures ok ==> Carrying(repo.worktrees, branch) == repo.resolve(target)
    ensures ok ==> Extends(old(repo.View()), repo.View(), target, repo.resolve(target), branch)
  {
    CarryingNone(repo.worktrees, branch);
    ok := repo.AddWorktree(target, branch, repo.branches[branch], w);
  }

  method FetchForBase(repo: Repository, branch: string, fetch: bool, w: World) returns (warnings: seq<Warning>)
    requires repo.Valid() && WorldOK(w, branch)
    modifies repo`remotes
    ensures repo.Valid() && CommitOK(repo.Base(branch, fetch, w))
    ensures !fetch ==> repo.remotes == old(repo.remotes) && warnings == []
    ensures fetch ==> repo.remotes == if w.hasOrigin && w.fetched.Some? then w.fetched.value else old(repo.remotes)
    ensures fetch ==> (NoDefaultBranch in warnings <==> branch !in repo.remotes && w.defaultBase.None?)
  {
    warnings := [];
    if fetch {
      warnings := repo.Fetch(w);
      if branch !in repo.remotes && w.defaultBase.None? {
        warnings := warnings + [NoDefaultBranch];
      }
    }
  }

  /** A new branch starts from its base: what origin has of it, else the fetched default branch, else the
      checkout's own commit. */
  method CreateBranch(repo: Repository, target: string, branch: string, fetch: bool, w: World)
    returns (ok: bool, warnings: seq<Warning>)
    requires repo.Valid() && WorldOK(w, branch) && w.refOK && PathOK(repo.resolve(target))
    requires Carrying(repo.worktrees, branch) == "" && branch !in repo.branches
    modifies repo
    ensures repo.Valid() && ok == w.added
    ensures !fetch ==> repo.remotes == old(repo.remotes)
    ensures !ok ==> repo.View() == old(repo.View()).(remotes := repo.remotes)
    ensures ok ==> repo.branches == old(repo.branches)[branch := repo.Base(branch, fetch, w)]
    ensures ok ==> repo.branches == old(repo.branches)[branch :=
                     if branch in repo.remotes then repo.remotes[branch]
                     else if fetch && w.defaultBase.Some? then w.defaultBase.value else w.head]
    ensures ok ==>
        repo.View() == Grown(old(repo.View()), target, repo.resolve(target), branch, repo.Base(branch, fetch, w))
                         .(remotes := repo.remotes, branches := repo.branches)
    ensures ok ==> Carrying(repo.worktrees, branch) == repo.resolve(target)
    ensures ok ==> Extends(old(repo.View()), repo.View(), target, repo.resolve(target), branch)
    ensures KeepsBranches(old(repo.View()), repo.View(), branch, repo.Base(branch, fetch, w))
  {
    warnings := FetchForBase(repo, branch, fetch, w);
    ok := repo.AddBranchWorktree(target, branch, repo.Base(branch, fetch, w), w);
  }

  method AddTaskWorktree(repo: Repository, target: string, branch: string, fetch: bool, w: World) returns (r: Result)
    requires repo.Valid() && WorldOK(w, branch) && w.refOK && PathOK(repo.resolve(target))
    requires Carrying(repo.worktrees, branch) == ""
    modifies repo
    ensures repo.Valid() && (r.Ok? <==> w.added)
    ensures r.Ok? ==> r.dir == target && r.branch == branch && Carrying(repo.worktrees, branch) == repo.resolve(target)
    ensures r.Ok? ==> Extends(old(repo.View()), repo.View(), target, repo.resolve(target), branch)
    ensures r.Error? ==> repo.View() == old(repo.View()).(remotes := repo.remotes)
    ensures KeepsBranches(old(repo.View()), repo.View(), branch, repo.Base(branch, fetch, w))
    ensures !fetch || branch in old(repo.branches) ==> repo.remotes == old(repo.remotes)
  {
    var ok, warnings := false, [];
    if branch in repo.branches {
      ok := CheckOutBranch(repo, target, branch, w);
    } else {
      ok, warnings := CreateBranch(repo, target, branch, fetch, w);
    }
    if !ok {
      return Error(GitFailed);
    }
    return Ok(target, branch, warnings);
  }

  method EnsureTaskWorktree(repo: Repository, root: string, given: string, rendered: Option<string>, useWorktrees: bool,
                            fetch: bool, candidates: seq<string>, w: World) returns (r: Result)
    requires repo.Valid() && forall p :: p in candidates ==> PathOK(repo.resolve(p))
    requires TaskBranch(given, rendered).Some? ==> WorldOK(w, TaskBranch(given, rendered).value)
    modifies repo
    ensures repo.Valid()
    // The directory returned has the task's branch checked out.
    ensures r.Ok? && useWorktrees ==> if given != "" then r.branch == given else rendered == Some(r.branch)
    ensures r.Ok? && useWorktrees ==>
        Carrying(repo.worktrees, r.branch) != ""
        && repo.resolve(r.dir) == repo.resolve(Carrying(repo.worktrees, r.branch))
    ensures r.Ok? && !useWorktrees ==>
        r.dir == root && repo.Current(root) == r.branch && (given != "" ==> r.branch == given)
    // It exists, unless git listed a worktree whose directory is gone.
    ensures r.Ok? && useWorktrees ==>
        (repo.resolve(r.dir) in repo.directories)
        == (old(Carrying(repo.worktrees, r.branch)) == ""
            || repo.resolve(old(Carrying(repo.worktrees, r.branch))) in old(repo.directories))
    // A new worktree takes a path nothing had.
    ensures r.Ok? && useWorktrees && old(Carrying(repo.worktrees, r.branch)) == "" ==>
        && r.dir in candidates && r.dir !in old(repo.paths)
        && Extends(old(repo.View()), repo.View(), r.dir, repo.resolve(r.dir), r.branch)
    // A task that has a worktree keeps it, and nothing changes.
    ensures r.Ok? && (!useWorktrees || old(Carrying(repo.worktrees, r.branch)) != "") ==>
        repo.View() == old(repo.View())
    ensures r.Error? ==> repo.View() == old(repo.View()).(remotes := repo.remotes)
    ensures r.Ok? && useWorktrees && old(Carrying(repo.worktrees, r.branch)) != "" ==>
        r.dir == if old(repo.SameDirectory(Carrying(repo.worktrees, r.branch), root)) then root
            else old(Carrying(repo.worktrees, r.branch))
    ensures useWorktrees && w.refOK && w.listed && HasWorktree(old(repo.worktrees), TaskBranch(given, rendered)) ==>
        r.Ok?
    // Every branch keeps its tip; the task's branch starts where it should when it is new: at what origin has of
    // it, else at the fetched default branch, else at the checkout's commit.
    ensures r.Ok? && r.branch in repo.branches && r.branch !in old(repo.branches) ==>
        repo.branches[r.branch] == if r.branch in repo.remotes then repo.remotes[r.branch]
                                   else if fetch && w.defaultBase.Some? then w.defaultBase.value else w.head
    ensures r.Ok? ==> KeepsBranches(old(repo.View()), repo.View(), r.branch, repo.Base(r.branch, fetch, w))
  {
    if !useWorktrees {
      r := CheckedOut(repo, root, given, w);
      return;
    }
    var named := TaskBranch(given, rendered);
    if named.None? {
      return Error(NoBranchName);
    }
    var branch := named.value;
    if !w.refOK {
      return Error(BadBranchName);
    }
    if !w.listed {
      return Error(GitFailed);
    }
    var out := repo.List();
    var existing := WorktreeForBranch(out, branch);
    if existing != "" {
      return Ok(if repo.SameDirectory(existing, root) then root else existing, branch, []);
    }
    var target := repo.AvailablePath(candidates);
    if target.None? {
      return Error(NoFreePath);
    }
    if !w.made {
      return Error(NotMade);
    }
    r := AddTaskWorktree(repo, target.value, branch, fetch, w);
  }

  /** Asked again, the same directory is returned and nothing changes: all that two calls do is what the first
      did, one worktree more, or nothing if the task had one. */
  method EnsureAgain(repo: Repository, root: string, given: string, rendered: Option<string>, fetch: bool,
                     candidates: seq<string>, w: World, again: World)
    returns (first: Result, second: Result, ghost between: Refs)
    requires repo.Valid() && forall p :: p in candidates ==> PathOK(repo.resolve(p))
    requires TaskBranch(given, rendered).Some? ==> WorldOK(w, TaskBranch(given, rendered).value)
    requires TaskBranch(given, rendered).Some? ==> WorldOK(again, TaskBranch(given, rendered).value)
    modifies repo
    ensures first.Ok? && again.refOK && again.listed ==> second.Ok?
    ensures first.Ok? ==>
        if old(Carrying(repo.worktrees, first.branch)) != "" then between == old(repo.View())
        else Extends(old(repo.View()), between, first.dir, repo.resolve(first.dir), first.branch)
    ensures first.Ok? && second.Ok? ==> repo.View() == between
    ensures first.Ok? && second.Ok? ==>
        second.branch == first.branch && repo.resolve(second.dir) == repo.resolve(first.dir)
    ensures first.Ok? && second.Ok? && repo.resolve(root) in repo.directories ==>
        (repo.resolve(first.dir) == repo.resolve(root) ==> second.dir == root)
  {
    first := EnsureTaskWorktree(repo, root, given, rendered, true, fetch, candidates, w);
    between := repo.View();
    second := EnsureTaskWorktree(repo, root, given, rendered, true, fetch, candidates, again);
  }

  /** Where a directory returned does not exist: the branch is checked out in a worktree whose directory was
      removed by hand. Git still lists it, and its path is returned although nothing is there. */
  method RemovedByHand(root: string, gone: string, main: string, branch: string, commit: string)
    returns (repo: Repository, r: Result)
    requires PathOK(root) && PathOK(gone) && root != gone && main != branch && CommitOK(commit)
    requires OneFrame(main) && EndsSolid(main) && OneFrame(branch) && EndsSolid(branch)
    ensures repo.worktrees == [Worktree(root, Branch(main), commit, []), Worktree(gone, Branch(branch), commit, [])]
    ensures repo.directories == {root} && r.Ok? && r.branch == branch && repo.resolve(r.dir) !in repo.directories
  {
    var list := [Worktree(root, Branch(main), commit, []), Worktree(gone, Branch(branch), commit, [])];
    var asItIs := (path: string) => path;
    repo := new Repository(asItIs, list, map[main := commit, branch := commit], {root}, {}, {root});
    CarryingLast(list, branch);
    r := EnsureTaskWorktree(repo, root, branch, None, true, false, [],
                            World(true, true, true, true, false, None, None, commit));
  }

  /** The same with names of every day. */
  method RemovedFeature() returns (repo: Repository, r: Result)
    ensures r.Ok? && repo.resolve(r.dir) !in repo.directories
  {
    var root, gone, main, branch, commit := "/repo", "/gone", "main", "feat", "c0";
    assert root[1] != gone[1] && main[0] != branch[0];
    repo, r := RemovedByHand(root, gone, main, branch, commit);
  }

  lemma CarryingLast(list: seq<Worktree>, branch: string)
    requires |list| == 2 && list[0].head != Branch(branch) && list[1].head == Branch(branch)
    ensures Carrying(list, branch) == list[1].path
  {
    assert list[..1][..0] == [] && list[..1][0] == list[0];
    assert Carrying(list[..1], branch) == "";
  }
}
