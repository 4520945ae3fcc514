/**
 * The GitHub connector (connectors/github.go): one synchronisation pass for
 * branches and one for pull requests, opening a pull request, and the
 * clone-before-push rule of the working copy.
 *
 * A pass reads the remote side (hosting-service listings, turned into mirrors
 * by `MirrorBuild`) and the local side (the mirrors the cluster lists for the
 * repository label, an input), partitions both by key and then issues cluster
 * and hosting-service calls one key at a time, stopping at the first failure.
 * Every call's outcome is an input. The order in which Go walks the `allIds`
 * map is arbitrary; the pass returns, as a ghost value, the order it chose.
 */
module GithubConnector {
  import opened Wrappers
  import opened Objects
  import opened Naming
  import opened Reviews
  import opened MirrorBuild
  import opened Cluster
  import opened PullRequestSync
  import opened MapOrder

  // ===========================================================================
  // Clone and push

  /** The working copy `Clone` leaves behind, identified by the URL it came from. */
  datatype Checkout = Checkout(url: string)

  datatype GitError = CloneFailed | WorktreeFailed | NeedCloneFirst | PushFailed

  /** `repo` is the Go field `g.repo`; `pushed` lists the URLs of successful pushes. */
  datatype GitState = GitState(repo: Option<Checkout>, pushed: seq<string>)

  function CloneUrl(owner: string, repoName: string): string {
    "https://github.com/" + owner + "/" + repoName + ".git"
  }

  /**
   * Clone: a failed clone changes nothing; a successful one records the
   * checkout before the worktree is opened, so a failing worktree still leaves
   * `repo` set.
   */
  function CloneSpec(g: GitState, url: string, cloneOk: bool, worktreeOk: bool): (r: (Option<GitError>, GitState))
    ensures !cloneOk ==> r == (Some(CloneFailed), g)
    ensures cloneOk ==> r.1 == g.(repo := Some(Checkout(url)))
    ensures r.0.None? <==> cloneOk && worktreeOk
  {
    if !cloneOk then (Some(CloneFailed), g)
    else
      var g1 := g.(repo := Some(Checkout(url)));
      if !worktreeOk then (Some(WorktreeFailed), g1) else (None, g1)
  }

  /** Push: refused without a checkout; otherwise the push outcome decides. */
  function PushSpec(g: GitState, pushOk: bool): (r: (Option<GitError>, GitState))
    ensures g.repo.None? ==> r == (Some(NeedCloneFirst), g)
    ensures g.repo.Some? ==> (r.0.None? <==> pushOk) && r.1.repo == g.repo
    ensures g.repo.Some? ==> r.1.pushed == g.pushed + (if pushOk then [g.repo.value.url] else [])
  {
    if g.repo.None? then (Some(NeedCloneFirst), g)
    else if !pushOk then (Some(PushFailed), g)
    else (None, g.(pushed := g.pushed + [g.repo.value.url]))
  }

  /**
   * A push before any successful clone is refused and changes nothing; after a
   * successful clone a push that goes through pushes the cloned URL, whether
   * or not the worktree could be opened.
   */
  lemma CloneEnablesPush(owner: string, repoName: string, worktreeOk: bool)
    ensures PushSpec(GitState(None, []), true) == (Some(NeedCloneFirst), GitState(None, []))
    ensures var (_, g1) := CloneSpec(GitState(None, []), CloneUrl(owner, repoName), true, worktreeOk);
            PushSpec(g1, true) == (None, GitState(Some(Checkout(CloneUrl(owner, repoName))), [CloneUrl(owner, repoName)]))
  {
    var url := CloneUrl(owner, repoName);
    assert [] + [url] == [url];
  }

  // ===========================================================================
  // Branch synchronisation

  /** inK8sByName: local mirrors by branch name; a later entry replaces an earlier one. */
  function IndexByBranchName(local: seq<GitBranch>): (index: map<string, GitBranch>)
    ensures index.Keys == set b | b in local :: b.spec.branchName
    ensures forall name :: name in index ==> index[name] in local && index[name].spec.branchName == name
  {
    if local == [] then map[]
    else
      var last := local[|local| - 1];
      IndexByBranchName(local[..|local| - 1])[last.spec.branchName := last]
  }

  /** The entry kept for a branch name is the last one listed with that name. */
  lemma {:induction false} IndexByBranchNameLastWins(local: seq<GitBranch>, i: nat)
    requires i < |local|
    requires forall j :: i < j < |local| ==> local[j].spec.branchName != local[i].spec.branchName
    ensures IndexByBranchName(local)[local[i].spec.branchName] == local[i]
  {
    if i < |local| - 1 {
      IndexByBranchNameLastWins(local[..|local| - 1], i);
    }
  }

  datatype BranchAction = CreateBranch | UpdateBranch | KeepBranch

  /** The decision for one remote branch, made against the local index only. */
  function BranchActionFor(index: map<string, GitBranch>, gh: GitBranch): (a: BranchAction)
    ensures a == CreateBranch <==> gh.spec.branchName !in index
    ensures a == UpdateBranch <==>
      gh.spec.branchName in index && index[gh.spec.branchName].status.head != gh.status.head
  {
    if gh.spec.branchName !in index then CreateBranch
    else if index[gh.spec.branchName].status.head != gh.status.head then UpdateBranch
    else KeepBranch
  }

  datatype BranchSyncError =
    | BranchFetchFailed
    | BranchListFailed
    | CreateBranchFailed(branch: string)
    | UpdateBranchFailed(branch: string)

  /**
   * One remote branch: no local mirror, one Create; a mirror with another
   * head, one Update with the remote record; the same head, no call at all.
   */
  function BranchStep(index: map<string, GitBranch>, gh: GitBranch, ok: bool, s: StoreState<GitBranch>)
    : (r: (Option<BranchSyncError>, StoreState<GitBranch>))
    ensures BranchActionFor(index, gh) == KeepBranch ==> r == (None, s)
    ensures BranchActionFor(index, gh) == CreateBranch ==>
      r.1.calls == s.calls + [CreateCall(KeyOf(gh.meta), r.0.None?)] &&
      (r.0.Some? ==> r.0.value == CreateBranchFailed(gh.spec.branchName))
    ensures BranchActionFor(index, gh) == UpdateBranch ==>
      r.1.calls == s.calls + [UpdateCall(KeyOf(gh.meta), r.0.None?)] &&
      (r.0.Some? ==> r.0.value == UpdateBranchFailed(gh.spec.branchName))
    ensures r.1.objects == (if r.0.None? && BranchActionFor(index, gh) != KeepBranch
                            then s.objects[KeyOf(gh.meta) := gh] else s.objects)
  {
    match BranchActionFor(index, gh)
    case KeepBranch => (None, s)
    case CreateBranch =>
      var (created, s1) := CreateSpec(s, KeyOf(gh.meta), gh, ok);
      (if created then None else Some(CreateBranchFailed(gh.spec.branchName)), s1)
    case UpdateBranch =>
      var (updated, s1) := UpdateSpec(s, KeyOf(gh.meta), gh, ok);
      (if updated then None else Some(UpdateBranchFailed(gh.spec.branchName)), s1)
  }

  /** The remote branches in list order, stopping at the first failed call. */
  function RunBranches(index: map<string, GitBranch>, ghs: seq<GitBranch>, writeOk: GitBranch -> bool,
                       s: StoreState<GitBranch>): (Option<BranchSyncError>, StoreState<GitBranch>)
  {
    if ghs == [] then (None, s)
    else
      var (err, s1) := BranchStep(index, ghs[0], writeOk(ghs[0]), s);
      if err.Some? then (err, s1) else RunBranches(index, ghs[1..], writeOk, s1)
  }

  /**
   * Stop on error: once a failure happens among the first branches, the
   * later ones are never visited.
   */
  lemma {:induction false} RunBranchesConcat(index: map<string, GitBranch>, a: seq<GitBranch>, b: seq<GitBranch>,
                                             writeOk: GitBranch -> bool, s: StoreState<GitBranch>)
    ensures RunBranches(index, a + b, writeOk, s) ==
      (var (err, s1) := RunBranches(index, a, writeOk, s);
       if err.Some? then (err, s1) else RunBranches(index, b, writeOk, s1))
  {
    if a != [] {
      assert (a + b)[0] == a[0];
      assert (a + b)[1..] == a[1..] + b;
      var (err, s1) := BranchStep(index, a[0], writeOk(a[0]), s);
      if err.None? {
        RunBranchesConcat(index, a[1..], b, writeOk, s1);
      }
    } else {
      assert a + b == b;
    }
  }

  /**
   * Nothing is deleted, and every object the pass changes or adds is a remote
   * mirror stored under its own key: a local mirror without a remote branch
   * is left as it is.
   */
  lemma {:induction false} RunBranchesWritesOnlyRemote(index: map<string, GitBranch>, ghs: seq<GitBranch>,
                                                       writeOk: GitBranch -> bool, s: StoreState<GitBranch>)
    ensures var r := RunBranches(index, ghs, writeOk, s).1;
      s.objects.Keys <= r.objects.Keys &&
      forall k :: k in r.objects ==>
        (k in s.objects && r.objects[k] == s.objects[k]) || (r.objects[k] in ghs && KeyOf(r.objects[k].meta) == k)
  {
    if ghs != [] {
      var (err, s1) := BranchStep(index, ghs[0], writeOk(ghs[0]), s);
      if err.None? {
        RunBranchesWritesOnlyRemote(index, ghs[1..], writeOk, s1);
        var r := RunBranches(index, ghs[1..], writeOk, s1).1;
        forall k | k in r.objects
          ensures (k in s.objects && r.objects[k] == s.objects[k]) || (r.objects[k] in ghs && KeyOf(r.objects[k].meta) == k)
        {
          if r.objects[k] in ghs[1..] {
            assert r.objects[k] in ghs;
          }
        }
      }
    }
  }

  /** When every remote branch already has a local mirror with its head, the pass makes no call. */
  lemma {:induction false} RunBranchesQuiet(index: map<string, GitBranch>, ghs: seq<GitBranch>,
                                            writeOk: GitBranch -> bool, s: StoreState<GitBranch>)
    requires forall gh :: gh in ghs ==>
      gh.spec.branchName in index && index[gh.spec.branchName].status.head == gh.status.head
    ensures RunBranches(index, ghs, writeOk, s) == (None, s)
  {
    if ghs != [] {
      assert ghs[0] in ghs;
      assert forall gh :: gh in ghs[1..] ==> gh in ghs;
      RunBranchesQuiet(index, ghs[1..], writeOk, s);
    }
  }

  /** ReconcileBranches as a function of its inputs and the store it starts from. */
  /** A list seen as the part before index `i`, the element at `i` and the part after it. */
  lemma SplitAt<T>(done: seq<T>, s: seq<T>, i: nat)
    requires i < |s|
    ensures done + s[..i + 1] == (done + s[..i]) + [s[i]]
    ensures done + s == (done + s[..i]) + [s[i]] + s[i + 1..]
    ensures [] + s[..i] == s[..i] && [] + s[..i + 1] == s[..i + 1] && [] + s == s
  {
    assert s[..i + 1] == s[..i] + [s[i]];
    assert s == s[..i + 1] + s[i + 1..];
  }

  /** One more branch after a prefix that succeeded: it extends the prefix or ends the whole pass. */
  lemma RunBranchesStep(index: map<string, GitBranch>, prefix: seq<GitBranch>, gh: GitBranch, rest: seq<GitBranch>,
                        writeOk: GitBranch -> bool, s0: StoreState<GitBranch>, s1: StoreState<GitBranch>)
    requires (None, s1) == RunBranches(index, prefix, writeOk, s0)
    ensures var (err, s2) := BranchStep(index, gh, writeOk(gh), s1);
      (err.None? ==> RunBranches(index, prefix + [gh], writeOk, s0) == (None, s2)) &&
      (err.Some? ==> RunBranches(index, prefix + [gh] + rest, writeOk, s0) == (err, s2))
  {
    RunBranchesConcat(index, prefix, [gh], writeOk, s0);
    assert [gh][1..] == [];
    RunBranchesConcat(index, prefix + [gh], rest, writeOk, s0);
  }

  /** The same step, at index `i` of the remote listing. */
  lemma BranchPassStep(index: map<string, GitBranch>, ghs: seq<GitBranch>, i: nat, writeOk: GitBranch -> bool,
                       s0: StoreState<GitBranch>, s1: StoreState<GitBranch>)
    requires i < |ghs|
    requires (None, s1) == RunBranches(index, ghs[..i], writeOk, s0)
    ensures var (err, s2) := BranchStep(index, ghs[i], writeOk(ghs[i]), s1);
      (err.None? ==> RunBranches(index, ghs[..i + 1], writeOk, s0) == (None, s2)) &&
      (err.Some? ==> RunBranches(index, ghs, writeOk, s0) == (err, s2))
  {
    SplitAt([], ghs, i);
    RunBranchesStep(index, ghs[..i], ghs[i], ghs[i + 1..], writeOk, s0, s1);
  }

  function ReconcileBranchesSpec(f: Fetcher, listed: Option<seq<ScmReference>>, now: int,
                                 local: Option<seq<GitBranch>>, writeOk: GitBranch -> bool,
                                 s: StoreState<GitBranch>): (r: (Option<BranchSyncError>, StoreState<GitBranch>))
    ensures listed.None? ==> r == (Some(BranchFetchFailed), s)
    ensures listed.Some? && local.None? ==> r == (Some(BranchListFailed), s)
  {
    if listed.None? then (Some(BranchFetchFailed), s)
    else if local.None? then (Some(BranchListFailed), s)
    else RunBranches(IndexByBranchName(local.value), BranchMirrors(f, listed.value, now), writeOk, s)
  }

  /**
   * A second pass over the same remote listing, after a pass that wrote every
   * branch and with the local listing now holding those mirrors, changes
   * nothing: the remote branch names are distinct, so each one is indexed to
   * its own mirror.
   */
  lemma SecondBranchPassQuiet(f: Fetcher, refs: seq<ScmReference>, now: int, writeOk: GitBranch -> bool,
                              s: StoreState<GitBranch>)
    requires forall i, j :: 0 <= i < j < |refs| ==> refs[i].name != refs[j].name
    ensures ReconcileBranchesSpec(f, Some(refs), now, Some(BranchMirrors(f, refs, now)), writeOk, s) == (None, s)
  {
    var ms := BranchMirrors(f, refs, now);
    var index := IndexByBranchName(ms);
    forall gh | gh in ms
      ensures gh.spec.branchName in index && index[gh.spec.branchName].status.head == gh.status.head
    {
      var i :| 0 <= i < |ms| && ms[i] == gh;
      IndexByBranchNameLastWins(ms, i);
    }
    RunBranchesQuiet(index, ms, writeOk, s);
  }

  // ===========================================================================
  // Pull-request synchronisation: partitioning

  /** inGithubByID: remote mirrors by status id; a later entry replaces an earlier one. */
  function IndexById(ghs: seq<GitPullRequest>): (index: map<string, GitPullRequest>)
    ensures index.Keys == set m | m in ghs :: m.status.id
    ensures forall id :: id in index ==> index[id] in ghs && index[id].status.id == id
  {
    if ghs == [] then map[]
    else
      var last := ghs[|ghs| - 1];
      IndexById(ghs[..|ghs| - 1])[last.status.id := last]
  }

  /** inK8sByID: local mirrors that carry an id, by that id; a later entry replaces an earlier one. */
  function LocalIndexById(local: seq<GitPullRequest>): (index: map<string, GitPullRequest>)
    ensures index.Keys == set m | m in local && m.status.id != "" :: m.status.id
    ensures forall id :: id in index ==> index[id] in local && index[id].status.id == id
  {
    if local == [] then map[]
    else
      var last := local[|local| - 1];
      var rest := LocalIndexById(local[..|local| - 1]);
      if last.status.id != "" then rest[last.status.id := last] else rest
  }

  /** inK8sWithoutID: the local mirrors without an id, in list order. */
  function WithoutId(local: seq<GitPullRequest>): (r: seq<GitPullRequest>)
    ensures forall m :: m in r <==> m in local && m.status.id == ""
    ensures forall i :: 0 <= i < |r| ==> r[i].status.id == ""
    ensures |r| <= |local|
  {
    if local == [] then []
    else
      var last := local[|local| - 1];
      WithoutId(local[..|local| - 1]) + (if last.status.id == "" then [last] else [])
  }

  /**
   * The id-less mirrors of two lists are those of the first, then those of
   * the second: list order is kept and nothing is repeated or dropped.
   */
  lemma {:induction false} WithoutIdConcat(a: seq<GitPullRequest>, b: seq<GitPullRequest>)
    ensures WithoutId(a + b) == WithoutId(a) + WithoutId(b)
    decreases |b|
  {
    if b == [] {
      assert a + b == a;
    } else {
      var last := b[|b| - 1];
      assert (a + b)[..|a + b| - 1] == a + b[..|b| - 1];
      assert (a + b)[|a + b| - 1] == last;
      WithoutIdConcat(a, b[..|b| - 1]);
    }
  }

  /** A single mirror is kept exactly when it has no id. */
  lemma WithoutIdSingle(m: GitPullRequest)
    ensures WithoutId([m]) == if m.status.id == "" then [m] else []
  {
    assert [m][..0] == [];
  }

  lemma {:induction false} WithoutIdEmpty(local: seq<GitPullRequest>)
    requires forall m :: m in local ==> m.status.id != ""
    ensures WithoutId(local) == []
  {
    if local != [] {
      assert local[|local| - 1] in local;
      assert forall m :: m in local[..|local| - 1] ==> m in local;
      WithoutIdEmpty(local[..|local| - 1]);
    }
  }

  /** allIds: every remote id and every non-empty local id. */
  function AllIds(ghs: seq<GitPullRequest>, local: seq<GitPullRequest>): (ids: set<string>)
    ensures forall id :: id in ids <==> id in IndexById(ghs) || id in LocalIndexById(local)
  {
    IndexById(ghs).Keys + LocalIndexById(local).Keys
  }

  /** The loop over the remote mirrors: index them by id and collect their ids. */
  method IndexRemote(ghs: seq<GitPullRequest>) returns (inGithubByID: map<string, GitPullRequest>, ids: set<string>)
    ensures inGithubByID == IndexById(ghs)
    ensures ids == inGithubByID.Keys
  {
    inGithubByID := map[];
    ids := {};
    for i := 0 to |ghs|
      invariant inGithubByID == IndexById(ghs[..i])
      invariant ids == inGithubByID.Keys
    {
      assert ghs[..i + 1][..i] == ghs[..i];
      assert ghs[..i + 1][i] == ghs[i];
      inGithubByID := inGithubByID[ghs[i].status.id := ghs[i]];
      ids := ids + {ghs[i].status.id};
    }
    assert ghs[..|ghs|] == ghs;
  }

  /** The loop over the local mirrors: index those with an id, queue the others. */
  method IndexLocal(local: seq<GitPullRequest>)
    returns (inK8sByID: map<string, GitPullRequest>, inK8sWithoutID: seq<GitPullRequest>)
    ensures inK8sByID == LocalIndexById(local)
    ensures inK8sWithoutID == WithoutId(local)
  {
    inK8sByID := map[];
    inK8sWithoutID := [];
    for i := 0 to |local|
      invariant inK8sByID == LocalIndexById(local[..i])
      invariant inK8sWithoutID == WithoutId(local[..i])
    {
      assert local[..i + 1][..i] == local[..i];
      assert local[..i + 1][i] == local[i];
      if local[i].status.id != "" {
        inK8sByID := inK8sByID[local[i].status.id := local[i]];
      } else {
        inK8sWithoutID := inK8sWithoutID + [local[i]];
      }
    }
    assert local[..|local|] == local;
  }

  /** The two partitioning loops of ReconcilePullRequests. */
  method Partition(ghs: seq<GitPullRequest>, local: seq<GitPullRequest>)
    returns (inGithubByID: map<string, GitPullRequest>, inK8sByID: map<string, GitPullRequest>,
             inK8sWithoutID: seq<GitPullRequest>, allIds: set<string>)
    ensures inGithubByID == IndexById(ghs)
    ensures inK8sByID == LocalIndexById(local)
    ensures inK8sWithoutID == WithoutId(local)
    ensures allIds == AllIds(ghs, local)
  {
    var remoteIds;
    inGithubByID, remoteIds := IndexRemote(ghs);
    inK8sByID, inK8sWithoutID := IndexLocal(local);
    allIds := remoteIds + inK8sByID.Keys;
  }

  // ===========================================================================
  // Pull-request synchronisation: dispatch

  /** One call of Merge: the remote and the local mirror for a key, either possibly absent. */
  datatype Job = Job(gh: Option<GitPullRequest>, k8s: Option<GitPullRequest>)

  function JobFor(id: string, inGithubByID: map<string, GitPullRequest>, inK8sByID: map<string, GitPullRequest>): Job {
    Job(if id in inGithubByID then Some(inGithubByID[id]) else None,
        if id in inK8sByID then Some(inK8sByID[id]) else None)
  }

  /** The Merge calls of the `allIds` loop, in the order the ids are visited. */
  function IdJobs(order: seq<string>, inGithubByID: map<string, GitPullRequest>,
                  inK8sByID: map<string, GitPullRequest>): (jobs: seq<Job>)
    ensures |jobs| == |order|
    ensures forall i :: 0 <= i < |order| ==> jobs[i] == JobFor(order[i], inGithubByID, inK8sByID)
  {
    seq(|order|, i requires 0 <= i < |order| => JobFor(order[i], inGithubByID, inK8sByID))
  }

  /** The Merge calls of the id-less loop: no remote side, the local mirror as is. */
  function PendingJobs(inK8sWithoutID: seq<GitPullRequest>): (jobs: seq<Job>)
    ensures |jobs| == |inK8sWithoutID|
    ensures forall i :: 0 <= i < |jobs| ==> jobs[i] == Job(None, Some(inK8sWithoutID[i]))
  {
    seq(|inK8sWithoutID|, i requires 0 <= i < |inK8sWithoutID| => Job(None, Some(inK8sWithoutID[i])))
  }

  datatype PullSyncError =
    | PullFetchFailed
    | PullListFailed
    | MergeStepFailed(error: MergeError)
    | MergePanicked

  function MergeOutcome(r: MergeResult): (e: Option<PullSyncError>)
    ensures e.None? <==> r == Merged
  {
    match r
    case Merged => None
    case MergeFailed(error) => Some(MergeStepFailed(error))
    case Panicked => Some(MergePanicked)
  }

  /** The Merge calls in order, stopping at the first one that does not succeed. */
  function RunJobs(jobs: seq<Job>, fate: Job -> MergeFate, w: World): (Option<PullSyncError>, World) {
    if jobs == [] then (None, w)
    else
      var (r, w1) := MergeSpec(jobs[0].gh, jobs[0].k8s, fate(jobs[0]), w);
      if r != Merged then (MergeOutcome(r), w1) else RunJobs(jobs[1..], fate, w1)
  }

  /** Stop on error: a failure among the first calls means the later ones never run. */
  lemma {:induction false} RunJobsConcat(a: seq<Job>, b: seq<Job>, fate: Job -> MergeFate, w: World)
    ensures RunJobs(a + b, fate, w) ==
      (var (err, w1) := RunJobs(a, fate, w);
       if err.Some? then (err, w1) else RunJobs(b, fate, w1))
  {
    if a != [] {
      assert (a + b)[0] == a[0];
      assert (a + b)[1..] == a[1..] + b;
      var (r, w1) := MergeSpec(a[0].gh, a[0].k8s, fate(a[0]), w);
      if r == Merged {
        RunJobsConcat(a[1..], b, fate, w1);
      }
    } else {
      assert a + b == b;
    }
  }

  /** A pass of one job is that job's Merge call. */
  lemma RunJobsSingle(job: Job, fate: Job -> MergeFate, w: World)
    ensures var (r, w1) := MergeSpec(job.gh, job.k8s, fate(job), w);
      RunJobs([job], fate, w) == (MergeOutcome(r), w1)
  {
    assert [job][1..] == [];
  }

  /** One more Merge call after a prefix that succeeded: it extends the prefix or ends the whole pass. */
  lemma RunJobsStep(prefix: seq<Job>, job: Job, rest: seq<Job>, fate: Job -> MergeFate, w0: World, w1: World)
    requires (None, w1) == RunJobs(prefix, fate, w0)
    ensures var (r, w2) := MergeSpec(job.gh, job.k8s, fate(job), w1);
      (r == Merged ==> RunJobs(prefix + [job], fate, w0) == (None, w2)) &&
      (r != Merged ==> RunJobs(prefix + [job] + rest, fate, w0) == (MergeOutcome(r), w2))
  {
    RunJobsConcat(prefix, [job], fate, w0);
    RunJobsSingle(job, fate, w1);
    RunJobsConcat(prefix + [job], rest, fate, w0);
  }

  /** The same step, at index `i` of a list of jobs run after `done`. */
  lemma PassStep(done: seq<Job>, jobs: seq<Job>, i: nat, fate: Job -> MergeFate, w0: World, w1: World)
    requires i < |jobs|
    requires (None, w1) == RunJobs(done + jobs[..i], fate, w0)
    ensures var (r, w2) := MergeSpec(jobs[i].gh, jobs[i].k8s, fate(jobs[i]), w1);
      (r == Merged ==> RunJobs(done + jobs[..i + 1], fate, w0) == (None, w2)) &&
      (r != Merged ==> RunJobs(done + jobs, fate, w0) == (MergeOutcome(r), w2))
  {
    SplitAt(done, jobs, i);
    RunJobsStep(done + jobs[..i], jobs[i], jobs[i + 1..], fate, w0, w1);
  }

  /** No pull-request mirror is ever deleted by a pass. */
  lemma {:induction false} RunJobsKeepsKeys(jobs: seq<Job>, fate: Job -> MergeFate, w: World)
    ensures w.store.objects.Keys <= RunJobs(jobs, fate, w).1.store.objects.Keys
  {
    if jobs != [] {
      var (r, w1) := MergeSpec(jobs[0].gh, jobs[0].k8s, fate(jobs[0]), w);
      if r == Merged {
        RunJobsKeepsKeys(jobs[1..], fate, w1);
      }
    }
  }

  /** Every Merge call of a pass has at least one side: the panic branch is unreachable. */
  lemma {:induction false} RunJobsNeverPanics(jobs: seq<Job>, fate: Job -> MergeFate, w: World)
    requires forall j :: j in jobs ==> j.gh.Some? || j.k8s.Some?
    ensures RunJobs(jobs, fate, w).0 != Some(MergePanicked)
  {
    if jobs != [] {
      assert jobs[0] in jobs;
      var (r, w1) := MergeSpec(jobs[0].gh, jobs[0].k8s, fate(jobs[0]), w);
      if r == Merged {
        assert forall j :: j in jobs[1..] ==> j in jobs;
        RunJobsNeverPanics(jobs[1..], fate, w1);
      }
    }
  }

  /** When every key has both a remote and a local mirror, a pass changes nothing. */
  lemma {:induction false} RunJobsIdleWhenMirrored(jobs: seq<Job>, fate: Job -> MergeFate, w: World)
    requires forall j :: j in jobs ==> j.gh.Some? && j.k8s.Some?
    ensures RunJobs(jobs, fate, w) == (None, w)
  {
    if jobs != [] {
      assert jobs[0] in jobs;
      assert forall j :: j in jobs[1..] ==> j in jobs;
      RunJobsIdleWhenMirrored(jobs[1..], fate, w);
    }
  }

  /** One more Merge call after calls that all succeeded. */
  lemma IdJobsStep(order: seq<string>, id: string, inGithubByID: map<string, GitPullRequest>,
                   inK8sByID: map<string, GitPullRequest>, fate: Job -> MergeFate, w0: World)
    requires RunJobs(IdJobs(order, inGithubByID, inK8sByID), fate, w0).0.None?
    ensures var job := JobFor(id, inGithubByID, inK8sByID);
      var m := MergeSpec(job.gh, job.k8s, fate(job), RunJobs(IdJobs(order, inGithubByID, inK8sByID), fate, w0).1);
      RunJobs(IdJobs(order + [id], inGithubByID, inK8sByID), fate, w0) == (MergeOutcome(m.0), m.1)
  {
    var job := JobFor(id, inGithubByID, inK8sByID);
    IdJobsConcat(order, [id], inGithubByID, inK8sByID);
    assert IdJobs([id], inGithubByID, inK8sByID) == [job];
    RunJobsConcat(IdJobs(order, inGithubByID, inK8sByID), [job], fate, w0);
    RunJobsSingle(job, fate, RunJobs(IdJobs(order, inGithubByID, inK8sByID), fate, w0).1);
  }

  /** After a failed call, the ids never visited and the id-less mirrors are never merged. */
  lemma IdJobsStopped(order: seq<string>, rest: seq<string>, inGithubByID: map<string, GitPullRequest>,
                      inK8sByID: map<string, GitPullRequest>, pending: seq<Job>, fate: Job -> MergeFate, w0: World)
    requires RunJobs(IdJobs(order, inGithubByID, inK8sByID), fate, w0).0.Some?
    ensures RunJobs(IdJobs(order + rest, inGithubByID, inK8sByID) + pending, fate, w0) ==
            RunJobs(IdJobs(order, inGithubByID, inK8sByID), fate, w0)
  {
    var done := IdJobs(order, inGithubByID, inK8sByID);
    var restJobs := IdJobs(rest, inGithubByID, inK8sByID);
    IdJobsConcat(order, rest, inGithubByID, inK8sByID);
    assert done + restJobs + pending == done + (restJobs + pending);
    RunJobsConcat(done, restJobs + pending, fate, w0);
  }

  /** The jobs of two visit orders in a row are the jobs of each, in a row. */
  lemma IdJobsConcat(a: seq<string>, b: seq<string>, inGithubByID: map<string, GitPullRequest>,
                     inK8sByID: map<string, GitPullRequest>)
    ensures IdJobs(a + b, inGithubByID, inK8sByID) == IdJobs(a, inGithubByID, inK8sByID) + IdJobs(b, inGithubByID, inK8sByID)
  {
  }

  /**
   * ReconcilePullRequests once the remote mirrors and the local list are known:
   * one Merge per id, in the visit order `order`, then one per id-less local
   * mirror in list order.
   */
  function PullSyncSpec(ghs: seq<GitPullRequest>, local: seq<GitPullRequest>, order: seq<string>,
                        fate: Job -> MergeFate, w: World): (r: (Option<PullSyncError>, World))
    ensures w.store.objects.Keys <= r.1.store.objects.Keys
  {
    RunJobsKeepsKeys(IdJobs(order, IndexById(ghs), LocalIndexById(local)) + PendingJobs(WithoutId(local)), fate, w);
    RunJobs(IdJobs(order, IndexById(ghs), LocalIndexById(local)) + PendingJobs(WithoutId(local)), fate, w)
  }

  /** Whatever the visit order, a pass never reaches Merge's panic. */
  lemma PullSyncNeverPanics(ghs: seq<GitPullRequest>, local: seq<GitPullRequest>, order: seq<string>,
                            fate: Job -> MergeFate, w: World)
    requires IsEnumeration(order, AllIds(ghs, local))
    ensures PullSyncSpec(ghs, local, order, fate, w).0 != Some(MergePanicked)
  {
    var jobs := IdJobs(order, IndexById(ghs), LocalIndexById(local)) + PendingJobs(WithoutId(local));
    forall j | j in jobs
      ensures j.gh.Some? || j.k8s.Some?
    {
      var i :| 0 <= i < |jobs| && jobs[i] == j;
      if i < |order| {
        assert order[i] in AllIds(ghs, local);
      }
    }
    RunJobsNeverPanics(jobs, fate, w);
  }

  /**
   * A second pass changes nothing when every id is on both sides and no local
   * mirror lacks an id, whatever the fields of the two sides hold.
   */
  lemma PullSyncIdleWhenMirrored(ghs: seq<GitPullRequest>, local: seq<GitPullRequest>, order: seq<string>,
                                 fate: Job -> MergeFate, w: World)
    requires IsEnumeration(order, AllIds(ghs, local))
    requires IndexById(ghs).Keys == LocalIndexById(local).Keys
    requires forall m :: m in local ==> m.status.id != ""
    ensures PullSyncSpec(ghs, local, order, fate, w) == (None, w)
  {
    WithoutIdEmpty(local);
    var jobs := IdJobs(order, IndexById(ghs), LocalIndexById(local));
    assert PendingJobs(WithoutId(local)) == [];
    assert jobs + PendingJobs(WithoutId(local)) == jobs;
    MirroredJobsHaveBothSides(ghs, local, order);
    RunJobsIdleWhenMirrored(jobs, fate, w);
  }

  /** When the two indexes have the same ids, every id's job has both sides. */
  lemma MirroredJobsHaveBothSides(ghs: seq<GitPullRequest>, local: seq<GitPullRequest>, order: seq<string>)
    requires IsEnumeration(order, AllIds(ghs, local))
    requires IndexById(ghs).Keys == LocalIndexById(local).Keys
    ensures forall j :: j in IdJobs(order, IndexById(ghs), LocalIndexById(local)) ==> j.gh.Some? && j.k8s.Some?
  {
    var jobs := IdJobs(order, IndexById(ghs), LocalIndexById(local));
    forall j | j in jobs
      ensures j.gh.Some? && j.k8s.Some?
    {
      var i :| 0 <= i < |jobs| && jobs[i] == j;
      assert order[i] in AllIds(ghs, local);
    }
  }

  /**
   * A local mirror whose id is missing from the remote listing (which only
   * holds pull requests updated since the last pass) is handed to
   * createInGithub, which opens the pull request again when the hosting
   * service accepts it.
   */
  lemma StaleMirrorReopened(ghs: seq<GitPullRequest>, local: seq<GitPullRequest>, id: string,
                            fate: MergeFate, w: World)
    requires id in LocalIndexById(local) && id !in IndexById(ghs)
    requires fate.numberGiven.Some?
    ensures var m := LocalIndexById(local)[id];
      var job := JobFor(id, IndexById(ghs), LocalIndexById(local));
      job == Job(None, Some(m)) &&
      MergeSpec(job.gh, job.k8s, fate, w).1.hosting.pulls ==
        w.hosting.pulls + [OpenedPullRequest(m.spec.repository, fate.numberGiven.value, RequestFor(m))]
  {
  }

  // ===========================================================================
  // Opening a pull request

  /** The connector's own pull-request request. */
  datatype PullRequest = PullRequest(repository: string, title: string, body: string, base: string,
                                     head: string, reviewers: seq<string>)

  datatype CreatePullRequestError = CreateFailed | AddReviewersFailed

  /**
   * CreatePullRequest: open the pull request in `owner/repoName` (the
   * request's own repository field is not used), then request reviews only
   * when reviewers are named. A failed open requests nothing.
   */
  function CreatePullRequestSpec(owner: string, repoName: string, pr: PullRequest, numberGiven: Option<int>,
                                 reviewOk: bool, h: HostingState): (r: (Option<CreatePullRequestError>, HostingState))
    ensures numberGiven.None? ==> r == (Some(CreateFailed), h)
    ensures numberGiven.Some? ==>
      r.1.pulls == h.pulls + [OpenedPullRequest(RepositoryName(owner, repoName), numberGiven.value,
                                                PullRequestInput(pr.title, pr.body, pr.base, pr.head))]
    ensures |pr.reviewers| == 0 ==> r.1.reviewRequests == h.reviewRequests
    ensures r.0.None? <==> numberGiven.Some? && (|pr.reviewers| > 0 ==> reviewOk)
    ensures r.0.None? && |pr.reviewers| > 0 ==>
      r.1.reviewRequests == h.reviewRequests + [ReviewRequest(RepositoryName(owner, repoName), numberGiven.value, pr.reviewers)]
  {
    var repository := RepositoryName(owner, repoName);
    var (number, h1) := OpenSpec(h, repository, PullRequestInput(pr.title, pr.body, pr.base, pr.head), numberGiven);
    if number.None? then (Some(CreateFailed), h1)
    else if |pr.reviewers| > 0 then
      var (reviewed, h2) := RequestReviewSpec(h1, repository, number.value, pr.reviewers, reviewOk);
      (if reviewed then None else Some(AddReviewersFailed), h2)
    else (None, h1)
  }

  // ===========================================================================
  // The connector

  class Github {
    const branches: Store<GitBranch>
    const pullRequests: Store<GitPullRequest>
    const hosting: Hosting
    const owner: string
    const repoName: string
    var repo: Option<Checkout>
    var pushed: seq<string>

    function GitStateOf(): GitState
      reads this
    {
      GitState(repo, pushed)
    }

    function PullState(): World
      reads pullRequests, hosting
    {
      World(pullRequests.State(), hosting.State())
    }

    function FetcherFor(repository: GitRepository): Fetcher {
      Fetcher(repository, owner, repoName)
    }

    constructor (branches: Store<GitBranch>, pullRequests: Store<GitPullRequest>, hosting: Hosting,
                 owner: string, repoName: string)
      ensures this.branches == branches && this.pullRequests == pullRequests && this.hosting == hosting
      ensures this.owner == owner && this.repoName == repoName
      ensures repo == None && pushed == []
    {
      this.branches := branches;
      this.pullRequests := pullRequests;
      this.hosting := hosting;
      this.owner := owner;
      this.repoName := repoName;
      repo := None;
      pushed := [];
    }

    /** Push: needs the checkout a successful Clone leaves in `repo`. */
    method Push(pushOk: bool) returns (err: Option<GitError>)
      modifies this
      ensures (err, GitStateOf()) == PushSpec(old(GitStateOf()), pushOk)
    {
      if repo.None? {
        return Some(NeedCloneFirst);
      }
      if !pushOk {
        return Some(PushFailed);
      }
      pushed := pushed + [repo.value.url];
      return None;
    }

    /** Clone: the branch argument of the source is not used, so it is not modelled. */
    method Clone(cloneOk: bool, worktreeOk: bool) returns (err: Option<GitError>)
      modifies this
      ensures (err, GitStateOf()) == CloneSpec(old(GitStateOf()), CloneUrl(owner, repoName), cloneOk, worktreeOk)
    {
      if !cloneOk {
        return Some(CloneFailed);
      }
      repo := Some(Checkout(CloneUrl(owner, repoName)));
      if !worktreeOk {
        return Some(WorktreeFailed);
      }
      return None;
    }

    method ReconcileBranches(repository: GitRepository, listed: Option<seq<ScmReference>>, now: int,
                             local: Option<seq<GitBranch>>, writeOk: GitBranch -> bool)
      returns (err: Option<BranchSyncError>)
      modifies branches
      ensures (err, branches.State()) ==
        ReconcileBranchesSpec(FetcherFor(repository), listed, now, local, writeOk, old(branches.State()))
    {
      var built := BuildBranchMirrors(FetcherFor(repository), listed, now);
      if built.Err? {
        return Some(BranchFetchFailed);
      }
      if local.None? {
        return Some(BranchListFailed);
      }
      var ghs := built.value;
      var k8s := local.value;
      var inK8sByName: map<string, GitBranch> := map[];
      for i := 0 to |k8s|
        invariant inK8sByName == IndexByBranchName(k8s[..i])
      {
        assert k8s[..i + 1][..i] == k8s[..i];
        inK8sByName := inK8sByName[k8s[i].spec.branchName := k8s[i]];
      }
      assert k8s[..|k8s|] == k8s;
      ghost var s0 := branches.State();
      for i := 0 to |ghs|
        invariant (None, branches.State()) == RunBranches(inK8sByName, ghs[..i], writeOk, s0)
      {
        var gh := ghs[i];
        BranchPassStep(inK8sByName, ghs, i, writeOk, s0, branches.State());
        if gh.spec.branchName !in inK8sByName {
          var created := branches.Create(KeyOf(gh.meta), gh, writeOk(gh));
          if !created {
            return Some(CreateBranchFailed(gh.spec.branchName));
          }
        } else if inK8sByName[gh.spec.branchName].status.head != gh.status.head {
          var updated := branches.Update(KeyOf(gh.meta), gh, writeOk(gh));
          if !updated {
            return Some(UpdateBranchFailed(gh.spec.branchName));
          }
        }
      }
      assert ghs[..|ghs|] == ghs;
      return None;
    }

    /**
     * The `allIds` loop: one Merge per id, in an order of the loop's own
     * choosing. On a failure the order is completed with the ids never
     * visited, which shows that `pending` never runs either.
     */
    method MergeIds(diff: PullRequestDiff, allIds: set<string>, inGithubByID: map<string, GitPullRequest>,
                    inK8sByID: map<string, GitPullRequest>, ghost pending: seq<Job>, fate: Job -> MergeFate)
      returns (err: Option<PullSyncError>, ghost order: seq<string>)
      requires diff.client == pullRequests && diff.github == hosting
      modifies pullRequests, hosting
      ensures IsEnumeration(order, allIds)
      ensures err.None? ==> (None, PullState()) == RunJobs(IdJobs(order, inGithubByID, inK8sByID), fate, old(PullState()))
      ensures err.Some? ==>
        (err, PullState()) == RunJobs(IdJobs(order, inGithubByID, inK8sByID) + pending, fate, old(PullState()))
    {
      ghost var w0 := PullState();
      order := [];
      var remaining := allIds;
      while remaining != {}
        invariant remaining <= allIds
        invariant IsEnumeration(order, allIds - remaining)
        invariant (None, PullState()) == RunJobs(IdJobs(order, inGithubByID, inK8sByID), fate, w0)
        decreases |remaining|
      {
        var id :| id in remaining;
        var job := JobFor(id, inGithubByID, inK8sByID);
        IdJobsStep(order, id, inGithubByID, inK8sByID, fate, w0);
        EnumerationStep(order, allIds, remaining, id);
        var r := diff.Merge(job.gh, job.k8s, fate(job));
        order := order + [id];
        remaining := remaining - {id};
        assert (MergeOutcome(r), PullState()) == RunJobs(IdJobs(order, inGithubByID, inK8sByID), fate, w0);
        if r != Merged {
          IdJobsStopped(order, Enumerate(remaining), inGithubByID, inK8sByID, pending, fate, w0);
          EnumerationComplete(order, allIds, remaining);
          order := order + Enumerate(remaining);
          return MergeOutcome(r), order;
        }
      }
      assert allIds - remaining == allIds;
      return None, order;
    }

    /** The loop over the local mirrors without an id, each sent to Merge with no remote side. */
    method MergePending(diff: PullRequestDiff, inK8sWithoutID: seq<GitPullRequest>, ghost done: seq<Job>,
                        fate: Job -> MergeFate, ghost w0: World)
      returns (err: Option<PullSyncError>)
      requires diff.client == pullRequests && diff.github == hosting
      requires (None, PullState()) == RunJobs(done, fate, w0)
      modifies pullRequests, hosting
      ensures (err, PullState()) == RunJobs(done + PendingJobs(inK8sWithoutID), fate, w0)
    {
      ghost var pending := PendingJobs(inK8sWithoutID);
      assert done + pending[..0] == done;
      for i := 0 to |inK8sWithoutID|
        invariant (None, PullState()) == RunJobs(done + pending[..i], fate, w0)
      {
        var job := Job(None, Some(inK8sWithoutID[i]));
        PassStep(done, pending, i, fate, w0, PullState());
        var r := diff.Merge(None, Some(inK8sWithoutID[i]), fate(job));
        if r != Merged {
          return MergeOutcome(r);
        }
      }
      assert pending[..|inK8sWithoutID|] == pending;
      return None;
    }

    method ReconcilePullRequests(repository: GitRepository, listed: Option<seq<ScmPullRequest>>,
                                 reviewsOf: int -> Option<seq<Review>>, local: Option<seq<GitPullRequest>>,
                                 fate: Job -> MergeFate)
      returns (err: Option<PullSyncError>, ghost order: seq<string>)
      modifies pullRequests, hosting
      ensures (listed.None? || !AllReviewsListed(listed.value, reviewsOf)) ==>
        err == Some(PullFetchFailed) && PullState() == old(PullState())
      ensures listed.Some? && AllReviewsListed(listed.value, reviewsOf) && local.None? ==>
        err == Some(PullListFailed) && PullState() == old(PullState())
      ensures listed.Some? && AllReviewsListed(listed.value, reviewsOf) && local.Some? ==>
        var ghs := PullRequestMirrors(FetcherFor(repository), listed.value, reviewsOf);
        IsEnumeration(order, AllIds(ghs, local.value)) &&
        (err, PullState()) == PullSyncSpec(ghs, local.value, order, fate, old(PullState()))
    {
      order := [];
      var built := BuildPullRequestMirrors(FetcherFor(repository), listed, reviewsOf);
      if built.Err? {
        return Some(PullFetchFailed), order;
      }
      if local.None? {
        return Some(PullListFailed), order;
      }
      var ghs := built.value;
      var inGithubByID, inK8sByID, inK8sWithoutID, allIds := Partition(ghs, local.value);
      var diff := new PullRequestDiff(pullRequests, hosting);
      ghost var w0 := PullState();
      ghost var pending := PendingJobs(inK8sWithoutID);
      err, order := MergeIds(diff, allIds, inGithubByID, inK8sByID, pending, fate);
      if err.Some? {
        return err, order;
      }
      err := MergePending(diff, inK8sWithoutID, IdJobs(order, inGithubByID, inK8sByID), fate, w0);
    }

    method CreatePullRequest(pr: PullRequest, numberGiven: Option<int>, reviewOk: bool)
      returns (err: Option<CreatePullRequestError>)
      modifies hosting
      ensures (err, hosting.State()) == CreatePullRequestSpec(owner, repoName, pr, numberGiven, reviewOk, old(hosting.State()))
    {
      var repository := RepositoryName(owner, repoName);
      var number := hosting.OpenPullRequest(repository, PullRequestInput(pr.title, pr.body, pr.base, pr.head), numberGiven);
      if number.None? {
        return Some(CreateFailed);
      }
      if |pr.reviewers| > 0 {
        var reviewed := hosting.RequestReview(repository, number.value, pr.reviewers, reviewOk);
        if !reviewed {
          return Some(AddReviewersFailed);
        }
      }
      return None;
    }
  }
}
