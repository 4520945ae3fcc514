/**
 * The older copy of the synchroniser in the controllers package:
 *
 * - the GithubFetcher builders of controllers/github.go, which put the pull
 *   request's id and ref in the mirror's spec rather than its status;
 * - the helpers of controllers/util.go, which build a pull-request mirror
 *   from the pull request's own reviewer list and name it after the full
 *   `owner/repo`;
 * - the per-key Merge of controllers/pull_request.go, whose createInGithub
 *   never writes anything back and whose local-only branch reads the name of
 *   the absent remote mirror.
 *
 * controllers/github.go calls a `branchName` helper that its package does not
 * define; the model uses the connectors package's `<repository>-<branch>`.
 */
module LegacyControllers {
  import opened Wrappers
  import opened GoStrings
  import opened Objects
  import opened Naming
  import opened Reviews
  import opened Cluster
  import opened PullRequestSync

  datatype LegacyFetchError = LegacyListFailed | LegacyReviewsListFailed(number: int)

  // ===========================================================================
  // controllers/github.go

  /** The mirror the older BuildPRCRDFromGithub builds once the reviews are known. */
  function LegacyPullRequestMirror(repository: GitRepository, pr: ScmPullRequest, reviews: seq<Review>): GitPullRequest
  {
    var repositoryName := GetRepositoryName(repository);
    GitPullRequest(
      ObjectMeta(PullRequestName(repository.name, pr.number), repository.namespace,
                 map[RepositoryLabel := repository.name]),
      GitPullRequestSpec(
        repository := repositoryName,
        id := Itoa(pr.number),
        sha := pr.sha,
        ref := pr.ref,
        fork := pr.fork,
        head := Head(pr.fork, pr.source, repositoryName),
        title := pr.title,
        body := pr.body,
        base := pr.target,
        reviewers := ReviewerLogins(reviews)),
      GitPullRequestStatus(id := "", ref := "", url := pr.link, author := pr.authorLogin,
                           approvers := Approvals(reviews)))
  }

  /** The older mirror keeps the id and ref in its spec and leaves them out of its status. */
  lemma LegacyPullRequestMirrorFields(repository: GitRepository, pr: ScmPullRequest, reviews: seq<Review>)
    ensures var m := LegacyPullRequestMirror(repository, pr, reviews);
      m.meta.name == PullRequestName(repository.name, pr.number) &&
      m.meta.namespace == repository.namespace &&
      m.meta.labels == map[RepositoryLabel := repository.name] &&
      ParseInt(m.spec.id) == Some(pr.number) && m.spec.ref == pr.ref &&
      m.status.id == "" && m.status.ref == "" &&
      m.status.url == pr.link && m.status.author == pr.authorLogin &&
      m.spec.head == Head(pr.fork, pr.source, GetRepositoryName(repository)) &&
      m.spec.reviewers == ReviewerLogins(reviews) && m.status.approvers == Approvals(reviews)
  {
    ItoaRoundTrip(pr.number);
  }

  /** BuildPRCRDFromGithub (controllers): list the reviews, fold them, build the mirror. */
  method BuildLegacyPullRequestMirror(repository: GitRepository, pr: ScmPullRequest, reviews: Option<seq<Review>>)
    returns (r: Result<GitPullRequest, LegacyFetchError>)
    ensures reviews.None? ==> r == Err(LegacyReviewsListFailed(pr.number))
    ensures reviews.Some? ==> r == Ok(LegacyPullRequestMirror(repository, pr, reviews.value))
  {
    if reviews.None? {
      return Err(LegacyReviewsListFailed(pr.number));
    }
    var reviewers, approvers := FoldReviews(reviews.value);
    var repositoryName := GetRepositoryName(repository);
    var head := pr.source;
    if pr.fork != repositoryName {
      head := Split(pr.fork, '/')[0] + ":" + head;
    }
    var m := GitPullRequest(
      ObjectMeta(PullRequestName(repository.name, pr.number), repository.namespace,
                 map[RepositoryLabel := repository.name]),
      GitPullRequestSpec(repositoryName, Itoa(pr.number), pr.sha, pr.ref, pr.fork, head, pr.title, pr.body,
                         pr.target, reviewers),
      GitPullRequestStatus("", "", pr.link, pr.authorLogin, approvers));
    return Ok(m);
  }

  /** BuildPRCRDsFromGithub (controllers): all or nothing, in list order. */
  method BuildLegacyPullRequestMirrors(repository: GitRepository, listed: Option<seq<ScmPullRequest>>,
                                       reviewsOf: int -> Option<seq<Review>>)
    returns (r: Result<seq<GitPullRequest>, LegacyFetchError>)
    ensures listed.None? ==> r == Err(LegacyListFailed)
    ensures listed.Some? && (exists i :: 0 <= i < |listed.value| && reviewsOf(listed.value[i].number).None?) ==>
      r.Err?
    ensures listed.Some? && (forall i :: 0 <= i < |listed.value| ==> reviewsOf(listed.value[i].number).Some?) ==>
      r.Ok? && |r.value| == |listed.value| &&
      forall i :: 0 <= i < |listed.value| ==>
        r.value[i] == LegacyPullRequestMirror(repository, listed.value[i], reviewsOf(listed.value[i].number).value)
  {
    if listed.None? {
      return Err(LegacyListFailed);
    }
    var prs := listed.value;
    var mirrors: seq<GitPullRequest> := [];
    for i := 0 to |prs|
      invariant forall j :: 0 <= j < i ==> reviewsOf(prs[j].number).Some?
      invariant |mirrors| == i
      invariant forall j :: 0 <= j < i ==>
        mirrors[j] == LegacyPullRequestMirror(repository, prs[j], reviewsOf(prs[j].number).value)
    {
      var m := BuildLegacyPullRequestMirror(repository, prs[i], reviewsOf(prs[i].number));
      if m.Err? {
        assert 0 <= i < |listed.value| && reviewsOf(listed.value[i].number).None?;
        return Err(m.error);
      }
      mirrors := mirrors + [m.value];
    }
    return Ok(mirrors);
  }

  /** The mirror the older BuildBranchCRDFromGithub builds for one branch reference. */
  function LegacyBranchMirror(repository: GitRepository, branch: ScmReference, now: int): (m: GitBranch)
    ensures m.meta.name == BranchName(repository.name, branch.name)
    ensures m.meta.labels == map[RepositoryLabel := repository.name, BranchLabel := branch.name]
    ensures m.spec.repository == GetRepositoryName(repository)
    ensures m.spec.branchName == branch.name && m.status.head == branch.sha
  {
    GitBranch(
      ObjectMeta(BranchName(repository.name, branch.name), repository.namespace,
                 map[RepositoryLabel := repository.name, BranchLabel := branch.name]),
      GitBranchSpec(GetRepositoryName(repository), branch.name),
      GitBranchStatus(now, branch.sha))
  }

  /** BuildBranchCRDsFromGithub (controllers): one mirror per listed branch, in list order. */
  method BuildLegacyBranchMirrors(repository: GitRepository, listed: Option<seq<ScmReference>>, now: int)
    returns (r: Result<seq<GitBranch>, LegacyFetchError>)
    ensures listed.None? ==> r == Err(LegacyListFailed)
    ensures listed.Some? ==>
      r.Ok? && |r.value| == |listed.value| &&
      forall i :: 0 <= i < |listed.value| ==> r.value[i] == LegacyBranchMirror(repository, listed.value[i], now)
  {
    if listed.None? {
      return Err(LegacyListFailed);
    }
    var branches := listed.value;
    var mirrors: seq<GitBranch> := [];
    for i := 0 to |branches|
      invariant |mirrors| == i
      invariant forall j :: 0 <= j < i ==> mirrors[j] == LegacyBranchMirror(repository, branches[j], now)
    {
      mirrors := mirrors + [LegacyBranchMirror(repository, branches[i], now)];
    }
    return Ok(mirrors);
  }

  // ===========================================================================
  // controllers/util.go

  /** The mirror buildPullRequestCRDFromGithub builds from a pull request alone. */
  function UtilPullRequestMirror(pr: ScmPullRequest, repository: GitRepository): (m: GitPullRequest)
    ensures m.meta.name == PullRequestName(GetRepositoryName(repository), pr.number)
    ensures m.meta.namespace == repository.namespace && m.meta.labels == map[]
    ensures ParseInt(m.spec.id) == Some(pr.number) && m.spec.ref == pr.ref
    ensures m.spec.reviewers == pr.reviewerLogins
    ensures m.status.url == pr.link && m.status.author == pr.authorLogin
  {
    ItoaRoundTrip(pr.number);
    var repositoryName := GetRepositoryName(repository);
    GitPullRequest(
      ObjectMeta(PullRequestName(repositoryName, pr.number), repository.namespace, map[]),
      GitPullRequestSpec(
        repository := repositoryName,
        id := Itoa(pr.number),
        sha := pr.sha,
        ref := pr.ref,
        fork := pr.fork,
        head := "",
        title := pr.title,
        body := "",
        base := "",
        reviewers := pr.reviewerLogins),
      GitPullRequestStatus(id := "", ref := "", url := pr.link, author := pr.authorLogin, approvers := map[]))
  }

  /** buildPullRequestCRDFromGithub: the reviewer slice is allocated at full length and filled by index. */
  method BuildUtilPullRequestMirror(pr: ScmPullRequest, repository: GitRepository) returns (m: GitPullRequest)
    ensures m == UtilPullRequestMirror(pr, repository)
  {
    var repositoryName := GetRepositoryName(repository);
    var reviewers := new string[|pr.reviewerLogins|];
    for i := 0 to |pr.reviewerLogins|
      invariant reviewers[..i] == pr.reviewerLogins[..i]
    {
      reviewers[i] := pr.reviewerLogins[i];
    }
    assert reviewers[..] == pr.reviewerLogins;
    m := GitPullRequest(
      ObjectMeta(PullRequestName(repositoryName, pr.number), repository.namespace, map[]),
      GitPullRequestSpec(repositoryName, Itoa(pr.number), pr.sha, pr.ref, pr.fork, "", pr.title, "", "", reviewers[..]),
      GitPullRequestStatus("", "", pr.link, pr.authorLogin, map[]));
  }

  /** buildPullRequestCRDsFromGithub: one mirror per pull request, in order; nothing can fail. */
  method BuildUtilPullRequestMirrors(prs: seq<ScmPullRequest>, repository: GitRepository)
    returns (ms: seq<GitPullRequest>)
    ensures |ms| == |prs|
    ensures forall i :: 0 <= i < |prs| ==> ms[i] == UtilPullRequestMirror(prs[i], repository)
  {
    ms := [];
    for i := 0 to |prs|
      invariant |ms| == i
      invariant forall j :: 0 <= j < i ==> ms[j] == UtilPullRequestMirror(prs[j], repository)
    {
      var m := BuildUtilPullRequestMirror(prs[i], repository);
      ms := ms + [m];
    }
  }

  /**
   * Because the name is built from the full `owner/repo`, a mirror of a
   * repository with GitHub coordinates always has a '/' in its name, which a
   * Kubernetes object name does not allow.
   */
  lemma UtilMirrorNameHasSlash(pr: ScmPullRequest, repository: GitRepository)
    requires repository.github.Some?
    ensures '/' in UtilPullRequestMirror(pr, repository).meta.name
  {
    var owner := repository.github.value.owner;
    var name := UtilPullRequestMirror(pr, repository).meta.name;
    assert name[|owner|] == '/';
  }

  // ===========================================================================
  // controllers/pull_request.go

  datatype LegacyMergeResult = LegacyMerged | LegacyCreateFailed(name: string, namespace: string) | LegacyPanicked | NilDereference

  /**
   * createInGithub (controllers): open the pull request in the mirror's
   * repository and discard the result; the mirror is never updated.
   */
  function LegacyCreateInGithubSpec(pr: GitPullRequest, numberGiven: Option<int>, h: HostingState): (r: (bool, HostingState))
    ensures r.0 <==> numberGiven.Some?
    ensures r.1 == OpenSpec(h, pr.spec.repository, RequestFor(pr), numberGiven).1
  {
    var (number, h1) := OpenSpec(h, pr.spec.repository, RequestFor(pr), numberGiven);
    (number.Some?, h1)
  }

  /**
   * Merge (controllers): remote only, create the mirror; local only, open the
   * pull request and then dereference the absent remote mirror; neither,
   * panic; both, nothing.
   */
  function LegacyMergeSpec(gh: Option<GitPullRequest>, k8s: Option<GitPullRequest>, createOk: bool,
                           numberGiven: Option<int>, w: World): (r: (LegacyMergeResult, World))
    ensures gh.Some? && k8s.None? ==>
      r.1.hosting == w.hosting &&
      (r.0 == LegacyMerged <==> createOk && KeyOf(gh.value.meta) !in w.store.objects) &&
      r.1.store.objects == (if r.0 == LegacyMerged then w.store.objects[KeyOf(gh.value.meta) := gh.value] else w.store.objects)
    ensures gh.None? && k8s.Some? ==>
      r.1.store == w.store && r.1.hosting == LegacyCreateInGithubSpec(k8s.value, numberGiven, w.hosting).1
    ensures gh.None? && k8s.None? ==> r == (LegacyPanicked, w)
    ensures gh.Some? && k8s.Some? ==> r == (LegacyMerged, w)
  {
    if gh.Some? && k8s.None? then
      var (created, s1) := CreateSpec(w.store, KeyOf(gh.value.meta), gh.value, createOk);
      (if created then LegacyMerged else LegacyCreateFailed(gh.value.meta.name, gh.value.meta.namespace), World(s1, w.hosting))
    else if gh.None? && k8s.Some? then
      var (_, h1) := LegacyCreateInGithubSpec(k8s.value, numberGiven, w.hosting);
      (NilDereference, World(w.store, h1))
    else if gh.None? && k8s.None? then
      (LegacyPanicked, w)
    else
      (LegacyMerged, w)
  }

  /**
   * As written, every local-only key ends in a nil dereference, after the pull
   * request may already have been opened, and no mirror is ever given an id.
   */
  lemma LegacyLocalOnlyCrashes(k8s: GitPullRequest, createOk: bool, numberGiven: Option<int>, w: World)
    ensures LegacyMergeSpec(None, Some(k8s), createOk, numberGiven, w).0 == NilDereference
    ensures numberGiven.Some? ==>
      LegacyMergeSpec(None, Some(k8s), createOk, numberGiven, w).1.hosting.pulls ==
        w.hosting.pulls + [OpenedPullRequest(k8s.spec.repository, numberGiven.value, RequestFor(k8s))]
    ensures LegacyMergeSpec(None, Some(k8s), createOk, numberGiven, w).1.store == w.store
  {
  }

  /**
   * The connectors package's Merge, which names the local mirror in its error,
   * never crashes on a local-only key and, on success, records the number.
   */
  lemma LocalOnlyMergeCompletes(k8s: GitPullRequest, fate: MergeFate, w: World)
    ensures MergeSpec(None, Some(k8s), fate, w).0 != Panicked
    ensures MergeSpec(None, Some(k8s), fate, w).0.MergeFailed? ==>
      MergeSpec(None, Some(k8s), fate, w).0.error == CreateRemoteFailed(k8s.meta.name, k8s.meta.namespace,
        CreateInGithubSpec(k8s, fate, w).0.value)
    ensures MergeSpec(None, Some(k8s), fate, w).0 == Merged ==>
      ParseInt(MergeSpec(None, Some(k8s), fate, w).1.store.objects[KeyOf(k8s.meta)].status.id) == fate.numberGiven
  {
  }
}
