/**
 * Building mirror resources from hosting-service records
 * (connectors/github_util.go, the GithubFetcher of the connectors package).
 *
 * Calls to the hosting service are inputs: the result of listing pull
 * requests, branches or deployments is an `Option` (None when the call
 * failed), and the reviews of a pull request come from `reviewsOf`, keyed by
 * pull-request number, with None for a failed call. The clock (`metav1.Now`)
 * is the input `now`.
 */
module MirrorBuild {
  import opened Wrappers
  import opened GoStrings
  import opened Objects
  import opened Naming
  import opened Reviews

  datatype FetchError = ListFailed | ReviewsListFailed(number: int)

  /** The fetcher is bound to one GitRepository resource and one `owner/repo`. */
  datatype Fetcher = Fetcher(repository: GitRepository, owner: string, repoName: string)

  function FetcherRepositoryName(f: Fetcher): string {
    RepositoryName(f.owner, f.repoName)
  }

  // ---------------------------------------------------------------------------
  // Pull requests

  /** The mirror BuildPRCRDFromGithub builds once the reviews are known. */
  function PullRequestMirror(f: Fetcher, pr: ScmPullRequest, reviews: seq<Review>): GitPullRequest
  {
    GitPullRequest(
      ObjectMeta(PullRequestName(f.repository.name, pr.number), f.repository.namespace,
                 map[RepositoryLabel := f.repository.name]),
      GitPullRequestSpec(
        repository := FetcherRepositoryName(f),
        id := "",
        sha := pr.sha,
        ref := "",
        fork := pr.fork,
        head := Head(pr.fork, pr.source, FetcherRepositoryName(f)),
        title := pr.title,
        body := pr.body,
        base := pr.target,
        reviewers := ReviewerLogins(reviews)),
      GitPullRequestStatus(
        id := Itoa(pr.number),
        ref := pr.ref,
        url := pr.link,
        author := pr.authorLogin,
        approvers := Approvals(reviews)))
  }

  /** The mirror's name and labels, and the id and ref in its status. */
  lemma PullRequestMirrorFields(f: Fetcher, pr: ScmPullRequest, reviews: seq<Review>)
    ensures var m := PullRequestMirror(f, pr, reviews);
      m.meta.name == PullRequestName(f.repository.name, pr.number) &&
      m.meta.namespace == f.repository.namespace &&
      m.meta.labels == map[RepositoryLabel := f.repository.name] &&
      ParseInt(m.status.id) == Some(pr.number) &&
      m.status.ref == pr.ref && m.status.url == pr.link && m.status.author == pr.authorLogin &&
      m.spec.head == Head(pr.fork, pr.source, FetcherRepositoryName(f)) &&
      m.spec.reviewers == ReviewerLogins(reviews) && m.status.approvers == Approvals(reviews)
  {
    ItoaRoundTrip(pr.number);
  }

  /** BuildPRCRDFromGithub: list the reviews, fold them, build the mirror. */
  method BuildPullRequestMirror(f: Fetcher, pr: ScmPullRequest, reviews: Option<seq<Review>>)
    returns (r: Result<GitPullRequest, FetchError>)
    ensures reviews.None? ==> r == Err(ReviewsListFailed(pr.number))
    ensures reviews.Some? ==> r == Ok(PullRequestMirror(f, pr, reviews.value))
  {
    if reviews.None? {
      return Err(ReviewsListFailed(pr.number));
    }
    var reviewers, approvers := FoldReviews(reviews.value);
    var repositoryName := FetcherRepositoryName(f);
    var head := pr.source;
    if pr.fork != repositoryName {
      head := Split(pr.fork, '/')[0] + ":" + head;
    }
    var m := GitPullRequest(
      ObjectMeta(PullRequestName(f.repository.name, pr.number), f.repository.namespace,
                 map[RepositoryLabel := f.repository.name]),
      GitPullRequestSpec(repositoryName, "", pr.sha, "", pr.fork, head, pr.title, pr.body, pr.target, reviewers),
      GitPullRequestStatus(Itoa(pr.number), pr.ref, pr.link, pr.authorLogin, approvers));
    return Ok(m);
  }

  /** True when every pull request's review listing succeeded. */
  predicate AllReviewsListed(prs: seq<ScmPullRequest>, reviewsOf: int -> Option<seq<Review>>) {
    forall i :: 0 <= i < |prs| ==> reviewsOf(prs[i].number).Some?
  }

  /** The mirrors of `prs`, one per pull request, in list order. */
  function PullRequestMirrors(f: Fetcher, prs: seq<ScmPullRequest>, reviewsOf: int -> Option<seq<Review>>): (ms: seq<GitPullRequest>)
    requires AllReviewsListed(prs, reviewsOf)
    ensures |ms| == |prs|
    ensures forall i :: 0 <= i < |prs| ==> ms[i] == PullRequestMirror(f, prs[i], reviewsOf(prs[i].number).value)
  {
    seq(|prs|, i requires 0 <= i < |prs| => PullRequestMirror(f, prs[i], reviewsOf(prs[i].number).value))
  }

  /**
   * BuildPRCRDsFromGithub: one mirror per listed pull request, in list order;
   * any failure yields an error and no partial list.
   */
  method BuildPullRequestMirrors(f: Fetcher, listed: Option<seq<ScmPullRequest>>,
                                 reviewsOf: int -> Option<seq<Review>>)
    returns (r: Result<seq<GitPullRequest>, FetchError>)
    ensures listed.None? ==> r == Err(ListFailed)
    ensures listed.Some? && !AllReviewsListed(listed.value, reviewsOf) ==> r.Err?
    ensures listed.Some? && AllReviewsListed(listed.value, reviewsOf) ==>
      r == Ok(PullRequestMirrors(f, listed.value, reviewsOf))
  {
    if listed.None? {
      return Err(ListFailed);
    }
    var prs := listed.value;
    var mirrors: seq<GitPullRequest> := [];
    var i := 0;
    while i < |prs|
      invariant 0 <= i <= |prs|
      invariant AllReviewsListed(prs[..i], reviewsOf)
      invariant mirrors == PullRequestMirrors(f, prs[..i], reviewsOf)
    {
      var m := BuildPullRequestMirror(f, prs[i], reviewsOf(prs[i].number));
      if m.Err? {
        assert !AllReviewsListed(listed.value, reviewsOf);
        return Err(m.error);
      }
      PullRequestMirrorsSnoc(f, prs, i, reviewsOf);
      mirrors := mirrors + [m.value];
      i := i + 1;
    }
    assert prs[..i] == prs;
    return Ok(mirrors);
  }

  /** Listing one more pull request appends its mirror. */
  lemma PullRequestMirrorsSnoc(f: Fetcher, prs: seq<ScmPullRequest>, i: nat, reviewsOf: int -> Option<seq<Review>>)
    requires i < |prs| && AllReviewsListed(prs[..i], reviewsOf) && reviewsOf(prs[i].number).Some?
    ensures AllReviewsListed(prs[..i + 1], reviewsOf)
    ensures PullRequestMirrors(f, prs[..i + 1], reviewsOf) ==
      PullRequestMirrors(f, prs[..i], reviewsOf) + [PullRequestMirror(f, prs[i], reviewsOf(prs[i].number).value)]
  {
    assert prs[..i + 1] == prs[..i] + [prs[i]];
  }

  // ---------------------------------------------------------------------------
  // Branches

  /** The mirror BuildBranchCRDFromGithub builds for one branch reference. */
  function BranchMirror(f: Fetcher, branch: ScmReference, now: int): (m: GitBranch)
    ensures m.meta.name == BranchName(f.repository.name, branch.name)
    ensures m.meta.labels == map[RepositoryLabel := f.repository.name, BranchLabel := branch.name]
    ensures m.spec.branchName == branch.name && m.status.head == branch.sha
  {
    GitBranch(
      ObjectMeta(BranchName(f.repository.name, branch.name), f.repository.namespace,
                 map[RepositoryLabel := f.repository.name, BranchLabel := branch.name]),
      GitBranchSpec(FetcherRepositoryName(f), branch.name),
      GitBranchStatus(now, branch.sha))
  }

  /** The mirrors of `refs`, one per branch, in list order. */
  function BranchMirrors(f: Fetcher, refs: seq<ScmReference>, now: int): (ms: seq<GitBranch>)
    ensures |ms| == |refs|
    ensures forall i :: 0 <= i < |refs| ==> ms[i] == BranchMirror(f, refs[i], now)
  {
    seq(|refs|, i requires 0 <= i < |refs| => BranchMirror(f, refs[i], now))
  }

  /**
   * BuildBranchCRDsFromGithub: one mirror per listed branch, in list order.
   * Building one mirror cannot fail, so only the listing can.
   */
  method BuildBranchMirrors(f: Fetcher, listed: Option<seq<ScmReference>>, now: int)
    returns (r: Result<seq<GitBranch>, FetchError>)
    ensures listed.None? ==> r == Err(ListFailed)
    ensures listed.Some? ==> r == Ok(BranchMirrors(f, listed.value, now))
  {
    if listed.None? {
      return Err(ListFailed);
    }
    var branches := listed.value;
    var mirrors: seq<GitBranch> := [];
    for i := 0 to |branches|
      invariant |mirrors| == i
      invariant forall j :: 0 <= j < i ==> mirrors[j] == BranchMirror(f, branches[j], now)
    {
      mirrors := mirrors + [BranchMirror(f, branches[i], now)];
    }
    assert mirrors == BranchMirrors(f, branches, now);
    return Ok(mirrors);
  }

  // ---------------------------------------------------------------------------
  // Deployments

  /** The mirror BuildDeploymentCRDFromGithub builds for one deployment. */
  function DeploymentMirror(f: Fetcher, d: ScmDeployment): (m: GitDeployment)
    ensures m.meta.name == DeploymentName(f.repository.name, d.name, d.ref)
    ensures m.meta.labels == map[RepositoryLabel := f.repository.name, DeploymentLabel := d.name]
    ensures m.spec.ref == m.status.ref == d.ref && m.spec.sha == m.status.sha == d.sha
    ensures m.spec.id == m.status.id == d.id && m.spec.name == m.status.name == d.name
    ensures m.spec.environment == m.status.environment == d.environment
    ensures !m.spec.autoMerge
  {
    GitDeployment(
      ObjectMeta(DeploymentName(f.repository.name, d.name, d.ref), f.repository.namespace,
                 map[RepositoryLabel := f.repository.name, DeploymentLabel := d.name]),
      GitDeploymentSpec(d.ref, d.sha, d.name, d.id, d.environment, d.description, false),
      GitDeploymentStatus(d.ref, d.sha, d.id, d.name, d.environment, d.link, d.statusLink))
  }

  /**
   * BuildDeploymentCRDsFromGithub: one mirror per listed deployment, in list
   * order. The per-item error check re-tests the already-nil listing error, so
   * only the listing can fail.
   */
  method BuildDeploymentMirrors(f: Fetcher, listed: Option<seq<ScmDeployment>>)
    returns (r: Result<seq<GitDeployment>, FetchError>)
    ensures listed.None? <==> r.Err?
    ensures listed.Some? ==>
      r.Ok? && |r.value| == |listed.value| &&
      forall i :: 0 <= i < |listed.value| ==> r.value[i] == DeploymentMirror(f, listed.value[i])
  {
    if listed.None? {
      return Err(ListFailed);
    }
    var deployments := listed.value;
    var mirrors: seq<GitDeployment> := [];
    for i := 0 to |deployments|
      invariant |mirrors| == i
      invariant forall j :: 0 <= j < i ==> mirrors[j] == DeploymentMirror(f, deployments[j])
    {
      mirrors := mirrors + [DeploymentMirror(f, deployments[i])];
    }
    return Ok(mirrors);
  }

  // ---------------------------------------------------------------------------
  // Properties of the built mirrors

  /**
   * Two pull requests of one repository with different numbers are mirrored
   * under different names and different status ids.
   */
  lemma PullRequestMirrorsDistinct(f: Fetcher, a: ScmPullRequest, b: ScmPullRequest,
                                   ra: seq<Review>, rb: seq<Review>)
    requires a.number != b.number
    ensures PullRequestMirror(f, a, ra).meta.name != PullRequestMirror(f, b, rb).meta.name
    ensures PullRequestMirror(f, a, ra).status.id != PullRequestMirror(f, b, rb).status.id
  {
    PullRequestNameInjective(f.repository.name, a.number, b.number);
  }
}
