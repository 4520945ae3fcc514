/**
 * The per-key merge rule for pull requests (connectors/pull_request.go):
 * `PullRequestDiff.Merge` decides, for one remote pull request and/or one
 * local mirror, whether to create the mirror locally, to open the pull
 * request remotely (`createInGithub`, which writes the assigned number back
 * into the mirror's status), to do nothing, or to panic.
 *
 * The outcome of every external call the rule can make is part of a
 * `MergeFate`: whether the cluster Create goes through, the number the hosting
 * service assigns (None: the open failed), whether the review request goes
 * through, and whether the status Update goes through.
 */
module PullRequestSync {
  import opened Wrappers
  import opened GoStrings
  import opened Objects
  import opened Cluster

  datatype MergeFate = MergeFate(createOk: bool, numberGiven: Option<int>, reviewOk: bool, updateOk: bool)

  datatype RemoteCreateError = OpenFailed | ReviewRequestFailed | SetNumberFailed(name: string, namespace: string)

  datatype MergeError =
    | CreateMirrorFailed(name: string, namespace: string)
    | CreateRemoteFailed(name: string, namespace: string, cause: RemoteCreateError)

  datatype MergeResult = Merged | MergeFailed(error: MergeError) | Panicked

  /** The part of the world a merge can change: the mirror store and the hosting service. */
  datatype World = World(store: StoreState<GitPullRequest>, hosting: HostingState)

  /** The request createInGithub sends, taken from the mirror's spec. */
  function RequestFor(pr: GitPullRequest): PullRequestInput {
    PullRequestInput(pr.spec.title, pr.spec.body, pr.spec.base, pr.spec.head)
  }

  /** The mirror after createInGithub recorded the number `n` the hosting service assigned. */
  function WrittenBack(pr: GitPullRequest, n: int): (m: GitPullRequest)
    ensures ParseInt(m.status.id) == Some(n)
    ensures m.status.ref == "refs/pull/" + Itoa(n) + "/head"
    ensures m.status.url == "https://github.com/" + pr.spec.repository + "/pull/" + Itoa(n) + ".diff"
    ensures m.meta == pr.meta && m.spec == pr.spec
    ensures m.status.author == pr.status.author && m.status.approvers == pr.status.approvers
  {
    ItoaRoundTrip(n);
    pr.(status := pr.status.(
      id := Itoa(n),
      ref := "refs/pull/" + Itoa(n) + "/head",
      url := "https://github.com/" + pr.spec.repository + "/pull/" + Itoa(n) + ".diff"))
  }

  /**
   * createInGithub: open the pull request; request reviews when the mirror
   * names reviewers; then write the number back with one Update. Each failure
   * returns at once, so a failed open changes nothing and a failed review
   * request leaves the mirror without its id.
   */
  function CreateInGithubSpec(pr: GitPullRequest, fate: MergeFate, w: World): (r: (Option<RemoteCreateError>, World))
    ensures fate.numberGiven.None? ==> r == (Some(OpenFailed), w)
    ensures fate.numberGiven.Some? ==>
      r.1.hosting.pulls == w.hosting.pulls + [OpenedPullRequest(pr.spec.repository, fate.numberGiven.value, RequestFor(pr))]
    ensures fate.numberGiven.Some? && |pr.spec.reviewers| > 0 && !fate.reviewOk ==>
      r.0 == Some(ReviewRequestFailed) && r.1.store == w.store
    ensures r.0.None? <==>
      fate.numberGiven.Some? && (|pr.spec.reviewers| > 0 ==> fate.reviewOk) && fate.updateOk && KeyOf(pr.meta) in w.store.objects
    ensures r.0.None? ==>
      r.1.store.objects == w.store.objects[KeyOf(pr.meta) := WrittenBack(pr, fate.numberGiven.value)]
    ensures r.1.store.objects.Keys == w.store.objects.Keys
  {
    var (number, h1) := OpenSpec(w.hosting, pr.spec.repository, RequestFor(pr), fate.numberGiven);
    if number.None? then (Some(OpenFailed), w)
    else
      var n := number.value;
      var (reviewed, h2) :=
        if |pr.spec.reviewers| > 0 then RequestReviewSpec(h1, pr.spec.repository, n, pr.spec.reviewers, fate.reviewOk)
        else (true, h1);
      if !reviewed then (Some(ReviewRequestFailed), World(w.store, h2))
      else
        var (updated, s1) := UpdateSpec(w.store, KeyOf(pr.meta), WrittenBack(pr, n), fate.updateOk);
        if !updated then (Some(SetNumberFailed(pr.meta.name, pr.meta.namespace)), World(s1, h2))
        else (None, World(s1, h2))
  }

  /**
   * Merge: remote only, create the mirror; local only, open it remotely;
   * neither, panic; both, nothing, whatever the fields hold.
   */
  function MergeSpec(gh: Option<GitPullRequest>, k8s: Option<GitPullRequest>, fate: MergeFate, w: World): (r: (MergeResult, World))
    ensures gh.None? && k8s.None? <==> r.0 == Panicked
    ensures gh.Some? && k8s.Some? ==> r == (Merged, w)
    ensures gh.None? && k8s.None? ==> r.1 == w
    ensures gh.Some? && k8s.None? ==>
      r.1.hosting == w.hosting &&
      (r.0 == Merged <==> fate.createOk && KeyOf(gh.value.meta) !in w.store.objects) &&
      r.1.store.objects == (if r.0 == Merged then w.store.objects[KeyOf(gh.value.meta) := gh.value] else w.store.objects)
    ensures gh.None? && k8s.Some? ==>
      (r.0.MergeFailed? ==> r.0.error.CreateRemoteFailed? && r.0.error.name == k8s.value.meta.name) &&
      r.1 == CreateInGithubSpec(k8s.value, fate, w).1
    ensures w.store.objects.Keys <= r.1.store.objects.Keys
  {
    if gh.Some? && k8s.None? then
      var (created, s1) := CreateSpec(w.store, KeyOf(gh.value.meta), gh.value, fate.createOk);
      (if created then Merged else MergeFailed(CreateMirrorFailed(gh.value.meta.name, gh.value.meta.namespace)), World(s1, w.hosting))
    else if gh.None? && k8s.Some? then
      var (err, w1) := CreateInGithubSpec(k8s.value, fate, w);
      (if err.None? then Merged else MergeFailed(CreateRemoteFailed(k8s.value.meta.name, k8s.value.meta.namespace, err.value)), w1)
    else if gh.None? && k8s.None? then
      (Panicked, w)
    else
      (Merged, w)
  }

  class PullRequestDiff {
    const client: Store<GitPullRequest>
    const github: Hosting

    function State(): World
      reads client, github
    {
      World(client.State(), github.State())
    }

    constructor (client: Store<GitPullRequest>, github: Hosting)
      ensures this.client == client && this.github == github
    {
      this.client := client;
      this.github := github;
    }

    method CreateInGithub(pr: GitPullRequest, fate: MergeFate) returns (err: Option<RemoteCreateError>)
      modifies client, github
      ensures (err, State()) == CreateInGithubSpec(pr, fate, old(State()))
    {
      var number := github.OpenPullRequest(pr.spec.repository, RequestFor(pr), fate.numberGiven);
      if number.None? {
        return Some(OpenFailed);
      }
      if |pr.spec.reviewers| > 0 {
        var reviewed := github.RequestReview(pr.spec.repository, number.value, pr.spec.reviewers, fate.reviewOk);
        if !reviewed {
          return Some(ReviewRequestFailed);
        }
      }
      var updated := client.Update(KeyOf(pr.meta), WrittenBack(pr, number.value), fate.updateOk);
      if !updated {
        return Some(SetNumberFailed(pr.meta.name, pr.meta.namespace));
      }
      return None;
    }

    method Merge(gh: Option<GitPullRequest>, k8s: Option<GitPullRequest>, fate: MergeFate) returns (r: MergeResult)
      modifies client, github
      ensures (r, State()) == MergeSpec(gh, k8s, fate, old(State()))
    {
      if gh.Some? && k8s.None? {
        var created := client.Create(KeyOf(gh.value.meta), gh.value, fate.createOk);
        r := if created then Merged else MergeFailed(CreateMirrorFailed(gh.value.meta.name, gh.value.meta.namespace));
      } else if gh.None? && k8s.Some? {
        var err := CreateInGithub(k8s.value, fate);
        r := if err.None? then Merged else MergeFailed(CreateRemoteFailed(k8s.value.meta.name, k8s.value.meta.namespace, err.value));
      } else if gh.None? && k8s.None? {
        r := Panicked;
      } else {
        r := Merged;
      }
    }
  }
}
