# git-operator: a Dafny model of its decision logic

git-operator is a Kubernetes operator. It keeps GitRepository, GitBranch,
GitPullRequest and GitDeployment resources in step with a GitHub repository,
installs Flux for a GitOps object, and serves an HTTP endpoint that commits a
posted Kubernetes object into a Git repository. This project models the
sequential decision logic under the Kubernetes and GitHub plumbing, and proves
properties of it in Dafny.

One module per component of the source:

| module | file | models |
|---|---|---|
| `Wrappers` | wrappers.dfy | `Option` / `Result` |
| `GoStrings` | gostrings.dfy | the Go library calls the logic depends on: `strconv.Itoa`, `strings.Split`/`TrimSuffix`/`Contains`/`Replace`, `path.Dir`, `sort.Strings` |
| `Objects` | objects.dfy | the resource records: GitRepository, GitBranch, GitPullRequest, GitDeployment, and the hosting service's pull request, reference, review and deployment |
| `Naming` | naming.dfy | mirror names, `owner/repo`, the fork-aware `head` |
| `Reviews` | reviews.dfy | folding reviews into reviewers and approvers |
| `MirrorBuild` | github_util.dfy | the connectors package's `GithubFetcher` builders |
| `Cluster` | cluster.dfy | the API server's mirror store, and the hosting service's pull-request endpoints, as classes whose calls take their outcome as an input |
| `PullRequestSync` | pull_request.dfy | `PullRequestDiff.Merge` and `createInGithub` |
| `MapOrder` | map_order.dfy | Go's unspecified map iteration order, as an arbitrary enumeration of the key set |
| `GithubConnector` | github_connector.dfy | `Clone`/`Push`, `ReconcileBranches`, `ReconcilePullRequests`, `CreatePullRequest` |
| `ConnectorSelection` | connector_selection.dfy | `NewConnector` and `GetRepositoryCredentials` |
| `LegacyControllers` | legacy_controllers.dfy | the older copy in the controllers package: `GithubFetcher`, the `util.go` builders, and `Merge` |
| `ListUtils` | list_utils.dfy | `findElement`, `removeElement` (in place, on an array), `TabToSpace` |
| `GitOpsController` | gitops_controller.dfy | `gitopsDefaults`, `getArgs`, `NewGitops`, and `Reconcile` with its finalizer |
| `GitOpsApi` | gitops_api.dfy | the `serve` request pipeline |

## How the model is built

- Every call into the cluster or the hosting service takes its outcome as an
  input.
  - A listing is an `Option`, with `None` for a failed call.
  - A create or update takes a success flag.
  - Opening a pull request takes the number the service assigns, or `None`.
  - Code that changes objects in place is written as classes with `modifies`
    clauses: the connector's `g.repo`, the mirror store, the GitOps object
    being reconciled, and the array behind `removeElement`.
  - Each such method is proved equal to a function on plain values. The
    properties are then proved as lemmas about that function.
- The pull-request pass walks the `allIds` map in an order it picks itself
  (a `:|` choice). It returns that order as a ghost value. Every property
  is stated for every enumeration of the key set.
- Stop-on-first-failure is stated as a concatenation law
  (`RunBranchesConcat`, `RunJobsConcat`): once a prefix fails, the rest
  never runs.
- The `serve` pipeline returns its response together with the list of
  effects it had, in order: clone, checkout, the two saves, commit, push,
  pull request. Ordering is a property of that list.
  - `Clone` is passed `api.Spec.Branch` but does not use it
    (connectors/github.go:69-77), so the clone is of the remote's default
    branch. Without a pull request nothing is checked out
    (`NoPullRequestNoCheckout`), so the commit and push go to that default
    branch, not to the configured one.
  - The error of the work-branch checkout is ignored
    (controllers/gitopsapi_controller.go:119-121). `Env.checkoutOk` is its
    outcome; when it fails, the run continues without a `CheckedOut` effect.
  - `CreatePullRequest` opens the pull request, then requests reviewers
    (connectors/github.go:211-223). A failed review request is a 500, but the
    pull request is already open (`ReviewFailureLeavesPullRequestOpen`).
- Git, the filesystem, JSON/YAML coding and template expansion are inputs:
  values in `Env`, or the uninterpreted functions in `Codecs`.
- The connector picked by `NewConnector` is represented by the settings it
  would be built from.
- Where the source has two copies of one function, the model says so:
  - `getRepositoryCredentials` in controllers/util.go is the same text as
    `GetRepositoryCredentials` in connectors/util.go, so one function models
    both.
  - The older `GithubFetcher`, `Merge` and `createInGithub` in the controllers
    package differ from the connectors package and are modelled separately.
- controllers/github.go calls a `branchName` helper that its package does not
  define. The model uses the connectors package's `<repository>-<branch>`.
- The GitPullRequest type does not declare `Spec.Head/Title/Body/Base` or
  `Status.ID/Ref`, but the code uses them. The model's record has every field
  the code reads or writes.
- Three consequences of the code, each stated by a lemma:
  - connectors/github.go:119-128 returns at the first failed Create or
    Update, so the branches after it are not synced in that pass
    (`RunBranchesConcat`).
  - `serve` appends the relative path unconditionally at
    controllers/gitopsapi_controller.go:173, so serving the same request
    again lists the path twice in the kustomization
    (`RepeatedRequestDuplicatesResource`).
  - The remote pull-request listing is filtered by `UpdatedAfter` at
    connectors/github_util.go:26. A local mirror whose id is missing from that
    listing goes to `createInGithub`, which opens the pull request again
    (`StaleMirrorReopened`).
- `serve` prints `*api.Spec.SecretRef` at controllers/gitopsapi_controller.go:100.
  `SecretRef` is an optional pointer (`omitempty`), so an authorized request
  for an API without one dereferences nil before any effect. The model returns
  the response `Panicked` with no effects (`GitOpsApi.NilSecretRefPanics`).

## Model

| member | source | states |
|---|---|---|
| GoStrings.Itoa | connectors/github_util.go:81 | the decimal form is non-empty, all digits for a non-negative number, and '-' then digits for a negative one |
| GoStrings.ItoaRoundTrip | connectors/pull_request.go:73 | parsing `strconv.Itoa(n)` gives back `n`, so the id written into a mirror identifies the pull request number |
| GoStrings.ItoaInjective | controllers/util.go:62-64 | different numbers print differently |
| GoStrings.TrimSuffix | connectors/connector.go:43 | with the suffix present, the result plus the suffix is the input (one occurrence removed); otherwise the input is unchanged |
| GoStrings.Split | connectors/connector.go:37 | `strings.Split` with a one-character separator always yields at least one part; SplitShape, SplitFirst and SplitTwoParts state the parts |
| GoStrings.Join | connectors/connector.go:37 | defines joining parts around the separator, the inverse that SplitShape uses to show that Split loses nothing |
| GoStrings.SplitShape | connectors/connector.go:37 | `strings.Split` gives one more part than there are separators, no part holds a separator, and joining the parts gives the input back |
| GoStrings.SplitFirst | connectors/connector.go:51 | the first part is the text before the first separator, or the whole string when there is none |
| GoStrings.SplitTwoParts | connectors/connector.go:37-38 | a string splits into exactly two parts iff it holds exactly one separator |
| GoStrings.RemoveAllAbsent | controllers/gitopsapi_controller.go:172 | `strings.Replace(s, p, "", -1)` leaves a string without `p` unchanged |
| GoStrings.RemoveAllLeading | controllers/gitopsapi_controller.go:172 | a leading occurrence of the pattern is removed, and the rest is processed on its own |
| GoStrings.RemoveAll | controllers/gitopsapi_controller.go:172 | `strings.Replace(s, p, "", -1)` never lengthens the string (admitted as weaker under "Left out"); RemoveAllAbsent and RemoveAllLeading state what it removes |
| GoStrings.LastIndex | controllers/gitopsapi_controller.go:172 | the index of the last occurrence of a character (used by `path.Dir`), or -1 when there is none |
| GoStrings.Clean | controllers/gitopsapi_controller.go:172 | defines `path.Clean`: empty and `.` elements are dropped, `..` cancels the element before it (and is dropped at the root), and an empty result is `/` when rooted and `.` otherwise |
| GoStrings.Dir | controllers/gitopsapi_controller.go:172 | defines `path.Dir` as Clean of everything up to the last `/` |
| GoStrings.DirOfBareName | controllers/gitopsapi_controller.go:172 | a kustomization path with no `/` has directory `.`, so the prefix removed from content paths is `./` |
| GoStrings.SortStrings | controllers/gitops_controller.go:266 | `sort.Strings` returns a permutation of its input |
| GoStrings.SortStringsSorted | controllers/gitops_controller.go:266 | the result of `sort.Strings` is sorted |
| GoStrings.SortedUnique | controllers/gitops_controller.go:266 | two sorted permutations of one multiset are equal, so the sorted result does not depend on the input order |
| Naming.GetRepositoryName | controllers/util.go:55-60 | the name is empty iff the repository has no GitHub coordinates; otherwise it is `owner/repository` |
| Naming.RepositoryName | connectors/github_util.go:188-190 | defines `owner/repo`; RepositoryOwner reads the owner back |
| Naming.BranchName | connectors/github_util.go:192-194 | defines `<repository>-<branch>`; BranchNameInjective shows no two branches share a name |
| Naming.DeploymentName | connectors/github_util.go:196-198 | defines `<repository>-<name>-<ref>`; DeploymentNameCollides shows that two deployments can share a name |
| Naming.PullRequestName | connectors/github_util.go:200-202 | defines `<repository>-<number>` with the number in decimal; PullRequestNameInjective shows no two numbers share a name |
| Naming.Head | connectors/github_util.go:57-60 | head is the source branch when the fork is this repository; otherwise it is `<fork up to its first '/'>:<source>` |
| Naming.PullRequestNameInjective | connectors/github_util.go:200-202 | within one repository, different pull request numbers give different mirror names |
| Naming.BranchNameInjective | connectors/github_util.go:192-194 | within one repository, different branch names give different mirror names |
| Naming.DeploymentNameCollides | connectors/github_util.go:196-198 | `<repo>-<name>-<ref>` is not an identity: for every repository and all parts a, b, c, the different pairs (`a-b`, `c`) and (`a`, `b-c`) get the same name |
| Naming.RepositoryOwner | connectors/github_util.go:188-190 | the owner is read back as the first '/'-part of `owner/repo` |
| Reviews.ReviewerLogins | connectors/github_util.go:52-53 | one reviewer per review, in review order, with duplicates kept |
| Reviews.Approvals | connectors/github_util.go:52-55 | defines the approver map as the reviews applied in order; ApprovalsKeys and ApprovalsLastWins state its keys and values |
| Reviews.ApprovalsLastWins | connectors/github_util.go:52-55 | a login is an approver key iff it reviewed; its value is whether its last review was "APPROVED" |
| Reviews.ApprovalsKeys | connectors/github_util.go:52-55 | the approver keys are exactly the review authors |
| Reviews.FoldReviews | connectors/github_util.go:52-55 | the review loop returns those reviewers and approvers |
| MirrorBuild.PullRequestMirrorFields | connectors/github_util.go:62-86 | the PR mirror has name `<repo>-<number>`, the repository's namespace and only the repository label; its status id parses back to the number; ref, url and author come from the pull request; head follows the fork rule; reviewers and approvers are the fold of the reviews |
| MirrorBuild.PullRequestMirror | connectors/github_util.go:62-86 | defines the mirror of one remote pull request and its reviews; PullRequestMirrorFields states every field |
| MirrorBuild.BuildPullRequestMirror | connectors/github_util.go:42-90 | a failed review listing is an error; otherwise the mirror above |
| MirrorBuild.PullRequestMirrors | connectors/github_util.go:31-37 | one mirror per pull request, in list order |
| MirrorBuild.BuildPullRequestMirrors | connectors/github_util.go:22-40 | a failed listing, or any failed review listing, gives an error and no partial list; otherwise one mirror per pull request, in order |
| MirrorBuild.PullRequestMirrorsDistinct | connectors/github_util.go:62-86 | pull requests with different numbers get different mirror names and different status ids |
| MirrorBuild.BranchMirror | connectors/github_util.go:112-135 | name `<repo>-<branch>`; labels repository and branch; `Spec.BranchName` is the branch name; `Status.Head` is its sha |
| MirrorBuild.BranchMirrors | connectors/github_util.go:101-107 | one mirror per branch, in list order |
| MirrorBuild.BuildBranchMirrors | connectors/github_util.go:92-110 | only the listing can fail; otherwise one mirror per branch, in order |
| MirrorBuild.DeploymentMirror | connectors/github_util.go:157-186 | name `<repo>-<name>-<ref>`; repository and deployment labels; spec and status carry identical ref, sha, id, name and environment |
| MirrorBuild.BuildDeploymentMirrors | connectors/github_util.go:137-155 | the result is an error iff the listing failed; otherwise one mirror per deployment, in order |
| LegacyControllers.LegacyPullRequestMirrorFields | controllers/github.go:60-85 | the older PR mirror carries the decimal id and the ref in its spec and leaves them empty in its status; its name, labels, head, reviewers and approvers follow the same rules as the newer one |
| LegacyControllers.LegacyPullRequestMirror | controllers/github.go:60-85 | defines the older copy of the mirror; LegacyPullRequestMirrorFields states how it differs |
| LegacyControllers.BuildLegacyPullRequestMirror | controllers/github.go:40-88 | a failed review listing is an error; otherwise the mirror above |
| LegacyControllers.BuildLegacyPullRequestMirrors | controllers/github.go:20-38 | all or nothing: any failed listing is an error; otherwise one mirror per pull request, in order |
| LegacyControllers.LegacyBranchMirror | controllers/github.go:110-133 | name, labels, `Spec.Repository` from `getRepositoryName`, `Spec.BranchName` and `Status.Head` come from the branch record |
| LegacyControllers.BuildLegacyBranchMirrors | controllers/github.go:90-108 | only the listing can fail; otherwise one mirror per branch, in order |
| LegacyControllers.UtilPullRequestMirror | controllers/util.go:76-102 | name `pullRequestName(owner/repo, number)`, the repository's namespace and no labels; the id parses back to the number; the reviewers are the pull request's own reviewer logins, in order |
| LegacyControllers.BuildUtilPullRequestMirror | controllers/util.go:79-82 | the index loop over a slice allocated at full length builds that mirror |
| LegacyControllers.BuildUtilPullRequestMirrors | controllers/util.go:66-74 | one mirror per pull request, in order; nothing can fail |
| LegacyControllers.UtilMirrorNameHasSlash | controllers/util.go:77-85 | for a repository with GitHub coordinates, the mirror name contains '/' |
| LegacyControllers.LegacyCreateInGithubSpec | controllers/pull_request.go:34-49 | succeeds iff the hosting service assigns a number; the result is discarded, and nothing but the open call changes |
| LegacyControllers.LegacyMergeSpec | controllers/pull_request.go:20-32 | remote only: the mirror is created; local only: the pull request is opened, then the nil remote mirror is dereferenced; neither: panic; both: no call |
| LegacyControllers.LegacyLocalOnlyCrashes | controllers/pull_request.go:24-26 | every local-only key ends in a nil dereference, after the pull request may already have been opened, and the store is never written |
| LegacyControllers.LocalOnlyMergeCompletes | connectors/pull_request.go:38-42 | the connectors package's Merge never panics on a local-only key; a failure is the createInGithub error wrapped with the local mirror's name, and on success the stored mirror's id parses back to the assigned number |
| Cluster.CreateSpec | connectors/github.go:119 | a Create succeeds iff the call goes through and the key is free; only then is the object stored; the call is logged |
| Cluster.UpdateSpec | connectors/github.go:125 | an Update succeeds iff the call goes through and the key exists; only then is the object replaced; the call is logged |
| Cluster.Store.Create | connectors/github.go:119 | the store's new state is that of CreateSpec |
| Cluster.Store.Update | connectors/github.go:125 | the store's new state is that of UpdateSpec |
| Cluster.OpenSpec | connectors/pull_request.go:58 | the open returns the assigned number; a pull request is recorded only when a number was assigned |
| Cluster.RequestReviewSpec | connectors/pull_request.go:68 | a review request is recorded only when the call goes through |
| Cluster.Hosting.OpenPullRequest | connectors/pull_request.go:58 | the service's new state is that of OpenSpec |
| Cluster.Hosting.RequestReview | connectors/pull_request.go:68 | the service's new state is that of RequestReviewSpec |
| PullRequestSync.WrittenBack | connectors/pull_request.go:73-75 | the status id parses back to `n`; ref is `refs/pull/<n>/head`; url is `https://github.com/<repo>/pull/<n>.diff`; metadata, spec, author and approvers are unchanged |
| PullRequestSync.RequestFor | connectors/pull_request.go:51-57 | defines the request from the mirror's title, body, base and head; CreateInGithubSpec opens exactly this request |
| PullRequestSync.CreateInGithubSpec | connectors/pull_request.go:50-82 | a failed open changes nothing; a failed review request (asked only when reviewers are named) returns before the write-back; success means the mirror was updated once with the written-back status; no mirror is added or removed |
| PullRequestSync.MergeSpec | connectors/pull_request.go:34-48 | panic iff both sides are absent; both present: nothing, whatever the fields; remote only: one Create of the remote mirror; local only: createInGithub on the local mirror; no mirror is ever deleted |
| PullRequestSync.PullRequestDiff.CreateInGithub | connectors/pull_request.go:50-82 | the response and new state of the store and hosting service are those of CreateInGithubSpec |
| PullRequestSync.PullRequestDiff.Merge | connectors/pull_request.go:34-48 | the response and new state are those of MergeSpec |
| GithubConnector.CloneSpec | connectors/github.go:69-88 | a failed clone changes nothing; a successful one sets `repo` to the cloned URL, even when the worktree then fails; success iff both succeed |
| GithubConnector.CloneUrl | connectors/github.go:71 | defines `https://github.com/<owner>/<repo>.git`; CloneEnablesPush states that a push after a clone pushes that URL |
| GithubConnector.PushSpec | connectors/github.go:51-67 | without `repo`, the result is "Need to clone first" and nothing changes; otherwise the push outcome decides and a successful push pushes the cloned URL |
| GithubConnector.CloneEnablesPush | connectors/github.go:51-88 | a push before any clone is refused; after a successful clone, a push that goes through pushes `https://github.com/<owner>/<repo>.git` |
| GithubConnector.Github.constructor | connectors/github.go:34-49 | a new connector holds owner, repository and clients, and has no `repo` |
| GithubConnector.Github.Push | connectors/github.go:51-67 | the working copy's new state is that of PushSpec |
| GithubConnector.Github.Clone | connectors/github.go:69-88 | the working copy's new state is that of CloneSpec on `https://github.com/<owner>/<repo>.git` |
| GithubConnector.IndexByBranchName | connectors/github.go:112-115 | the index keys are the local mirrors' branch names; each entry is a local mirror with that name |
| GithubConnector.IndexByBranchNameLastWins | connectors/github.go:113-115 | the entry kept for a name is the last mirror listed with it |
| GithubConnector.BranchActionFor | connectors/github.go:116-132 | create iff no local mirror has the name; update iff one does with a different head; otherwise keep |
| GithubConnector.BranchStep | connectors/github.go:117-132 | keep: no call; create: exactly one Create; update: exactly one Update with the remote record; the store changes only at that key and only when the call succeeds |
| GithubConnector.RunBranches | connectors/github.go:116-133 | defines the pass as BranchStep for each remote branch in list order, returning at the first error; RunBranchesConcat, RunBranchesWritesOnlyRemote and RunBranchesQuiet state its properties |
| GithubConnector.RunBranchesConcat | connectors/github.go:119-128 | after a failure among the first branches, the later ones are never visited |
| GithubConnector.RunBranchesWritesOnlyRemote | connectors/github.go:116-133 | nothing is deleted; every changed or added object is a remote mirror under its own key; a local mirror without a remote branch is left alone |
| GithubConnector.RunBranchesQuiet | connectors/github.go:124-131 | when every remote branch has a local mirror with its head, no call is made |
| GithubConnector.ReconcileBranchesSpec | connectors/github.go:90-136 | a failed remote listing or cluster listing returns its error and changes nothing; otherwise one pass over the remote mirrors against the local index |
| GithubConnector.SecondBranchPassQuiet | connectors/github.go:112-133 | with distinct remote branch names, a second pass over local mirrors equal to the remote ones makes no call |
| GithubConnector.Github.ReconcileBranches | connectors/github.go:90-136 | the store's new state and the error are those of ReconcileBranchesSpec |
| GithubConnector.IndexById | connectors/github.go:164-167 | `inGithubByID` keys are the remote status ids; each entry is a remote mirror with that id |
| GithubConnector.LocalIndexById | connectors/github.go:168-172 | `inK8sByID` keys are the non-empty local ids; each entry is a local mirror with that id |
| GithubConnector.WithoutId | connectors/github.go:172-174 | `inK8sWithoutID` holds exactly the local mirrors with an empty id, in list order; every entry has an empty id; WithoutIdConcat and WithoutIdSingle state the order |
| GithubConnector.WithoutIdConcat | connectors/github.go:172-174 | the filter distributes over concatenation, so the kept mirrors stay in their list order |
| GithubConnector.WithoutIdSingle | connectors/github.go:172-174 | a single mirror is kept iff its id is empty |
| GithubConnector.AllIds | connectors/github.go:163-175 | `allIds` is the union of the remote ids and the non-empty local ids |
| GithubConnector.JobFor | connectors/github.go:185-186 | defines the pair of mirrors for an id, with an absent side where the map has no entry (the nil a Go map gives for a missing key) |
| GithubConnector.IndexRemote | connectors/github.go:164-167 | the remote loop builds IndexById and collects its keys |
| GithubConnector.IndexLocal | connectors/github.go:168-175 | the local loop builds LocalIndexById and WithoutId |
| GithubConnector.Partition | connectors/github.go:160-175 | both partitioning loops together give the three buckets and `allIds` |
| GithubConnector.IdJobs | connectors/github.go:184-191 | one Merge call per visited id, pairing its remote and local mirror |
| GithubConnector.PendingJobs | connectors/github.go:194-198 | one Merge call per id-less local mirror, with no remote side, in list order |
| GithubConnector.MergeOutcome | connectors/github.go:188-190 | no error iff the Merge call succeeded |
| GithubConnector.RunJobs | connectors/github.go:184-198 | defines the Merge calls in order, returning at the first that does not succeed; RunJobsConcat, RunJobsKeepsKeys, RunJobsNeverPanics and RunJobsIdleWhenMirrored state its properties |
| GithubConnector.RunJobsConcat | connectors/github.go:184-198 | after a failed Merge, the later calls never run |
| GithubConnector.RunJobsKeepsKeys | connectors/github.go:184-198 | no pull-request mirror is deleted by a pass |
| GithubConnector.RunJobsNeverPanics | connectors/pull_request.go:43-44 | calls that all have at least one side never reach the panic |
| GithubConnector.RunJobsIdleWhenMirrored | connectors/pull_request.go:47 | calls that all have both sides change nothing |
| GithubConnector.IdJobsStopped | connectors/github.go:188-189 | after a failure, the ids not yet visited and the id-less mirrors are never merged |
| GithubConnector.PullSyncSpec | connectors/github.go:184-200 | the pass is the id jobs in the visit order, then the id-less jobs; no mirror is deleted |
| GithubConnector.PullSyncNeverPanics | connectors/github.go:184-198 | for every visit order, a pass never reaches Merge's panic, because every id comes from one side or the other |
| GithubConnector.PullSyncIdleWhenMirrored | connectors/github.go:184-198 | when both sides have the same ids and no local mirror lacks one, a pass makes no call, whatever the fields hold |
| GithubConnector.StaleMirrorReopened | connectors/github.go:184-190 | a local mirror whose id is missing from the remote listing goes to createInGithub, which opens its pull request again |
| GithubConnector.Github.MergeIds | connectors/github.go:184-191 | the `allIds` loop visits an enumeration of the ids; on success its state is the run of those jobs; on failure, the run of those jobs followed by any later ones |
| GithubConnector.Github.MergePending | connectors/github.go:193-198 | the id-less loop continues the run with one Merge per id-less mirror |
| GithubConnector.Github.ReconcilePullRequests | connectors/github.go:138-201 | a failed listing changes nothing; otherwise, for the enumeration it visited, the error and new state are those of PullSyncSpec |
| GithubConnector.CreatePullRequestSpec | connectors/github.go:203-227 | the pull request is opened in `owner/repoName`; a failed open requests nothing; reviews are requested only when reviewers are named; success iff the open and any review request succeed |
| GithubConnector.Github.CreatePullRequest | connectors/github.go:203-227 | the hosting service's new state is that of CreatePullRequestSpec |
| ConnectorSelection.ParseOwnerRepo | connectors/connector.go:36-42 | no result iff the path does not hold exactly one '/'; otherwise the path is `owner/repo`, with neither part holding '/' |
| ConnectorSelection.ParseOwnerRepoRoundTrip | connectors/connector.go:36-42 | `owner/repo` parses back to (owner, repo) |
| ConnectorSelection.SshUser | connectors/connector.go:50-51 | the user is a prefix of the address without '@', followed by '@' when there is one, or the whole address |
| ConnectorSelection.NewConnector | connectors/connector.go:26-64 | a nil client fails before anything else; a failed secret fetch then wins over any URL problem; "invalid repository url" iff a GitHub URL does not hold exactly one '/' after the prefix; for an SSH URL with a private key, the connector fails iff the key does not parse (`NewGitSSH`, connectors/gitssh.go:63-67); "no connector settings" iff the URL is neither GitHub nor SSH; on success, the settings follow |
| ConnectorSelection.GithubConnectorFor | connectors/connector.go:35-48 | the only errors are an invalid URL (iff the remainder does not hold exactly one '/') and a missing GITHUB_TOKEN; success gives owner, repository and token |
| ConnectorSelection.SshConnectorFor | connectors/connector.go:49-61 | the only errors are a missing SSH_PRIVATE_KEY and, with the key present, a key that does not parse into public keys; success needs the parse and gives the address, its user, the key, and the password or "" |
| ConnectorSelection.GithubUrlRoundTrip | connectors/connector.go:35-48 | `https://github.com/<owner>/<repo>.git` and, for a name without `.git`, `.../<owner>/<repo>` both give owner and repo back |
| ConnectorSelection.GithubSuffixedUrlRoundTrip | connectors/connector.go:43 | exactly one trailing `.git` is trimmed |
| ConnectorSelection.GithubPlainUrlRoundTrip | connectors/connector.go:43 | a repository name without `.git` is kept as it is |
| ConnectorSelection.SshUrlRoundTrip | connectors/connector.go:49-61 | `ssh://user@host` with a key gives the address `user@host` and the user back when the key parses, and the public-key error when it does not |
| ConnectorSelection.SshUserOfAddress | connectors/connector.go:51 | the user of `user@host` is `user` |
| ConnectorSelection.GetRepositoryCredentials | connectors/util.go:37-56 | a failed fetch is returned before any field check; no PROVIDER is an error; a provider other than "github" (azure included) is unsupported; "github" succeeds iff GITHUB_TOKEN is present, with that token |
| ConnectorSelection.CredentialsAgreeWithConnector | connectors/util.go:47-52 | for a GitHub URL, the credentials reader and NewConnector agree on the token and on the missing-token error |
| ListUtils.FindElement | controllers/utils.go:49-56 | the result is the smallest index holding the element, or -1 iff the element is absent |
| ListUtils.Without | controllers/utils.go:58-60 | the result has one element fewer and holds every element but the one at `i`, in order |
| ListUtils.WithoutMultiset | controllers/utils.go:58-60 | exactly the element at `i` is lost |
| ListUtils.RemoveElement | controllers/utils.go:58-60 | in place on the caller's array: the first `len-1` slots are Without(old, i), and the last slot keeps its old value |
| ListUtils.Spaced | controllers/utils.go:62-76 | the rune count is kept; each white-space rune becomes ' ' and every other rune is unchanged |
| ListUtils.SpacedIdempotent | controllers/utils.go:65-73 | replacing twice is replacing once |
| ListUtils.SpacedOnlyPlainSpaces | controllers/utils.go:69-70 | afterwards, the only white space left is ' ' |
| ListUtils.TabToSpace | controllers/utils.go:62-76 | the rune loop computes Spaced |
| GitOpsController.Defaulted | controllers/gitops_controller.go:222-255 | each empty field gets its default (name ← metadata namespace, namespace ← kube-system, branch ← master, path ← ./, poll ← 60s, sync ← 5m00s, flux ← 1.20.0, disableScanning ← true); non-empty fields and the other fields are unchanged |
| GitOpsController.DefaultedFixpoint | controllers/gitops_controller.go:222-255 | a defaulted spec has no empty field that has a default, and such a spec is its own default |
| GitOpsController.DefaultedIdempotent | controllers/gitops_controller.go:222-255 | defaulting twice is defaulting once |
| GitOpsController.Config.GitopsDefaults | controllers/gitops_controller.go:222-255 | the object's spec is overwritten in place with Defaulted; finalizers and timestamp are unchanged |
| GitOpsController.FlagsFor | controllers/gitops_controller.go:262-264 | one `--k=v` per visited key |
| GitOpsController.FlagsForPermutation | controllers/gitops_controller.go:262-264 | whatever order the keys are visited in, the same flags come out |
| GitOpsController.SortedArgsComplete | controllers/gitops_controller.go:262-267 | the arguments are sorted, one per key, each key carrying its value |
| GitOpsController.SortedArgsOnlyFlags | controllers/gitops_controller.go:262-267 | every argument is the flag of some key |
| GitOpsController.SortedArgsOrderFree | controllers/gitops_controller.go:262-267 | sorting the flags of any visit order gives the same list |
| GitOpsController.MergeArgs | controllers/gitops_controller.go:259-261 | a `Spec.Args` entry overrides the argument-map entry with the same key |
| GitOpsController.CollectFlags | controllers/gitops_controller.go:262-264 | the flag loop visits an enumeration of the keys and returns their flags in that order |
| GitOpsController.GetArgs | controllers/gitops_controller.go:257-268 | the changed argument map is `argMap + Spec.Args`; the result is its sorted flags |
| GitOpsController.BaseArgs | controllers/gitops_controller.go:137-158 | `git-readonly` and `registry-disable-scanning` are present, set to "true", iff scanning is disabled |
| GitOpsController.FluxArgsOverride | controllers/gitops_controller.go:137-175 | the flux arguments are sorted and contain every `Spec.Args` entry and every base entry it does not override |
| GitOpsController.ScanningDisabledArgs | controllers/gitops_controller.go:156-158 | with scanning disabled, the flux arguments turn git writes and registry scanning off unless `Spec.Args` sets those keys |
| GitOpsController.FluxImage | controllers/gitops_controller.go:167-171 | the repository is docker.io/flanksource/flux iff the version contains "flanksource", docker.io/fluxcd/flux otherwise; the tag is the version |
| GitOpsController.HelmArgs | controllers/gitops_controller.go:190-193 | the first argument is `--enabled-helm-versions=v3`; `--allow-namespace=<ns>` is present iff the namespace is not kube-system |
| GitOpsController.InGitopsObjects | controllers/gitops_controller.go:130-220 | the objects are exactly memcached (when scanning is on), flux, the service account, helm-operator (when a version is set), the key secret and the SSH config |
| GitOpsController.MemcacheIffScanning | controllers/gitops_controller.go:156-165 | memcached is built iff scanning is on |
| GitOpsController.HelmIffVersion | controllers/gitops_controller.go:189-207 | helm-operator is built iff a version is set |
| GitOpsController.ServiceAccountRoles | controllers/gitops_controller.go:182-206 | cluster-admin iff the namespace is kube-system; helm-operator-admin iff outside kube-system with helm-operator built |
| GitOpsController.DescribeObjects | controllers/gitops_controller.go:130-220 | the builder calls produce GitopsObjects of the defaulted spec |
| GitOpsController.DescribeHelmOperator | controllers/gitops_controller.go:189-207 | no helm-operator calls without a version |
| GitOpsController.GitopsObjects | controllers/gitops_controller.go:130-220 | defines the objects in builder order; InGitopsObjects, MemcacheIffScanning and HelmIffVersion state which are present |
| GitOpsController.MemcacheDeployment | controllers/gitops_controller.go:160-165 | defines the memcached deployment with its image, arguments and port |
| GitOpsController.FluxDeployment | controllers/gitops_controller.go:167-180 | defines the flux deployment; FluxImage states its image |
| GitOpsController.FluxArgs | controllers/gitops_controller.go:137-158 | defines the flux arguments as the sorted flags of the base map overridden by `Spec.Args`; FluxArgsOverride and ScanningDisabledArgs state them |
| GitOpsController.FluxServiceAccount | controllers/gitops_controller.go:182-206 | defines the service account; ServiceAccountRoles states its roles |
| GitOpsController.HelmDeployment | controllers/gitops_controller.go:189-203 | defines the helm-operator deployment; HelmArgs states its arguments |
| GitOpsController.SshObjects | controllers/gitops_controller.go:210-217 | defines the deploy-key secret and the SSH config map with `known_hosts` and `config` |
| GitOpsController.Config.NewGitops | controllers/gitops_controller.go:130-220 | defaults the spec in place, then returns GitopsObjects of the defaulted spec |
| GitOpsController.WithoutProtect | controllers/gitops_controller.go:89-95 | the rebuilt list holds no protect finalizer and holds exactly the other finalizers |
| GitOpsController.WithoutProtectConcat | controllers/gitops_controller.go:89-94 | dropping distributes over concatenation, so the kept finalizers keep their order |
| GitOpsController.WithoutProtectIdle | controllers/gitops_controller.go:89-94 | a list without the protect finalizer is left as it is |
| GitOpsController.Config.HasFinalizer | controllers/gitops_controller.go:69-74 | true iff the list contains the protect finalizer |
| GitOpsController.Config.RemoveFinalizer | controllers/gitops_controller.go:89-96 | the finalizers become WithoutProtect of the old list, stamped with the time |
| GitOpsController.Config.AddFinalizer | controllers/gitops_controller.go:104-106 | the protect finalizer is appended once at the end, stamped with the time |
| GitOpsController.RunDeletes | controllers/gitops_controller.go:78-87 | success iff every delete goes through, in which case one delete per object in order; the only errors are a missing dynamic client or a failed delete; earlier calls are kept |
| GitOpsController.RunApplies | controllers/gitops_controller.go:113-117 | success iff every apply goes through, in which case one apply per object in order; earlier calls are kept |
| GitOpsController.RunDeletesOnlyDeletes | controllers/gitops_controller.go:79-87 | the deletion loop issues nothing but deletes |
| GitOpsController.Kommons.Delete | controllers/gitops_controller.go:80-86 | a missing dynamic client is an error with no call; otherwise the delete is logged and its outcome returned |
| GitOpsController.Kommons.Apply | controllers/gitops_controller.go:114 | the apply is logged and its outcome returned |
| GitOpsController.GitOpsReconciler.DeleteAll | controllers/gitops_controller.go:79-87 | the error and the kommons log are those of RunDeletes |
| GitOpsController.GitOpsReconciler.ApplyAll | controllers/gitops_controller.go:113-117 | the error and the kommons log are those of RunApplies |
| GitOpsController.GitOpsReconciler.Reconcile | controllers/gitops_controller.go:56-120 | the error and new state of the store and kommons are those of ReconcileSpec: a failed Get is an error, a missing object is not, and the spec is defaulted before anything is written |
| GitOpsController.GitOpsReconciler.Release | controllers/gitops_controller.go:78-102 | the deletion branch: every delete, then the finalizer removal and its Update |
| GitOpsController.GitOpsReconciler.Protect | controllers/gitops_controller.go:104-119 | the live branch: the finalizer Update only when it is missing, then every apply |
| GitOpsController.DeletionReleasesFinalizer | controllers/gitops_controller.go:78-102 | on deletion, success iff every delete and the Update go through, and then the stored object has WithoutProtect of its finalizers; a failed delete leaves the store untouched; only deletes are issued |
| GitOpsController.FinalizerAddedWhenMissing | controllers/gitops_controller.go:104-111 | with the finalizer present, the store is not written; without it, one Update appends it (with the defaulted spec); if that Update fails, nothing is applied |
| GitOpsController.SecondReconcileWritesNothing | controllers/gitops_controller.go:69-111 | after a successful reconcile of a live object, a second one leaves the store untouched |
| GitOpsController.ReconcileSpec | controllers/gitops_controller.go:56-120 | defines Reconcile on values; DeletionReleasesFinalizer, FinalizerAddedWhenMissing and SecondReconcileWritesNothing state its properties |
| GitOpsController.ReleaseSpec | controllers/gitops_controller.go:78-102 | defines the deletion branch; DeletionReleasesFinalizer states it |
| GitOpsController.ProtectSpec | controllers/gitops_controller.go:104-119 | defines the live branch; FinalizerAddedWhenMissing states it |
| GitOpsApi.RequestToken | controllers/gitopsapi_controller.go:77-83 | the token is the path parameter, else the query parameter, else the Authorization header |
| GitOpsApi.FirstNonEmptyPicks | controllers/gitopsapi_controller.go:77-83 | the first non-empty candidate is picked; the result is empty iff all are |
| GitOpsApi.Authorize | controllers/gitopsapi_controller.go:85-98 | success carries the looked-up API; the only failures are 404, 403 and the 500 of the token secret fetch; 404 iff the API is unknown |
| GitOpsApi.BaseBranch | controllers/gitopsapi_controller.go:113-116 | the configured branch, or "master" when it is empty |
| GitOpsApi.WorkBranch | controllers/gitopsapi_controller.go:117 | `automated-update-` followed by the timestamp, which can be read back |
| GitOpsApi.CommitAuthor | controllers/gitopsapi_controller.go:180-190 | name and email are the configured ones, each replaced by "Git Operator" / "git-operator@noreply.flanksource.com" when empty |
| GitOpsApi.PullRequestBody | controllers/gitopsapi_controller.go:209 | defines the body naming the object's kind, namespace and name and the content path |
| GitOpsApi.PullRequestFor | controllers/gitopsapi_controller.go:206-213 | defines the pull request of the work branch into the base branch; EditAttributed states it is the one opened |
| GitOpsApi.RelativePath | controllers/gitopsapi_controller.go:172 | defines the content path with every `<dir of kustomization>/` removed; RelativePathUnderDir and DirOfBareName state it |
| GitOpsApi.RelativePathUnderDir | controllers/gitopsapi_controller.go:172 | a content path `<dir of kustomization>/rest` becomes `rest` when `rest` holds no further `<dir>/` |
| GitOpsApi.Admit | controllers/gitopsapi_controller.go:85-110 | before any effect: success means authorized with a SecretRef and a clone; failure is 404, 403, the nil dereference, or a 500 from the token secret, the connector or the clone |
| GitOpsApi.Prepare | controllers/gitopsapi_controller.go:123-148 | defines decoding, the YAML form with the raw body as fallback, and the two template expansions, each failure a 500 |
| GitOpsApi.UpdatedKustomization | controllers/gitopsapi_controller.go:157-174 | defines opening, reading and parsing the kustomization file (a 500 at each failure) and appending the entry; EditWorktree and RepeatedRequestDuplicatesResource state it |
| GitOpsApi.StartEffects | controllers/gitopsapi_controller.go:106-121 | defines the clone and, when a pull request is wanted and the checkout succeeds, the work-branch checkout; a failed checkout is ignored; CheckoutFollowsClone and NoPullRequestNoCheckout state it |
| GitOpsApi.Respond | controllers/gitopsapi_controller.go:106-220 | defines the pipeline after admission: clone, checkout, decode, the two saves, commit, push, opening the pull request and requesting its review; StepOrdering and ReviewFailureLeavesPullRequestOpen state its order |
| GitOpsApi.ServeSpec | controllers/gitopsapi_controller.go:73-221 | defines the handler as admission then the pipeline; the authorization lemmas, StepOrdering, EffectsAttributed and ReviewFailureLeavesPullRequestOpen state its properties |
| GitOpsApi.EditSpec | controllers/gitopsapi_controller.go:123-179 | the response is 202 or 500 |
| GitOpsApi.KustomizationSpec | controllers/gitopsapi_controller.go:157-179 | the response is 202 or 500 |
| GitOpsApi.PublishSpec | controllers/gitopsapi_controller.go:191-220 | the response is 202 or 500; PublishOrder states the order of commit, push, pull request and review request |
| GitOpsApi.Serve | controllers/gitopsapi_controller.go:73-121 | the response and effects are those of ServeSpec, whose order, attribution and authorization the lemmas below state |
| GitOpsApi.Edit | controllers/gitopsapi_controller.go:123-179 | the response and effects are those of EditSpec with RelativePath; EditOrder, EditAttributed, EditWorktree and EditNoCheckout state their properties |
| GitOpsApi.Publish | controllers/gitopsapi_controller.go:180-220 | the response and effects are those of PublishSpec, with `CreatePullRequest` (connectors/github.go:201-223) as two steps: a failed open is a 500 after the push; a failed review request is a 500 after the pull request was opened; PublishOrder states the order |
| GitOpsApi.UnknownApiNotFound | controllers/gitopsapi_controller.go:85-88 | an unknown API is answered 404 whatever the token, with no effect |
| GitOpsApi.WrongTokenForbidden | controllers/gitopsapi_controller.go:90-97 | with a TokenRef, a token other than the secret's TOKEN is answered 403, with no effect |
| GitOpsApi.ForbiddenOnlyOnMismatch | controllers/gitopsapi_controller.go:90-98 | 403 is given only for a TokenRef whose TOKEN differs from the request's token |
| GitOpsApi.ServedNotForbidden | controllers/gitopsapi_controller.go:99-220 | past authorization, no step answers 403 or 404 |
| GitOpsApi.NoTokenRefIgnoresToken | controllers/gitopsapi_controller.go:90-98 | without a TokenRef, the request's tokens change nothing and nothing is 403 |
| GitOpsApi.MissingTokenKeyAdmitsEmptyToken | controllers/gitopsapi_controller.go:95 | a TokenRef secret without TOKEN admits a request that carries no token |
| GitOpsApi.NilSecretRefPanics | controllers/gitopsapi_controller.go:100 | an authorized request for an API without a SecretRef ends in a nil dereference, with no reply and no effect |
| GitOpsApi.PublishOrder | controllers/gitopsapi_controller.go:191-218 | commit, push and pull request come in that order, each only after the one before succeeded; a failed open ends with the push; once the open succeeded the pull request is among the effects, even when the review request then fails; a 202 carries the commit's hash |
| GitOpsApi.KustomizationOrder | controllers/gitopsapi_controller.go:157-218 | the kustomization save comes before the publishing steps, which keep their order |
| GitOpsApi.EditOrder | controllers/gitopsapi_controller.go:152-218 | the two saves come before the publishing steps, which keep their order |
| GitOpsApi.StepOrdering | controllers/gitopsapi_controller.go:106-220 | the effects are in pipeline order; a failure up to the commit leaves no commit, push or pull request; a failed push ends with the commit; a failed open of the pull request ends with the push; a failed review request ends with the pull request, which stays open; a 202 carries the hash after a push and ends with the pull request exactly when one is asked for |
| GitOpsApi.EditAttributed | controllers/gitopsapi_controller.go:180-213 | every commit has the fixed message and the defaulted author; the pull request proposes the work branch for the base branch, with the API's title and reviewers |
| GitOpsApi.EffectsAttributed | controllers/gitopsapi_controller.go:106-213 | every effect of a run carries what the API and the timestamp dictate: the clone is asked for the configured branch (which Clone does not use, see "Left out"), the work branch is checked out only when a pull request is wanted, and the commit and pull request are as above |
| GitOpsApi.CheckoutFollowsClone | controllers/gitopsapi_controller.go:106-121 | with a pull request wanted and the checkout succeeding, the work branch is checked out right after the clone; when the checkout fails, the run goes on after the clone with no checkout at all |
| GitOpsApi.NoPullRequestNoCheckout | controllers/gitopsapi_controller.go:106-121 | without a pull request nothing is checked out, so the commit and push go to the branch the clone left checked out |
| GitOpsApi.EditNoCheckout | controllers/gitopsapi_controller.go:123-220 | the steps after the clone and checkout never check out a branch |
| GitOpsApi.ReviewFailureLeavesPullRequestOpen | connectors/github.go:211-223 | a 500 from the review request comes after the pull request was opened: the last effect is that pull request |
| GitOpsApi.EditWorktree | controllers/gitopsapi_controller.go:152-179 | an accepted edit leaves the worktree with the content saved and then the kustomization with the entry appended |
| GitOpsApi.AcceptedWorktree | controllers/gitopsapi_controller.go:106-179 | an accepted request's worktree is the one its edit leaves |
| GitOpsApi.RepeatedRequestDuplicatesResource | controllers/gitopsapi_controller.go:173 | serving the same request again on the pushed worktree lists the relative path twice in the kustomization's resources |

## Left out

- Logging, error message texts and error wrapping are left out. Errors are tags naming the failed step.
- Kubernetes object metadata beyond name, namespace, labels, finalizers and the deletion flag is left out. Resource versions and conflicts are folded into each call's success flag.
- The GitHub client is left out. `NewGithub`'s client construction (`factory.NewClient`) cannot fail in the model, and the connector is represented by its settings.
- The SSH, Azure DevOps and go-git connectors are left out: foreign libraries and stubs.
- GithubConnector.Github.Clone: the branch argument is not used by the source, so it is not modelled. The temporary directory and the returned filesystem are left out.
- GitOpsController.ServiceAccountName: the source builds the service account's name with `fmt.Sprintf("flux-" + spec.Name)` (controllers/gitops_controller.go:136), so a '%' in the name would be read as a format verb. The model concatenates. The two agree for every valid Kubernetes name, since those cannot hold '%'.
- GitOpsApi.Serve: the body's `ioutil.ReadAll` error is ignored by the source, so the body is an input string.
- ListUtils.TabToSpace: the input is taken to be valid UTF-8, a sequence of runes. Go's `range` over a string turns each invalid byte into U+FFFD, and a Dafny string of characters cannot hold such bytes.
- GitOpsApi.Serve: the two `copy` calls (open, write, close, `git add`) are each one fallible step. A partial write before a failure is not modelled.
- GitOpsApi.Serve: JSON and YAML coding and template expansion are uninterpreted functions. `yaml.Marshal`'s error on the kustomization is ignored, as in the source.
- GitOpsApi.Serve: the echo routing and its goroutine are left out: concurrency and I/O.
- Timestamps are inputs: `utils.ShortTimestamp`, `metav1.Now` and the commit's `When`. `LastUpdated` is an integer.
- `LastUpdated`'s use as the `UpdatedAfter` filter of the pull-request listing is left out. The listing is an input, and its consequence is stated by `StaleMirrorReopened`.
- GitOpsController.DescribeObjects: the kommons builder is described, not run. Each object is a record of the settings passed to the builder. Base64 decoding of the git key is an opaque field.
- k8s/dynamic.go, main.go and the GitRepository controller are left out: plumbing with no decision logic of its own.
- `openOrCreate` and `deleteFile` in controllers/utils.go are left out: filesystem calls, folded into the fallible save step.
- GoStrings.RemoveAll: the contract states only that the result is never longer. Its behaviour on content paths is stated by RemoveAllAbsent, RemoveAllLeading and GitOpsApi.RelativePathUnderDir.
- GitOpsApi.EditSpec, GitOpsApi.KustomizationSpec, GitOpsApi.PublishSpec: each ensures states only that the response is 202 or 500. The ordering and content of their effects are stated by EditOrder, KustomizationOrder, PublishOrder, EditAttributed and EditWorktree.

## Findings

| source | as written | input that shows it | evidently intended | confidence | as-written member | corrected member |
|---|---|---|---|---|---|---|
| controllers/pull_request.go:24-26 | the local-only branch wraps the createInGithub error with `gh.Name` and `gh.Namespace`, where `gh` is nil | any local mirror with no remote counterpart (`gh == nil`, `k8s != nil`) | name the local mirror (`k8s.Name`), as connectors/pull_request.go:42 does, so a local-only key completes or fails with an error (proved by LegacyControllers.LocalOnlyMergeCompletes) | not executed | LegacyControllers.LegacyLocalOnlyCrashes | PullRequestSync.MergeSpec |
