/**
 * The records the operator works with: what the hosting service returns
 * (pull requests, reviews, branch references, deployments) and the cluster-local
 * mirror resources built from them (GitBranch, GitPullRequest, GitDeployment),
 * together with the GitRepository resource that scopes a synchronisation pass.
 *
 * The pull-request mirror carries every field the code reads or writes, including
 * Head/Title/Body/Base in the spec and ID/Ref in the status, which the schema
 * file of this snapshot does not declare. Times are plain integers.
 */
module Objects {
  import opened Wrappers

  // ---------------------------------------------------------------------------
  // Label keys and cluster identity

  const RepositoryLabel: string := "git.flanksource.com/repository"
  const BranchLabel: string := "git.flanksource.com/branch"
  const DeploymentLabel: string := "git.flanksource.com/deployment"

  datatype ObjectMeta = ObjectMeta(name: string, namespace: string, labels: map<string, string>)

  /** The API server identifies an object by namespace and name. */
  datatype ObjectKey = ObjectKey(namespace: string, name: string)

  function KeyOf(meta: ObjectMeta): ObjectKey {
    ObjectKey(meta.namespace, meta.name)
  }

  // ---------------------------------------------------------------------------
  // GitRepository: the scope of a pass

  datatype GithubCredentials = GithubCredentials(owner: string, repository: string)

  datatype GitRepository = GitRepository(
    name: string,
    namespace: string,
    github: Option<GithubCredentials>,
    lastUpdated: int)

  // ---------------------------------------------------------------------------
  // Hosting-service records

  datatype Review = Review(authorLogin: string, state: string)

  datatype ScmPullRequest = ScmPullRequest(
    number: int,
    title: string,
    body: string,
    sha: string,
    ref: string,
    source: string,   // head branch name
    target: string,   // base branch name
    fork: string,     // "owner/repo" the head branch lives in
    link: string,
    authorLogin: string,
    reviewerLogins: seq<string>)

  /** What is sent to the hosting service to open a pull request. */
  datatype PullRequestInput = PullRequestInput(title: string, body: string, base: string, head: string)

  datatype ScmReference = ScmReference(name: string, sha: string)

  datatype ScmDeployment = ScmDeployment(
    id: string,
    name: string,
    ref: string,
    sha: string,
    environment: string,
    description: string,
    link: string,
    statusLink: string)

  // ---------------------------------------------------------------------------
  // Mirror resources

  datatype GitBranchSpec = GitBranchSpec(repository: string, branchName: string)
  datatype GitBranchStatus = GitBranchStatus(lastUpdated: int, head: string)
  datatype GitBranch = GitBranch(meta: ObjectMeta, spec: GitBranchSpec, status: GitBranchStatus)

  datatype GitPullRequestSpec = GitPullRequestSpec(
    repository: string,
    id: string,
    sha: string,
    ref: string,
    fork: string,
    head: string,
    title: string,
    body: string,
    base: string,
    reviewers: seq<string>)

  datatype GitPullRequestStatus = GitPullRequestStatus(
    id: string,
    ref: string,
    url: string,
    author: string,
    approvers: map<string, bool>)

  datatype GitPullRequest = GitPullRequest(
    meta: ObjectMeta,
    spec: GitPullRequestSpec,
    status: GitPullRequestStatus)

  datatype GitDeploymentSpec = GitDeploymentSpec(
    ref: string,
    sha: string,
    name: string,
    id: string,
    environment: string,
    description: string,
    autoMerge: bool)

  datatype GitDeploymentStatus = GitDeploymentStatus(
    ref: string,
    sha: string,
    id: string,
    name: string,
    environment: string,
    deploymentLink: string,
    statusLink: string)

  datatype GitDeployment = GitDeployment(
    meta: ObjectMeta,
    spec: GitDeploymentSpec,
    status: GitDeploymentStatus)
}
