/**
 * Deterministic names of mirror resources and of repositories, and the
 * fork-aware `head` of a pull request (connectors/github_util.go and its
 * older copy in controllers/util.go and controllers/github.go).
 */
module Naming {
  import opened Wrappers
  import opened GoStrings
  import opened Objects

  /** `owner/repo`, the full repository name the hosting service uses. */
  function RepositoryName(owner: string, repoName: string): string {
    owner + "/" + repoName
  }

  /** Mirror name of a branch: `<repository>-<branch>`. */
  function BranchName(repository: string, branch: string): string {
    repository + "-" + branch
  }

  /** Mirror name of a deployment: `<repository>-<name>-<ref>`. */
  function DeploymentName(repository: string, name: string, ref: string): string {
    repository + "-" + name + "-" + ref
  }

  /** Mirror name of a pull request: `<repository>-<number>` in decimal. */
  function PullRequestName(repository: string, number: int): string {
    repository + "-" + Itoa(number)
  }

  /**
   * getRepositoryName: the empty string when the repository has no GitHub
   * coordinates, otherwise `owner/repository`.
   */
  function GetRepositoryName(r: GitRepository): (name: string)
    ensures r.github.None? <==> name == ""
    ensures r.github.Some? ==> name == RepositoryName(r.github.value.owner, r.github.value.repository)
  {
    if r.github.None? then "" else RepositoryName(r.github.value.owner, r.github.value.repository)
  }

  /**
   * The head a pull request is opened from: the source branch itself when the
   * fork is this repository, otherwise `<fork owner>:<source>`, where the fork
   * owner is the text of `fork` before its first '/'.
   */
  function Head(fork: string, source: string, repositoryName: string): (head: string)
    ensures fork == repositoryName ==> head == source
    ensures fork != repositoryName ==>
      exists owner :: head == owner + ":" + source && HasPrefix(fork, owner) && '/' !in owner &&
        (owner == fork || fork[|owner|] == '/')
  {
    if fork == repositoryName then source
    else
      var owner := Split(fork, '/')[0];
      SplitFirst(fork, '/');
      owner + ":" + source
  }

  lemma AppendCancel(prefix: string, a: string, b: string)
    requires prefix + a == prefix + b
    ensures a == b
  {
    assert a == (prefix + a)[|prefix|..];
    assert b == (prefix + b)[|prefix|..];
  }

  /**
   * Within one repository, pull requests with different numbers get mirrors
   * with different names, so the `<repository>-<number>` key is an identity.
   */
  lemma PullRequestNameInjective(repository: string, a: int, b: int)
    ensures PullRequestName(repository, a) == PullRequestName(repository, b) ==> a == b
  {
    if PullRequestName(repository, a) == PullRequestName(repository, b) {
      AppendCancel(repository + "-", Itoa(a), Itoa(b));
      ItoaInjective(a, b);
    }
  }

  /** Within one repository, different branch names give different mirror names. */
  lemma BranchNameInjective(repository: string, a: string, b: string)
    ensures BranchName(repository, a) == BranchName(repository, b) ==> a == b
  {
    if BranchName(repository, a) == BranchName(repository, b) {
      AppendCancel(repository + "-", a, b);
    }
  }

  /**
   * The deployment name is not an identity: a '-' inside the deployment name
   * or the ref lets two different deployments share one mirror name.
   */
  lemma DeploymentNameCollides(repository: string, a: string, b: string, c: string)
    ensures (a + "-" + b, c) != (a, b + "-" + c)
    ensures DeploymentName(repository, a + "-" + b, c) == DeploymentName(repository, a, b + "-" + c)
  {
  }

  /** The owner of a fork is read back from `owner/repo`. */
  lemma RepositoryOwner(owner: string, repoName: string)
    requires '/' !in owner
    ensures Split(RepositoryName(owner, repoName), '/')[0] == owner
  {
    var s := RepositoryName(owner, repoName);
    SplitFirst(s, '/');
    var first := Split(s, '/')[0];
    assert s[|owner|] == '/';
    assert first == s[..|first|];
  }
}
