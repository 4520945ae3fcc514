/**
 * Choosing a connector from a repository URL and a credentials secret
 * (connectors/connector.go), and reading repository credentials from a secret
 * (connectors/util.go, with an identical copy in controllers/util.go).
 *
 * Fetching the secret is an input: `None` when the API call failed, otherwise
 * the secret's data, with byte values taken as strings. The model returns the
 * settings the chosen connector would be built from rather than the
 * connector itself.
 */
module ConnectorSelection {
  import opened Wrappers
  import opened GoStrings

  const GithubUrlPrefix: string := "https://github.com/"
  const SshUrlPrefix: string := "ssh://"
  const GitSuffix: string := ".git"

  const ProviderKey: string := "PROVIDER"
  const GithubTokenKey: string := "GITHUB_TOKEN"
  const SshPrivateKeyKey: string := "SSH_PRIVATE_KEY"
  const SshPasswordKey: string := "SSH_PRIVATE_KEY_PASSWORD"
  const GithubProvider: string := "github"

  type SecretData = map<string, string>

  /** The errors the connectors package declares, plus the two it builds inline. */
  datatype ConnectorError =
    | NilClient
    | SecretFetchFailed(secretName: string, namespace: string)
    | InvalidRepositoryUrl(url: string)
    | NoConnectorSettings
    | ProviderNotFoundInSecret
    | GithubTokenNotFoundInSecret
    | SshPrivateKeyNotFoundInSecret
    | PublicKeysFailed
    | ProviderNotSupported

  datatype ConnectorSettings =
    | GithubSettings(owner: string, repoName: string, token: string)
    | SshSettings(address: string, user: string, privateKey: string, password: string)

  // ---------------------------------------------------------------------------
  // URL pieces

  /** The `owner/repo` part of a GitHub URL: exactly two '/'-separated parts. */
  function ParseOwnerRepo(path: string): (r: Option<(string, string)>)
    ensures r.None? <==> Occurrences(path, '/') != 1
    ensures r.Some? ==> path == r.value.0 + "/" + r.value.1 && '/' !in r.value.0 && '/' !in r.value.1
  {
    var parts := Split(path, '/');
    SplitTwoParts(path, '/');
    SplitShape(path, '/');
    if |parts| != 2 then None
    else
      assert Join(parts, '/') == parts[0] + ['/'] + Join(parts[1..], '/');
      Some((parts[0], parts[1]))
  }

  lemma ParseOwnerRepoRoundTrip(owner: string, repo: string)
    requires '/' !in owner && '/' !in repo
    ensures ParseOwnerRepo(owner + "/" + repo) == Some((owner, repo))
  {
    SplitAfter(owner, '/', repo);
    SplitNone(repo, '/');
    assert owner + "/" + repo == owner + ['/'] + repo;
  }

  /** The SSH user: the text of the address before its first '@', or all of it. */
  function SshUser(address: string): (user: string)
    ensures HasPrefix(address, user) && '@' !in user
    ensures '@' in address ==> address[|user|] == '@'
    ensures '@' !in address ==> user == address
  {
    SplitFirst(address, '@');
    Split(address, '@')[0]
  }

  // ---------------------------------------------------------------------------
  // NewConnector

  /**
   * NewConnector: the client check, then the secret fetch, and only then the
   * URL: a GitHub URL needs `owner/repo` and a token, an SSH URL needs a
   * private key that NewGitSSH can turn into public keys (`keysOk`, the
   * outcome of that parse), anything else has no connector.
   */
  function NewConnector(hasClient: bool, secretName: string, namespace: string, url: string,
                        secret: Option<SecretData>, keysOk: bool): (r: Result<ConnectorSettings, ConnectorError>)
    ensures !hasClient ==> r == Err(NilClient)
    ensures hasClient && secret.None? ==> r == Err(SecretFetchFailed(secretName, namespace))
    ensures r.Err? && r.error == InvalidRepositoryUrl(url) <==>
      hasClient && secret.Some? && HasPrefix(url, GithubUrlPrefix) && Occurrences(url[|GithubUrlPrefix|..], '/') != 1
    ensures r.Err? && r.error == NoConnectorSettings <==>
      hasClient && secret.Some? && !HasPrefix(url, GithubUrlPrefix) && !HasPrefix(url, SshUrlPrefix)
    ensures r.Ok? && r.value.GithubSettings? ==>
      '/' !in r.value.owner && '/' !in r.value.repoName &&
      (url == GithubUrlPrefix + r.value.owner + "/" + r.value.repoName ||
       url == GithubUrlPrefix + r.value.owner + "/" + r.value.repoName + GitSuffix) &&
      GithubTokenKey in secret.value && r.value.token == secret.value[GithubTokenKey]
    ensures r.Ok? && r.value.SshSettings? ==>
      url == SshUrlPrefix + r.value.address && r.value.user == SshUser(r.value.address) &&
      SshPrivateKeyKey in secret.value && r.value.privateKey == secret.value[SshPrivateKeyKey] &&
      r.value.password == (if SshPasswordKey in secret.value then secret.value[SshPasswordKey] else "") && keysOk
    ensures r.Err? && r.error == PublicKeysFailed <==>
      hasClient && secret.Some? && !HasPrefix(url, GithubUrlPrefix) && HasPrefix(url, SshUrlPrefix) &&
      SshPrivateKeyKey in secret.value && !keysOk
  {
    if !hasClient then Err(NilClient)
    else if secret.None? then Err(SecretFetchFailed(secretName, namespace))
    else if HasPrefix(url, GithubUrlPrefix) then GithubConnectorFor(url, secret.value)
    else if HasPrefix(url, SshUrlPrefix) then SshConnectorFor(url, secret.value, keysOk)
    else Err(NoConnectorSettings)
  }

  /** The GitHub branch of NewConnector: `owner/repo` after the prefix, then the token. */
  function GithubConnectorFor(url: string, secret: SecretData): (r: Result<ConnectorSettings, ConnectorError>)
    requires HasPrefix(url, GithubUrlPrefix)
    ensures r.Err? ==> r.error == InvalidRepositoryUrl(url) || r.error == GithubTokenNotFoundInSecret
    ensures r.Err? && r.error == InvalidRepositoryUrl(url) <==> Occurrences(url[|GithubUrlPrefix|..], '/') != 1
    ensures r.Ok? ==>
      r.value.GithubSettings? && '/' !in r.value.owner && '/' !in r.value.repoName &&
      (url == GithubUrlPrefix + r.value.owner + "/" + r.value.repoName ||
       url == GithubUrlPrefix + r.value.owner + "/" + r.value.repoName + GitSuffix) &&
      GithubTokenKey in secret && r.value.token == secret[GithubTokenKey]
  {
    var parsed := ParseOwnerRepo(url[|GithubUrlPrefix|..]);
    if parsed.None? then Err(InvalidRepositoryUrl(url))
    else
      var (owner, repo) := parsed.value;
      GithubUrlParts(url, owner, repo);
      if GithubTokenKey !in secret then Err(GithubTokenNotFoundInSecret)
      else Ok(GithubSettings(owner, TrimSuffix(repo, GitSuffix), secret[GithubTokenKey]))
  }

  /** A GitHub URL is the prefix, the owner, '/', and the repository name with or without `.git`. */
  lemma GithubUrlParts(url: string, owner: string, repo: string)
    requires HasPrefix(url, GithubUrlPrefix)
    requires url[|GithubUrlPrefix|..] == owner + "/" + repo && '/' !in repo
    ensures var repoName := TrimSuffix(repo, GitSuffix);
      '/' !in repoName &&
      (url == GithubUrlPrefix + owner + "/" + repoName || url == GithubUrlPrefix + owner + "/" + repoName + GitSuffix)
  {
    var repoName := TrimSuffix(repo, GitSuffix);
    assert url == GithubUrlPrefix + (owner + "/" + repo);
    if HasSuffix(repo, GitSuffix) {
      assert repo == repoName + GitSuffix;
      assert forall i :: 0 <= i < |repoName| ==> repoName[i] == repo[i];
      assert url == GithubUrlPrefix + owner + "/" + repoName + GitSuffix;
    }
  }

  /**
   * The SSH branch of NewConnector: the address after the prefix, then the
   * private key, then NewGitSSH's parse of it into public keys.
   */
  function SshConnectorFor(url: string, secret: SecretData, keysOk: bool)
    : (r: Result<ConnectorSettings, ConnectorError>)
    requires HasPrefix(url, SshUrlPrefix)
    ensures r.Err? ==> r.error == SshPrivateKeyNotFoundInSecret || r.error == PublicKeysFailed
    ensures r.Err? && r.error == SshPrivateKeyNotFoundInSecret <==> SshPrivateKeyKey !in secret
    ensures r.Err? && r.error == PublicKeysFailed <==> SshPrivateKeyKey in secret && !keysOk
    ensures r.Ok? ==>
      keysOk && r.value.SshSettings? && url == SshUrlPrefix + r.value.address && r.value.user == SshUser(r.value.address) &&
      SshPrivateKeyKey in secret && r.value.privateKey == secret[SshPrivateKeyKey] &&
      r.value.password == (if SshPasswordKey in secret then secret[SshPasswordKey] else "")
  {
    var address := url[|SshUrlPrefix|..];
    assert url == SshUrlPrefix + address;
    if SshPrivateKeyKey !in secret then Err(SshPrivateKeyNotFoundInSecret)
    else if !keysOk then Err(PublicKeysFailed)
    else
      var password := if SshPasswordKey in secret then secret[SshPasswordKey] else "";
      Ok(SshSettings(address, SshUser(address), secret[SshPrivateKeyKey], password))
  }

  /**
   * A GitHub URL built from an owner and a repository name is read back:
   * exactly one trailing `.git` is trimmed, and a name without `.git` is kept.
   */
  lemma GithubUrlRoundTrip(secretName: string, namespace: string, owner: string, repo: string, secret: SecretData,
                           keysOk: bool)
    requires '/' !in owner && '/' !in repo
    requires GithubTokenKey in secret
    ensures NewConnector(true, secretName, namespace, GithubUrlPrefix + owner + "/" + repo + GitSuffix, Some(secret), keysOk) ==
      Ok(GithubSettings(owner, repo, secret[GithubTokenKey]))
    ensures !HasSuffix(repo, GitSuffix) ==>
      NewConnector(true, secretName, namespace, GithubUrlPrefix + owner + "/" + repo, Some(secret), keysOk) ==
        Ok(GithubSettings(owner, repo, secret[GithubTokenKey]))
  {
    GithubSuffixedUrlRoundTrip(owner, repo, secret);
    if !HasSuffix(repo, GitSuffix) {
      GithubPlainUrlRoundTrip(owner, repo, secret);
    }
  }

  lemma GithubSuffixedUrlRoundTrip(owner: string, repo: string, secret: SecretData)
    requires '/' !in owner && '/' !in repo
    requires GithubTokenKey in secret
    ensures GithubConnectorFor(GithubUrlPrefix + owner + "/" + repo + GitSuffix, secret) ==
      Ok(GithubSettings(owner, repo, secret[GithubTokenKey]))
  {
    var withGit := GithubUrlPrefix + owner + "/" + repo + GitSuffix;
    assert '/' !in repo + GitSuffix;
    assert withGit[|GithubUrlPrefix|..] == owner + "/" + (repo + GitSuffix);
    ParseOwnerRepoRoundTrip(owner, repo + GitSuffix);
    var trimmed := TrimSuffix(repo + GitSuffix, GitSuffix);
    assert HasSuffix(repo + GitSuffix, GitSuffix);
    assert trimmed == (trimmed + GitSuffix)[..|repo|];
  }

  lemma GithubPlainUrlRoundTrip(owner: string, repo: string, secret: SecretData)
    requires '/' !in owner && '/' !in repo && !HasSuffix(repo, GitSuffix)
    requires GithubTokenKey in secret
    ensures GithubConnectorFor(GithubUrlPrefix + owner + "/" + repo, secret) ==
      Ok(GithubSettings(owner, repo, secret[GithubTokenKey]))
  {
    var plain := GithubUrlPrefix + owner + "/" + repo;
    assert plain[|GithubUrlPrefix|..] == owner + "/" + repo;
    ParseOwnerRepoRoundTrip(owner, repo);
  }

  /** The SSH address and user are read back from `ssh://user@host...`. */
  lemma SshUrlRoundTrip(secretName: string, namespace: string, user: string, host: string, secret: SecretData,
                        keysOk: bool)
    requires '@' !in user
    requires SshPrivateKeyKey in secret
    ensures NewConnector(true, secretName, namespace, SshUrlPrefix + user + "@" + host, Some(secret), keysOk) ==
      if !keysOk then Err(PublicKeysFailed)
      else Ok(SshSettings(user + "@" + host, user, secret[SshPrivateKeyKey],
                          if SshPasswordKey in secret then secret[SshPasswordKey] else ""))
  {
    var address := user + "@" + host;
    var url := SshUrlPrefix + address;
    assert SshUrlPrefix + user + "@" + host == url;
    assert HasPrefix(url, SshUrlPrefix);
    assert !HasPrefix(url, GithubUrlPrefix) by {
      assert url[1] == 's';
    }
    assert url[|SshUrlPrefix|..] == address;
    SshUserOfAddress(user, host);
  }

  /** The user of `user@host` is `user` when it holds no '@' itself. */
  lemma SshUserOfAddress(user: string, host: string)
    requires '@' !in user
    ensures SshUser(user + "@" + host) == user
  {
    var address := user + "@" + host;
    var u := SshUser(address);
    assert address[|user|] == '@';
    assert forall k :: 0 <= k < |user| ==> address[k] == user[k] && address[k] != '@';
    assert |u| == |user|;
    assert u == address[..|user|] == user;
  }


  // ---------------------------------------------------------------------------
  // GetRepositoryCredentials

  datatype RepositoryCredentials = RepositoryCredentials(provider: string, authToken: string)

  /**
   * GetRepositoryCredentials: a failed fetch is returned before any field is
   * read; a secret without PROVIDER is refused; only the "github" provider is
   * supported, and it needs a token.
   */
  function GetRepositoryCredentials(secretName: string, namespace: string, secret: Option<SecretData>)
    : (r: Result<RepositoryCredentials, ConnectorError>)
    ensures secret.None? ==> r == Err(SecretFetchFailed(secretName, namespace))
    ensures secret.Some? && ProviderKey !in secret.value ==> r == Err(ProviderNotFoundInSecret)
    ensures secret.Some? && ProviderKey in secret.value && secret.value[ProviderKey] != GithubProvider ==>
      r == Err(ProviderNotSupported)
    ensures r.Ok? <==>
      secret.Some? && ProviderKey in secret.value && secret.value[ProviderKey] == GithubProvider &&
      GithubTokenKey in secret.value
    ensures r.Ok? ==> r.value == RepositoryCredentials(GithubProvider, secret.value[GithubTokenKey])
  {
    if secret.None? then Err(SecretFetchFailed(secretName, namespace))
    else if ProviderKey !in secret.value then Err(ProviderNotFoundInSecret)
    else if secret.value[ProviderKey] == GithubProvider then
      if GithubTokenKey !in secret.value then Err(GithubTokenNotFoundInSecret)
      else Ok(RepositoryCredentials(secret.value[ProviderKey], secret.value[GithubTokenKey]))
    else Err(ProviderNotSupported)
  }

  /**
   * The two readers of a secret agree on the token: for a well-formed GitHub
   * URL, a secret that yields GitHub credentials yields a GitHub connector
   * with the same token, and a missing token is the same error in both.
   */
  lemma CredentialsAgreeWithConnector(secretName: string, namespace: string, owner: string, repo: string,
                                      secret: SecretData, keysOk: bool)
    requires '/' !in owner && '/' !in repo
    requires ProviderKey in secret && secret[ProviderKey] == GithubProvider
    ensures var creds := GetRepositoryCredentials(secretName, namespace, Some(secret));
      var conn := NewConnector(true, secretName, namespace, GithubUrlPrefix + owner + "/" + repo + GitSuffix, Some(secret), keysOk);
      (creds.Ok? <==> conn.Ok?) &&
      (creds.Ok? ==> conn.value.GithubSettings? && conn.value.token == creds.value.authToken) &&
      (creds.Err? ==> creds.error == conn.error == GithubTokenNotFoundInSecret)
  {
    if GithubTokenKey in secret {
      GithubUrlRoundTrip(secretName, namespace, owner, repo, secret, keysOk);
    } else {
      var url := GithubUrlPrefix + owner + "/" + repo + GitSuffix;
      assert HasPrefix(url, GithubUrlPrefix);
      assert '/' !in repo + GitSuffix;
      assert url[|GithubUrlPrefix|..] == owner + "/" + (repo + GitSuffix);
      ParseOwnerRepoRoundTrip(owner, repo + GitSuffix);
    }
  }
}
