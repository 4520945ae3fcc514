/**
 * The GitOps API request pipeline (`serve` in controllers/gitopsapi_controller.go).
 * A POST names a GitopsAPI object and carries one Kubernetes object as JSON.
 * The handler:
 *   - authenticates the caller;
 *   - clones the repository the API points at;
 *   - writes the object as YAML to a templated path;
 *   - adds that path to a kustomization file;
 *   - commits and pushes;
 *   - opens a pull request when the API asks for one.
 *
 * Everything the handler learns from outside is an input held in `Env`: the
 * API object, the secrets, the clone, the outcome of each file write, the
 * commit hash, and the outcome of the push and of the pull request. JSON and
 * YAML coding and template expansion are functions held in `Codecs`, left
 * uninterpreted. What the handler does is its response plus the effects it
 * had on the repository, in order.
 */
module GitOpsApi {
  import opened Wrappers
  import opened GoStrings
  import opened ConnectorSelection
  import GithubConnector

  const TokenKey: string := "TOKEN"
  const DefaultBaseBranch: string := "master"
  const WorkBranchPrefix: string := "automated-update-"
  const DefaultAuthorName: string := "Git Operator"
  const DefaultAuthorEmail: string := "git-operator@noreply.flanksource.com"
  const CommitMessage: string := "Automated Update"
  const PullRequestTitlePrefix: string := "Automated update "

  /** The fields of a GitopsAPI's spec that the handler reads; both references are optional. */
  datatype ApiSpec = ApiSpec(gitRepository: string, gitUser: string, gitEmail: string, branch: string,
                             pullRequest: bool, secretRef: Option<string>, tokenRef: Option<string>,
                             reviewers: seq<string>, kustomization: string, path: string)

  /** The route's parameters, the `token` query parameter, the Authorization header and the body. */
  datatype Request = Request(namespace: string, name: string, pathToken: string, queryToken: string,
                             authorization: string, body: string)

  /** A decoded object: the three fields the handler reads by name, and the rest as opaque text. */
  datatype Object = Object(kind: string, namespace: string, name: string, rest: string)

  /** A kustomization file: its resource list, and every other field as opaque text. */
  datatype Kustomization = Kustomization(resources: seq<string>, rest: string)

  /** A worktree: file contents by path. */
  type Files = map<string, string>

  /** The foreign coders and the template engine. */
  datatype Codecs = Codecs(
    decode: string -> Option<Object>,             // JSON unmarshalling of the body
    toYaml: Object -> Option<string>,             // YAML marshalling of the object
    template: (string, Object) -> Option<string>, // text templating over the object
    parse: string -> Option<Kustomization>,       // YAML unmarshalling of a kustomization
    render: Kustomization -> string)              // YAML marshalling (its error is ignored)

  /** What the handler's calls to the cluster, the clock and the repository return. */
  datatype Env = Env(
    api: Option<ApiSpec>,            // the GitopsAPI lookup; None on any error
    tokenSecret: Option<SecretData>, // the TokenRef secret; None when the fetch failed
    hasClient: bool,                 // what NewConnector is given
    repoSecret: Option<SecretData>,
    sshKeysOk: bool,                 // whether NewGitSSH can parse the private key into public keys
    clone: Option<Files>,            // the cloned worktree; None when the clone failed
    timestamp: string,
    codecs: Codecs,
    contentSaveOk: bool,             // the outcome of each `copy` into the worktree
    kustomizationReadOk: bool,       // whether reading the opened kustomization file succeeded
    kustomizationSaveOk: bool,
    hash: Option<string>,            // the new commit; None when the commit failed
    pushOk: bool,
    checkoutOk: bool,                // the work branch's checkout, whose error the handler ignores
    prOpenOk: bool,                  // opening the pull request
    reviewOk: bool)                  // requesting reviews, asked only when reviewers are named

  datatype Author = Author(name: string, email: string)

  /** A change the handler made to the repository, its worktree or its hosting service. */
  datatype Effect =
    | Cloned(requested: string)     // Clone is passed this branch but clones the remote's default one
    | CheckedOut(branch: string)
    | Saved(path: string, data: string)
    | Committed(message: string, author: Author)
    | Pushed
    | OpenedPullRequest(pr: GithubConnector.PullRequest)

  /** The step whose failure produced a 500 response. */
  datatype Step =
    | TokenSecretStep
    | ConnectorStep(error: ConnectorError)
    | CloneStep
    | DecodeStep
    | KustomizationPathStep
    | ContentPathStep
    | SaveContentStep
    | OpenKustomizationStep
    | ReadKustomizationStep
    | ParseKustomizationStep
    | SaveKustomizationStep
    | CommitStep
    | PushStep
    | PullRequestStep
    | ReviewRequestStep

  /** The reply: 202 with "Committed <hash>", 404, 403, 500, or no reply at all after a nil dereference. */
  datatype Response = Accepted(hash: string) | NotFound | Forbidden | ServerError(step: Step) | Panicked

  function Status(r: Response): Option<int> {
    match r
    case Accepted(_) => Some(202)
    case NotFound => Some(404)
    case Forbidden => Some(403)
    case ServerError(_) => Some(500)
    case Panicked => None
  }

  // ---------------------------------------------------------------------------
  // Authentication

  /** The first candidate that is not empty, or "" when all are. */
  function FirstNonEmpty(candidates: seq<string>): string {
    if |candidates| == 0 then ""
    else if candidates[0] != "" then candidates[0]
    else FirstNonEmpty(candidates[1..])
  }

  /** The token comes from the path, else the query, else the Authorization header. */
  function RequestToken(req: Request): (token: string)
    ensures token == if req.pathToken != "" then req.pathToken
                     else if req.queryToken != "" then req.queryToken
                     else req.authorization
  {
    var candidates := [req.pathToken, req.queryToken, req.authorization];
    assert candidates[1..][1..] == [req.authorization];
    assert FirstNonEmpty(candidates[1..][1..][1..]) == "";
    assert FirstNonEmpty(candidates[1..][1..]) == req.authorization;
    assert FirstNonEmpty(candidates[1..]) == if req.queryToken != "" then req.queryToken else req.authorization;
    FirstNonEmpty(candidates)
  }

  /** FirstNonEmpty picks the earliest non-empty candidate, and is empty only when all are. */
  lemma {:induction false} FirstNonEmptyPicks(candidates: seq<string>)
    ensures FirstNonEmpty(candidates) == "" <==> forall i :: 0 <= i < |candidates| ==> candidates[i] == ""
    ensures FirstNonEmpty(candidates) != "" ==>
      exists i :: 0 <= i < |candidates| && candidates[i] == FirstNonEmpty(candidates) &&
        forall j :: 0 <= j < i ==> candidates[j] == ""
  {
    if |candidates| > 0 && candidates[0] == "" {
      var rest := candidates[1..];
      FirstNonEmptyPicks(rest);
      assert forall i :: 1 <= i < |candidates| ==> candidates[i] == rest[i - 1];
      if FirstNonEmpty(rest) != "" {
        var i :| 0 <= i < |rest| && rest[i] == FirstNonEmpty(rest) && forall j :: 0 <= j < i ==> rest[j] == "";
        assert candidates[i + 1] == rest[i];
      }
    }
  }

  /** A missing key reads as the empty value, as a Go map lookup does. */
  function SecretValue(data: SecretData, key: string): string {
    if key in data then data[key] else ""
  }

  /**
   * The lookup and the token check: an unknown API is 404 before anything
   * else; with a TokenRef, a failed secret fetch is 500 and a token that
   * differs from the secret's TOKEN is 403; without one, nothing is checked.
   */
  function Authorize(req: Request, env: Env): (r: Result<ApiSpec, Response>)
    ensures r.Ok? ==> env.api == Some(r.value)
    ensures r.Err? ==> r.error == NotFound || r.error == Forbidden || r.error == ServerError(TokenSecretStep)
    ensures (r.Err? && r.error == NotFound) <==> env.api.None?
  {
    if env.api.None? then Err(NotFound)
    else if env.api.value.tokenRef.None? then Ok(env.api.value)
    else if env.tokenSecret.None? then Err(ServerError(TokenSecretStep))
    else if RequestToken(req) != SecretValue(env.tokenSecret.value, TokenKey) then Err(Forbidden)
    else Ok(env.api.value)
  }

  // ---------------------------------------------------------------------------
  // Names

  /** The pull request's base: the configured branch, or "master" when none is. */
  function BaseBranch(branch: string): (base: string)
    ensures base != ""
    ensures branch != "" ==> base == branch
    ensures branch == "" ==> base == DefaultBaseBranch
  {
    if branch == "" then DefaultBaseBranch else branch
  }

  /** The work branch carries the timestamp after a fixed prefix, and can be read back. */
  function WorkBranch(timestamp: string): (name: string)
    ensures HasPrefix(name, WorkBranchPrefix) && name[|WorkBranchPrefix|..] == timestamp
  {
    WorkBranchPrefix + timestamp
  }

  /** The commit author: the configured name and email, each replaced by a default when empty. */
  function CommitAuthor(api: ApiSpec): (author: Author)
    ensures author.name != "" && author.email != ""
    ensures api.gitUser != "" ==> author.name == api.gitUser
    ensures api.gitUser == "" ==> author.name == DefaultAuthorName
    ensures api.gitEmail != "" ==> author.email == api.gitEmail
    ensures api.gitEmail == "" ==> author.email == DefaultAuthorEmail
  {
    Author(if api.gitUser == "" then DefaultAuthorName else api.gitUser,
           if api.gitEmail == "" then DefaultAuthorEmail else api.gitEmail)
  }

  /** The kustomization entry: the content path with every `<dir of kustomization>/` removed. */
  function RelativePath(contentPath: string, kustomizationPath: string): string {
    RemoveAll(contentPath, Dir(kustomizationPath) + "/")
  }

  /**
   * A content path directly below the kustomization's directory becomes the
   * remainder after that directory, when the remainder does not itself
   * contain the directory prefix.
   */
  lemma RelativePathUnderDir(kustomizationPath: string, rest: string)
    requires !Contains(rest, Dir(kustomizationPath) + "/")
    ensures RelativePath(Dir(kustomizationPath) + "/" + rest, kustomizationPath) == rest
  {
    var prefix := Dir(kustomizationPath) + "/";
    RemoveAllLeading(prefix, rest);
    RemoveAllAbsent(rest, prefix);
  }

  function PullRequestBody(obj: Object, contentPath: string): string {
    "Added resource `" + obj.kind + "/" + obj.namespace + "/" + obj.name + "` in `" + contentPath + "`"
  }

  /** The pull request proposing the work branch for the base branch. */
  function PullRequestFor(api: ApiSpec, timestamp: string, obj: Object, contentPath: string)
    : GithubConnector.PullRequest
  {
    GithubConnector.PullRequest("", PullRequestTitlePrefix + timestamp, PullRequestBody(obj, contentPath),
                                BaseBranch(api.branch), WorkBranch(timestamp), api.reviewers)
  }

  // ---------------------------------------------------------------------------
  // The pipeline, stage by stage

  /** The decoded object, the text to store, and the two expanded paths. */
  datatype Prepared = Prepared(obj: Object, content: string, kustomizationPath: string, contentPath: string)

  /**
   * Decoding the body (500 on failure), choosing the YAML form when it can be
   * produced and the raw body otherwise, and expanding the kustomization
   * template before the content template (500 on either failure).
   */
  function Prepare(api: ApiSpec, body: string, c: Codecs): Result<Prepared, Step> {
    var obj := c.decode(body);
    if obj.None? then Err(DecodeStep)
    else
      var pretty := c.toYaml(obj.value);
      var content := if pretty.Some? then pretty.value else body;
      var kustomizationPath := c.template(api.kustomization, obj.value);
      if kustomizationPath.None? then Err(KustomizationPathStep)
      else
        var contentPath := c.template(api.path, obj.value);
        if contentPath.None? then Err(ContentPathStep)
        else Ok(Prepared(obj.value, content, kustomizationPath.value, contentPath.value))
  }

  /**
   * A rule naming the kustomization entry for a content path and a
   * kustomization path. The pipeline takes it as a parameter, so that the
   * ordering lemmas below hold for any rule; the handler uses RelativePath.
   */
  type PathRule = (string, string) -> string

  /**
   * The kustomization file opened and read from the worktree (500 when it is
   * missing, its read fails or it does not parse), with the entry for the
   * content appended.
   */
  function UpdatedKustomization(files: Files, kustomizationPath: string, contentPath: string, readOk: bool,
                                c: Codecs, rule: PathRule): Result<string, Step>
  {
    if kustomizationPath !in files then Err(OpenKustomizationStep)
    else if !readOk then Err(ReadKustomizationStep)
    else
      var parsed := c.parse(files[kustomizationPath]);
      if parsed.None? then Err(ParseKustomizationStep)
      else
        var k := parsed.value;
        Ok(c.render(k.(resources := k.resources + [rule(contentPath, kustomizationPath)])))
  }

  /**
   * Commit, then push, then the pull request when one is asked for: it is
   * opened, and then reviews are requested when reviewers are named. Each
   * failure stops the rest; a failed review request comes after the pull
   * request is already open.
   */
  function PublishSpec(api: ApiSpec, env: Env, p: Prepared): (r: (Response, seq<Effect>))
    ensures r.0.Accepted? || r.0.ServerError?
  {
    if env.hash.None? then (ServerError(CommitStep), [])
    else
      var commit := [Committed(CommitMessage, CommitAuthor(api))];
      if !env.pushOk then (ServerError(PushStep), commit)
      else if !api.pullRequest then (Accepted(env.hash.value), commit + [Pushed])
      else if !env.prOpenOk then (ServerError(PullRequestStep), commit + [Pushed])
      else
        var pr := PullRequestFor(api, env.timestamp, p.obj, p.contentPath);
        var withPullRequest := commit + [Pushed, OpenedPullRequest(pr)];
        if |api.reviewers| > 0 && !env.reviewOk then (ServerError(ReviewRequestStep), withPullRequest)
        else (Accepted(env.hash.value), withPullRequest)
  }

  /** The kustomization is read from the worktree (which already holds the content) and saved back. */
  function KustomizationSpec(api: ApiSpec, env: Env, p: Prepared, files: Files, rule: PathRule)
    : (r: (Response, seq<Effect>))
    ensures r.0.Accepted? || r.0.ServerError?
  {
    match UpdatedKustomization(files, p.kustomizationPath, p.contentPath, env.kustomizationReadOk,
                               env.codecs, rule)
    case Err(step) => (ServerError(step), [])
    case Ok(data) =>
      if !env.kustomizationSaveOk then (ServerError(SaveKustomizationStep), [])
      else
        var published := PublishSpec(api, env, p);
        (published.0, [Saved(p.kustomizationPath, data)] + published.1)
  }

  /** The content is saved, then the kustomization is updated in the new worktree. */
  function EditSpec(api: ApiSpec, req: Request, env: Env, files: Files, rule: PathRule): (r: (Response, seq<Effect>))
    ensures r.0.Accepted? || r.0.ServerError?
  {
    match Prepare(api, req.body, env.codecs)
    case Err(step) => (ServerError(step), [])
    case Ok(p) =>
      if !env.contentSaveOk then (ServerError(SaveContentStep), [])
      else
        var rest := KustomizationSpec(api, env, p, files[p.contentPath := p.content], rule);
        (rest.0, [Saved(p.contentPath, p.content)] + rest.1)
  }

  /**
   * Everything before the first effect: authorization, the SecretRef
   * dereference, the connector and the clone. On success, the API and the
   * cloned worktree.
   */
  function Admit(req: Request, env: Env): (r: Result<(ApiSpec, Files), Response>)
    ensures r.Ok? ==> Authorize(req, env) == Ok(r.value.0) && env.api == Some(r.value.0) &&
                      env.clone == Some(r.value.1) && r.value.0.secretRef.Some?
    ensures r.Err? ==> r.error.NotFound? || r.error.Forbidden? || r.error.Panicked? ||
                       r.error == ServerError(TokenSecretStep) || r.error == ServerError(CloneStep) ||
                       (r.error.ServerError? && r.error.step.ConnectorStep?)
  {
    match Authorize(req, env)
    case Err(resp) => Err(resp)
    case Ok(api) =>
      if api.secretRef.None? then Err(Panicked)
      else
        var git := NewConnector(env.hasClient, api.secretRef.value, req.namespace, api.gitRepository, env.repoSecret,
                                env.sshKeysOk);
        if git.Err? then Err(ServerError(ConnectorStep(git.error)))
        else if env.clone.None? then Err(ServerError(CloneStep))
        else Ok((api, env.clone.value))
  }

  /**
   * The clone, then the work branch's checkout when a pull request is wanted;
   * a failed checkout is ignored, leaving the cloned branch checked out.
   */
  function StartEffects(api: ApiSpec, timestamp: string, checkoutOk: bool): seq<Effect> {
    [Cloned(api.branch)] + (if api.pullRequest && checkoutOk then [CheckedOut(WorkBranch(timestamp))] else [])
  }

  /** The pipeline after admission, for any admission outcome and any path rule. */
  function Respond(req: Request, env: Env, admitted: Result<(ApiSpec, Files), Response>, rule: PathRule)
    : (Response, seq<Effect>)
  {
    match admitted
    case Err(resp) => (resp, [])
    case Ok((api, files)) =>
      var edit := EditSpec(api, req, env, files, rule);
      (edit.0, StartEffects(api, env.timestamp, env.checkoutOk) + edit.1)
  }

  /** The whole handler: its response and the effects it had, in order. */
  function ServeSpec(req: Request, env: Env): (Response, seq<Effect>) {
    Respond(req, env, Admit(req, env), RelativePath)
  }

  // ---------------------------------------------------------------------------
  // The handler
  //
  // serve is one function; it is written here as three methods, one per
  // stage of the specification, with each step either failing with an early
  // return or extending the effects. The token, the author and the
  // kustomization are local values overwritten in place, as in the source.

  /** serve: the lookup, the token check, the connector, the clone and the checkout. */
  method Serve(req: Request, env: Env) returns (resp: Response, effects: seq<Effect>)
    ensures (resp, effects) == ServeSpec(req, env)
  {
    var token := req.pathToken;
    if token == "" {
      token := req.queryToken;
    }
    if token == "" {
      token := req.authorization;
    }
    if env.api.None? {
      return NotFound, [];
    }
    var api := env.api.value;
    if api.tokenRef.Some? {
      if env.tokenSecret.None? {
        return ServerError(TokenSecretStep), [];
      }
      if token != SecretValue(env.tokenSecret.value, TokenKey) {
        return Forbidden, [];
      }
    }
    if api.secretRef.None? {
      return Panicked, [];
    }
    var git := NewConnector(env.hasClient, api.secretRef.value, req.namespace, api.gitRepository, env.repoSecret,
                            env.sshKeysOk);
    if git.Err? {
      return ServerError(ConnectorStep(git.error)), [];
    }
    if env.clone.None? {
      return ServerError(CloneStep), [];
    }
    var files := env.clone.value;
    effects := [Cloned(api.branch)];
    var branchName := WorkBranchPrefix + env.timestamp;
    if api.pullRequest && env.checkoutOk {
      effects := effects + [CheckedOut(branchName)];
    }
    assert Admit(req, env) == Ok((api, files));
    assert effects == StartEffects(api, env.timestamp, env.checkoutOk);
    var edited;
    resp, edited := Edit(api, req, env, files);
    effects := effects + edited;
  }

  /** The body is decoded and stored, and its path is appended to the kustomization file. */
  method Edit(api: ApiSpec, req: Request, env: Env, files: Files) returns (resp: Response, effects: seq<Effect>)
    ensures (resp, effects) == EditSpec(api, req, env, files, RelativePath)
  {
    var c := env.codecs;
    var obj := c.decode(req.body);
    if obj.None? {
      return ServerError(DecodeStep), [];
    }
    var body := req.body;
    var pretty := c.toYaml(obj.value);
    if pretty.Some? {
      body := pretty.value;
    }
    var kustomizationPath := c.template(api.kustomization, obj.value);
    if kustomizationPath.None? {
      return ServerError(KustomizationPathStep), [];
    }
    var contentPath := c.template(api.path, obj.value);
    if contentPath.None? {
      return ServerError(ContentPathStep), [];
    }
    var p := Prepared(obj.value, body, kustomizationPath.value, contentPath.value);
    assert Prepare(api, req.body, c) == Ok(p);

    if !env.contentSaveOk {
      return ServerError(SaveContentStep), [];
    }
    var worktree := files[contentPath.value := body];
    effects := [Saved(contentPath.value, body)];
    assert effects + [] == effects;

    if kustomizationPath.value !in worktree {
      return ServerError(OpenKustomizationStep), effects;
    }
    if !env.kustomizationReadOk {
      return ServerError(ReadKustomizationStep), effects;
    }
    var existing := worktree[kustomizationPath.value];
    var parsed := c.parse(existing);
    if parsed.None? {
      return ServerError(ParseKustomizationStep), effects;
    }
    var kustomization := parsed.value;
    var relativePath := RemoveAll(contentPath.value, Dir(kustomizationPath.value) + "/");
    kustomization := kustomization.(resources := kustomization.resources + [relativePath]);
    existing := c.render(kustomization);
    if !env.kustomizationSaveOk {
      return ServerError(SaveKustomizationStep), effects;
    }
    assert relativePath == RelativePath(contentPath.value, kustomizationPath.value);
    assert UpdatedKustomization(worktree, kustomizationPath.value, contentPath.value, env.kustomizationReadOk, c, RelativePath) == Ok(existing);
    var saved := [Saved(kustomizationPath.value, existing)];
    var published;
    resp, published := Publish(api, env, p);
    assert KustomizationSpec(api, env, p, worktree, RelativePath) == (resp, saved + published);
    effects := effects + (saved + published);
  }

  /** The commit with the defaulted author, the push, and the pull request when one is asked for. */
  method Publish(api: ApiSpec, env: Env, p: Prepared) returns (resp: Response, effects: seq<Effect>)
    ensures (resp, effects) == PublishSpec(api, env, p)
  {
    var author := Author(api.gitUser, api.gitEmail);
    if author.name == "" {
      author := author.(name := DefaultAuthorName);
    }
    if author.email == "" {
      author := author.(email := DefaultAuthorEmail);
    }
    assert author == CommitAuthor(api);
    if env.hash.None? {
      return ServerError(CommitStep), [];
    }
    effects := [Committed(CommitMessage, author)];
    if !env.pushOk {
      return ServerError(PushStep), effects;
    }
    effects := effects + [Pushed];
    if api.pullRequest {
      var defaultBranch := api.branch;
      if defaultBranch == "" {
        defaultBranch := DefaultBaseBranch;
      }
      var pr := GithubConnector.PullRequest("", PullRequestTitlePrefix + env.timestamp,
                                            PullRequestBody(p.obj, p.contentPath),
                                            defaultBranch, WorkBranchPrefix + env.timestamp, api.reviewers);
      assert pr == PullRequestFor(api, env.timestamp, p.obj, p.contentPath);
      if !env.prOpenOk {
        return ServerError(PullRequestStep), effects;
      }
      effects := effects + [OpenedPullRequest(pr)];
      assert effects == [Committed(CommitMessage, author)] + [Pushed, OpenedPullRequest(pr)];
      if |api.reviewers| > 0 && !env.reviewOk {
        return ServerError(ReviewRequestStep), effects;
      }
    }
    return Accepted(env.hash.value), effects;
  }

  // ---------------------------------------------------------------------------
  // Authentication properties

  /** An unknown API is answered 404 whatever the token, and nothing is touched. */
  lemma UnknownApiNotFound(req: Request, env: Env)
    requires env.api.None?
    ensures ServeSpec(req, env) == (NotFound, [])
    ensures Status(ServeSpec(req, env).0) == Some(404)
  {
  }

  /** With a TokenRef, a token that differs from the secret's TOKEN is answered 403 and nothing is touched. */
  lemma WrongTokenForbidden(req: Request, env: Env)
    requires env.api.Some? && env.api.value.tokenRef.Some? && env.tokenSecret.Some?
    requires RequestToken(req) != SecretValue(env.tokenSecret.value, TokenKey)
    ensures ServeSpec(req, env) == (Forbidden, [])
  {
  }

  /** Past authorization, no step answers 403 or 404. */
  lemma ServedNotForbidden(req: Request, env: Env)
    requires Authorize(req, env).Ok?
    ensures ServeSpec(req, env).0 != Forbidden && ServeSpec(req, env).0 != NotFound
  {
  }

  /** 403 is given only for a TokenRef whose TOKEN differs from the request's token. */
  lemma ForbiddenOnlyOnMismatch(req: Request, env: Env)
    requires ServeSpec(req, env).0 == Forbidden
    ensures env.api.Some? && env.api.value.tokenRef.Some? && env.tokenSecret.Some?
    ensures RequestToken(req) != SecretValue(env.tokenSecret.value, TokenKey)
  {
    if Authorize(req, env).Ok? {
      ServedNotForbidden(req, env);
    }
  }

  /** Without a TokenRef, the request's tokens change nothing about the outcome, and nothing is 403. */
  lemma NoTokenRefIgnoresToken(req: Request, env: Env, pathToken: string, queryToken: string, authorization: string)
    requires env.api.Some? && env.api.value.tokenRef.None?
    ensures ServeSpec(req, env) ==
      ServeSpec(req.(pathToken := pathToken, queryToken := queryToken, authorization := authorization), env)
    ensures ServeSpec(req, env).0 != Forbidden
  {
    ServedNotForbidden(req, env);
  }

  /**
   * A TokenRef secret without a TOKEN entry reads as "", so a request that
   * carries no token at all passes the check.
   */
  lemma MissingTokenKeyAdmitsEmptyToken(req: Request, env: Env)
    requires env.api.Some? && env.api.value.tokenRef.Some?
    requires env.tokenSecret.Some? && TokenKey !in env.tokenSecret.value
    requires req.pathToken == "" && req.queryToken == "" && req.authorization == ""
    ensures Authorize(req, env) == Ok(env.api.value)
    ensures ServeSpec(req, env).0 != Forbidden
  {
    ServedNotForbidden(req, env);
  }

  /** An authorized request for an API without a SecretRef dereferences nil before any effect. */
  lemma NilSecretRefPanics(req: Request, env: Env)
    requires Authorize(req, env).Ok? && Authorize(req, env).value.secretRef.None?
    ensures ServeSpec(req, env) == (Panicked, [])
    ensures Status(ServeSpec(req, env).0).None?
  {
  }

  // ---------------------------------------------------------------------------
  // Ordering of the effects

  /** The position of an effect in the pipeline; the two saves share one. */
  function Rank(e: Effect): nat {
    match e
    case Cloned(_) => 0
    case CheckedOut(_) => 1
    case Saved(_, _) => 2
    case Committed(_, _) => 3
    case Pushed => 4
    case OpenedPullRequest(_) => 5
  }

  predicate InPipelineOrder(effects: seq<Effect>) {
    forall i, j :: 0 <= i < j < |effects| ==> Rank(effects[i]) <= Rank(effects[j])
  }

  predicate RanksWithin(effects: seq<Effect>, lo: nat, hi: nat) {
    forall i :: 0 <= i < |effects| ==> lo <= Rank(effects[i]) <= hi
  }

  /**
   * How far a run with this response got: 2 (the saves) for any failure up
   * to and including the commit, 3 after a failed push, 4 after a failed
   * open or an accepted run without a pull request, 5 after a failed review
   * request or an accepted run with one.
   */
  function Reached(resp: Response, pullRequest: bool): nat {
    match resp
    case ServerError(PushStep) => 3
    case ServerError(PullRequestStep) => 4
    case ServerError(ReviewRequestStep) => 5
    case Accepted(_) => if pullRequest then 5 else 4
    case _ => 2
  }

  /** A run whose last effect is a publishing step. */
  predicate EndsAt(effects: seq<Effect>, rank: nat) {
    |effects| > 0 && Rank(effects[|effects| - 1]) == rank
  }

  lemma OrderConcat(a: seq<Effect>, b: seq<Effect>, mid: nat)
    requires InPipelineOrder(a) && InPipelineOrder(b)
    requires forall i :: 0 <= i < |a| ==> Rank(a[i]) <= mid
    requires forall i :: 0 <= i < |b| ==> mid <= Rank(b[i])
    ensures InPipelineOrder(a + b)
  {
    var ab := a + b;
    forall i, j | 0 <= i < j < |ab|
      ensures Rank(ab[i]) <= Rank(ab[j])
    {
      if j < |a| {
        assert ab[i] == a[i] && ab[j] == a[j];
      } else if i >= |a| {
        assert ab[i] == b[i - |a|] && ab[j] == b[j - |a|];
      } else {
        assert ab[i] == a[i] && ab[j] == b[j - |a|];
      }
    }
  }

  lemma RanksConcat(a: seq<Effect>, b: seq<Effect>, lo: nat, hi: nat)
    requires RanksWithin(a, lo, hi) && RanksWithin(b, lo, hi)
    ensures RanksWithin(a + b, lo, hi)
  {
    assert forall i :: 0 <= i < |a + b| ==> (a + b)[i] == if i < |a| then a[i] else b[i - |a|];
  }

  /** The commit, push and pull request come in that order, each only after the one before succeeded. */
  lemma PublishOrder(api: ApiSpec, env: Env, p: Prepared)
    ensures var r := PublishSpec(api, env, p);
      InPipelineOrder(r.1) && RanksWithin(r.1, 3, Reached(r.0, api.pullRequest)) &&
      (Reached(r.0, api.pullRequest) > 2 ==> EndsAt(r.1, Reached(r.0, api.pullRequest))) &&
      (r.0.Accepted? ==> env.hash == Some(r.0.hash) && Pushed in r.1)
  {
    if env.hash.Some? {
      var c := Committed(CommitMessage, CommitAuthor(api));
      var r := PublishSpec(api, env, p);
      if !env.pushOk {
        assert r.1 == [c];
      } else if !api.pullRequest || !env.prOpenOk {
        assert r.1 == [c, Pushed];
        assert r.1[1] == Pushed;
      } else {
        var o := OpenedPullRequest(PullRequestFor(api, env.timestamp, p.obj, p.contentPath));
        assert r.1 == [c, Pushed, o];
        assert r.1[1] == Pushed;
      }
    }
  }

  lemma KustomizationOrder(api: ApiSpec, env: Env, p: Prepared, files: Files, rule: PathRule)
    ensures var r := KustomizationSpec(api, env, p, files, rule);
      InPipelineOrder(r.1) && RanksWithin(r.1, 2, Reached(r.0, api.pullRequest)) &&
      (Reached(r.0, api.pullRequest) > 2 ==> EndsAt(r.1, Reached(r.0, api.pullRequest))) &&
      (r.0.Accepted? ==> env.hash == Some(r.0.hash) && Pushed in r.1)
  {
    var update := UpdatedKustomization(files, p.kustomizationPath, p.contentPath, env.kustomizationReadOk, env.codecs, rule);
    if update.Ok? && env.kustomizationSaveOk {
      var saved := [Saved(p.kustomizationPath, update.value)];
      var r := PublishSpec(api, env, p);
      PublishOrder(api, env, p);
      OrderConcat(saved, r.1, 2);
      RanksConcat(saved, r.1, 2, Reached(r.0, api.pullRequest));
      assert KustomizationSpec(api, env, p, files, rule) == (r.0, saved + r.1);
      if r.0.Accepted? {
        assert Pushed in saved + r.1;
      }
    }
  }

  lemma EditOrder(api: ApiSpec, req: Request, env: Env, files: Files, rule: PathRule)
    ensures var r := EditSpec(api, req, env, files, rule);
      InPipelineOrder(r.1) && RanksWithin(r.1, 2, Reached(r.0, api.pullRequest)) &&
      (Reached(r.0, api.pullRequest) > 2 ==> EndsAt(r.1, Reached(r.0, api.pullRequest))) &&
      (r.0.Accepted? ==> env.hash == Some(r.0.hash) && Pushed in r.1)
  {
    var prepared := Prepare(api, req.body, env.codecs);
    if prepared.Ok? && env.contentSaveOk {
      var p := prepared.value;
      var saved := [Saved(p.contentPath, p.content)];
      var r := KustomizationSpec(api, env, p, files[p.contentPath := p.content], rule);
      KustomizationOrder(api, env, p, files[p.contentPath := p.content], rule);
      OrderConcat(saved, r.1, 2);
      RanksConcat(saved, r.1, 2, Reached(r.0, api.pullRequest));
      assert EditSpec(api, req, env, files, rule) == (r.0, saved + r.1);
      if r.0.Accepted? {
        assert Pushed in saved + r.1;
      }
    }
  }

  lemma RespondOrder(req: Request, env: Env, admitted: Result<(ApiSpec, Files), Response>, rule: PathRule)
    requires admitted.Err? ==> Reached(admitted.error, false) == 2
    ensures var r := Respond(req, env, admitted, rule);
      var wanted := admitted.Ok? && admitted.value.0.pullRequest;
      InPipelineOrder(r.1) && RanksWithin(r.1, 0, Reached(r.0, wanted)) &&
      (Reached(r.0, wanted) > 2 ==> EndsAt(r.1, Reached(r.0, wanted))) &&
      (r.0.Accepted? ==> env.hash == Some(r.0.hash) && Pushed in r.1)
  {
    match admitted
    case Err(_) =>
    case Ok((api, files)) =>
      var start := StartEffects(api, env.timestamp, env.checkoutOk);
      var r := EditSpec(api, req, env, files, rule);
      EditOrder(api, req, env, files, rule);
      assert InPipelineOrder(start);
      OrderConcat(start, r.1, 2);
      RanksConcat(start, r.1, 0, Reached(r.0, api.pullRequest));
      if r.0.Accepted? {
        assert Pushed in start + r.1;
      }
  }

  /**
   * The effects follow the pipeline's order (clone, checkout, saves, commit,
   * push, pull request), and a failure stops everything after it:
   *   - a failure up to and including the commit leaves no commit, push or pull request;
   *   - a failed push ends with the commit and leaves no push;
   *   - a failed open of the pull request ends with the push;
   *   - a failed review request ends with the pull request, which is open;
   *   - a 202 carries the commit's hash, after a push, and ends with the pull
   *     request exactly when the API asks for one.
   */
  lemma StepOrdering(req: Request, env: Env)
    ensures var r := ServeSpec(req, env);
      var wanted := env.api.Some? && env.api.value.pullRequest;
      InPipelineOrder(r.1) && RanksWithin(r.1, 0, Reached(r.0, wanted)) &&
      (Reached(r.0, wanted) > 2 ==> EndsAt(r.1, Reached(r.0, wanted))) &&
      (r.0.Accepted? ==> env.hash == Some(r.0.hash) && Pushed in r.1)
  {
    RespondOrder(req, env, Admit(req, env), RelativePath);
  }

  /**
   * A 500 from the review request comes after the pull request was opened:
   * the run's last effect is that pull request, which stays open.
   */
  lemma ReviewFailureLeavesPullRequestOpen(req: Request, env: Env)
    requires ServeSpec(req, env).0 == ServerError(ReviewRequestStep)
    ensures var effects := ServeSpec(req, env).1;
      |effects| > 0 && effects[|effects| - 1].OpenedPullRequest?
  {
    StepOrdering(req, env);
  }

  // ---------------------------------------------------------------------------
  // What each effect carries

  /**
   * The clone is asked for the configured branch (which Clone does not use);
   * the checkout and the pull request
   * happen only when the API asks for a pull request, and name the work
   * branch; the pull request proposes it for the base branch with the API's
   * reviewers; every commit has the fixed message and the defaulted author.
   */
  predicate Attributed(e: Effect, api: ApiSpec, timestamp: string) {
    match e
    case Cloned(requested) => requested == api.branch
    case CheckedOut(branch) => api.pullRequest && branch == WorkBranch(timestamp)
    case Saved(_, _) => true
    case Committed(message, author) => message == CommitMessage && author == CommitAuthor(api)
    case Pushed => true
    case OpenedPullRequest(pr) =>
      api.pullRequest && pr.head == WorkBranch(timestamp) && pr.base == BaseBranch(api.branch) &&
      pr.title == PullRequestTitlePrefix + timestamp && pr.reviewers == api.reviewers
  }

  predicate AllAttributed(effects: seq<Effect>, api: ApiSpec, timestamp: string) {
    forall i :: 0 <= i < |effects| ==> Attributed(effects[i], api, timestamp)
  }

  lemma AttributedConcat(a: seq<Effect>, b: seq<Effect>, api: ApiSpec, timestamp: string)
    requires AllAttributed(a, api, timestamp) && AllAttributed(b, api, timestamp)
    ensures AllAttributed(a + b, api, timestamp)
  {
    assert forall i :: 0 <= i < |a + b| ==> (a + b)[i] == if i < |a| then a[i] else b[i - |a|];
  }

  lemma EditAttributed(api: ApiSpec, req: Request, env: Env, files: Files, rule: PathRule)
    ensures AllAttributed(EditSpec(api, req, env, files, rule).1, api, env.timestamp)
  {
    var prepared := Prepare(api, req.body, env.codecs);
    if prepared.Ok? && env.contentSaveOk {
      var p := prepared.value;
      var worktree := files[p.contentPath := p.content];
      var update := UpdatedKustomization(worktree, p.kustomizationPath, p.contentPath, env.kustomizationReadOk, env.codecs, rule);
      if update.Ok? && env.kustomizationSaveOk {
        AttributedConcat([Saved(p.kustomizationPath, update.value)], PublishSpec(api, env, p).1, api, env.timestamp);
      }
      AttributedConcat([Saved(p.contentPath, p.content)], KustomizationSpec(api, env, p, worktree, rule).1,
                       api, env.timestamp);
    }
  }

  lemma RespondAttributed(req: Request, env: Env, admitted: Result<(ApiSpec, Files), Response>, rule: PathRule)
    ensures Respond(req, env, admitted, rule).1 != [] ==>
      admitted.Ok? && AllAttributed(Respond(req, env, admitted, rule).1, admitted.value.0, env.timestamp)
  {
    match admitted
    case Err(_) =>
    case Ok((api, files)) =>
      EditAttributed(api, req, env, files, rule);
      AttributedConcat(StartEffects(api, env.timestamp, env.checkoutOk), EditSpec(api, req, env, files, rule).1, api, env.timestamp);
  }

  /** Every effect of a run carries what the API and the timestamp dictate. */
  lemma EffectsAttributed(req: Request, env: Env)
    ensures ServeSpec(req, env).1 != [] ==>
      env.api.Some? && AllAttributed(ServeSpec(req, env).1, env.api.value, env.timestamp)
  {
    RespondAttributed(req, env, Admit(req, env), RelativePath);
  }

  /**
   * A run with a pull request checks the work branch out right after the
   * clone when the checkout succeeds. When it fails, the run goes on with no
   * checkout at all, so the saves and the commit land on the cloned branch.
   */
  lemma CheckoutFollowsClone(req: Request, env: Env)
    requires Admit(req, env).Ok? && env.api.value.pullRequest
    ensures env.checkoutOk ==>
      |ServeSpec(req, env).1| >= 2 &&
      ServeSpec(req, env).1[..2] == [Cloned(env.api.value.branch), CheckedOut(WorkBranch(env.timestamp))]
    ensures !env.checkoutOk ==>
      ServeSpec(req, env).1[0] == Cloned(env.api.value.branch) &&
      forall i :: 0 <= i < |ServeSpec(req, env).1| ==> !ServeSpec(req, env).1[i].CheckedOut?
  {
    var api := env.api.value;
    var edit := EditSpec(api, req, env, env.clone.value, RelativePath);
    EditNoCheckout(api, req, env, env.clone.value, RelativePath);
    assert ServeSpec(req, env).1 == StartEffects(api, env.timestamp, env.checkoutOk) + edit.1;
  }

  /** Without a pull request no branch is checked out, so the commit is made on the branch the clone left. */
  lemma NoPullRequestNoCheckout(req: Request, env: Env)
    requires env.api.Some? && !env.api.value.pullRequest
    ensures forall i :: 0 <= i < |ServeSpec(req, env).1| ==> !ServeSpec(req, env).1[i].CheckedOut?
  {
    if Admit(req, env).Ok? {
      var api := env.api.value;
      EditNoCheckout(api, req, env, env.clone.value, RelativePath);
      assert ServeSpec(req, env).1 == [Cloned(api.branch)] + EditSpec(api, req, env, env.clone.value, RelativePath).1;
    }
  }

  /** The edit itself never checks a branch out. */
  lemma EditNoCheckout(api: ApiSpec, req: Request, env: Env, files: Files, rule: PathRule)
    ensures var effects := EditSpec(api, req, env, files, rule).1;
      forall i :: 0 <= i < |effects| ==> !effects[i].CheckedOut?
  {
    EditOrder(api, req, env, files, rule);
  }

  // ---------------------------------------------------------------------------
  // Repeated requests

  /** The worktree after the effects' saves, applied in order. */
  function FilesAfter(files: Files, effects: seq<Effect>): Files
    decreases |effects|
  {
    if |effects| == 0 then files
    else
      var next := if effects[0].Saved? then files[effects[0].path := effects[0].data] else files;
      FilesAfter(next, effects[1..])
  }

  /** Effects other than saves leave the worktree alone. */
  lemma {:induction false} FilesAfterNoSaves(files: Files, effects: seq<Effect>)
    requires forall i :: 0 <= i < |effects| ==> !effects[i].Saved?
    ensures FilesAfter(files, effects) == files
    decreases |effects|
  {
    if |effects| > 0 {
      FilesAfterNoSaves(files, effects[1..]);
    }
  }

  lemma {:induction false} FilesAfterConcat(files: Files, a: seq<Effect>, b: seq<Effect>)
    ensures FilesAfter(files, a + b) == FilesAfter(FilesAfter(files, a), b)
    decreases |a|
  {
    if |a| > 0 {
      assert (a + b)[1..] == a[1..] + b;
      assert (a + b)[0] == a[0];
      var next := if a[0].Saved? then files[a[0].path := a[0].data] else files;
      assert FilesAfter(files, a + b) == FilesAfter(next, a[1..] + b);
      assert FilesAfter(files, a) == FilesAfter(next, a[1..]);
      FilesAfterConcat(next, a[1..], b);
    } else {
      assert a + b == b;
    }
  }

  /** An accepted edit leaves the worktree with the content and then the updated kustomization saved. */
  lemma EditWorktree(api: ApiSpec, req: Request, env: Env, files: Files, rule: PathRule)
    requires EditSpec(api, req, env, files, rule).0.Accepted?
    ensures Prepare(api, req.body, env.codecs).Ok?
    ensures var p := Prepare(api, req.body, env.codecs).value;
      var saved := files[p.contentPath := p.content];
      var data := UpdatedKustomization(saved, p.kustomizationPath, p.contentPath, env.kustomizationReadOk, env.codecs, rule);
      data.Ok? && FilesAfter(files, EditSpec(api, req, env, files, rule).1) == saved[p.kustomizationPath := data.value]
  {
    var p := Prepare(api, req.body, env.codecs).value;
    var saved := files[p.contentPath := p.content];
    var data := UpdatedKustomization(saved, p.kustomizationPath, p.contentPath, env.kustomizationReadOk, env.codecs, rule).value;
    var saves := [Saved(p.contentPath, p.content), Saved(p.kustomizationPath, data)];
    var tail := PublishSpec(api, env, p).1;
    assert EditSpec(api, req, env, files, rule).1 == saves + tail;
    FilesAfterConcat(files, saves, tail);
    assert forall i :: 0 <= i < |tail| ==> !tail[i].Saved?;
    FilesAfterNoSaves(FilesAfter(files, saves), tail);
    assert saves[1..] == [Saved(p.kustomizationPath, data)];
    assert FilesAfter(files, saves) == FilesAfter(saved, saves[1..]);
    assert FilesAfter(saved, saves[1..]) == FilesAfter(saved[p.kustomizationPath := data], []);
  }

  /** An accepted request's worktree is the one its edit leaves: the clone and checkout save nothing. */
  lemma AcceptedWorktree(req: Request, env: Env)
    requires ServeSpec(req, env).0.Accepted?
    ensures Admit(req, env).Ok? && env.clone.Some? && env.api.Some?
    ensures FilesAfter(env.clone.value, ServeSpec(req, env).1) ==
      FilesAfter(env.clone.value, EditSpec(env.api.value, req, env, env.clone.value, RelativePath).1)
    ensures EditSpec(env.api.value, req, env, env.clone.value, RelativePath).0 == ServeSpec(req, env).0
  {
    var api := Admit(req, env).value.0;
    var start := StartEffects(api, env.timestamp, env.checkoutOk);
    FilesAfterConcat(env.clone.value, start, EditSpec(api, req, env, env.clone.value, RelativePath).1);
    FilesAfterNoSaves(env.clone.value, start);
  }

  /**
   * The resource entry is appended unconditionally: when the pushed worktree
   * is cloned again and the same request is served, the kustomization lists
   * the relative path twice (given coders for which parsing a rendered
   * kustomization gives it back, and distinct content and kustomization paths).
   */
  lemma RepeatedRequestDuplicatesResource(req: Request, env: Env)
    requires ServeSpec(req, env).0.Accepted?
    requires forall k :: env.codecs.parse(env.codecs.render(k)) == Some(k)
    requires env.api.Some?
    requires Prepare(env.api.value, req.body, env.codecs).Ok?
    requires Prepare(env.api.value, req.body, env.codecs).value.contentPath !=
             Prepare(env.api.value, req.body, env.codecs).value.kustomizationPath
    ensures var p := Prepare(env.api.value, req.body, env.codecs).value;
      env.clone.Some? && p.kustomizationPath in env.clone.value &&
      env.codecs.parse(env.clone.value[p.kustomizationPath]).Some?
    ensures var p := Prepare(env.api.value, req.body, env.codecs).value;
      var original := env.codecs.parse(env.clone.value[p.kustomizationPath]).value;
      var again := env.(clone := Some(FilesAfter(env.clone.value, ServeSpec(req, env).1)));
      var after := FilesAfter(again.clone.value, ServeSpec(req, again).1);
      var rel := RelativePath(p.contentPath, p.kustomizationPath);
      ServeSpec(req, again).0.Accepted? && p.kustomizationPath in after &&
      after[p.kustomizationPath] == env.codecs.render(original.(resources := original.resources + [rel, rel]))
  {
    AcceptedWorktree(req, env);
    var api := env.api.value;
    var c := env.codecs;
    EditWorktree(api, req, env, env.clone.value, RelativePath);
    var p := Prepare(api, req.body, c).value;
    var rel := RelativePath(p.contentPath, p.kustomizationPath);
    var k := p.kustomizationPath;
    var files1 := env.clone.value[p.contentPath := p.content];
    assert k in files1;
    var original := c.parse(files1[k]).value;
    var once := original.(resources := original.resources + [rel]);
    var f1 := files1[k := c.render(once)];
    var again := env.(clone := Some(f1));
    assert Authorize(req, again) == Authorize(req, env);
    assert Admit(req, again) == Ok((api, f1));
    var files2 := f1[p.contentPath := p.content];
    assert files2 == f1;
    assert c.parse(files2[k]) == Some(once);
    assert once.(resources := once.resources + [rel]) == original.(resources := original.resources + [rel, rel]);
    assert EditSpec(api, req, again, f1, RelativePath).0.Accepted?;
    assert ServeSpec(req, again).0.Accepted?;
    AcceptedWorktree(req, again);
    EditWorktree(api, req, again, f1, RelativePath);
  }
}
