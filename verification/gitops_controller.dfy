/**
 * The GitOps controller (controllers/gitops_controller.go): a GitOps object
 * describes a Flux installation; reconciling it fills in the defaults of its
 * spec, derives the Flux, memcached and helm-operator objects, guards the
 * object with a finalizer, and applies the objects, or deletes them when the
 * GitOps object itself is being deleted.
 *
 * The kommons builder is described, not run: each object is a record of the
 * settings the controller passes to the builder, listed in the order of the
 * builder calls. Calls to the API server (Get, Update) and to kommons (Apply,
 * Delete) take their outcome as an input.
 */
module GitOpsController {
  import opened Wrappers
  import opened GoStrings
  import opened Objects
  import opened Cluster
  import opened MapOrder

  const KubeSystemNamespace: string := "kube-system"
  const GitopsDeleteFinalizer: string := "termination.flanksource.com/protect"

  /** The spec fields of a GitOps object; `disableScanning` is a pointer in the API type. */
  datatype GitOpsSpec = GitOpsSpec(
    name: string,
    namespace: string,
    gitUrl: string,
    gitBranch: string,
    gitPath: string,
    gitPollInterval: string,
    syncInterval: string,
    gitKey: string,
    knownHosts: string,
    sshConfig: string,
    fluxVersion: string,
    helmOperatorVersion: string,
    args: map<string, string>,
    disableScanning: Option<bool>)

  /** A stored GitOps object: a non-empty `deletionTimestamp` makes `deleting` true. */
  datatype GitOps = GitOps(meta: ObjectMeta, finalizers: seq<string>, deleting: bool,
                           spec: GitOpsSpec, lastUpdated: int)

  // ---------------------------------------------------------------------------
  // gitopsDefaults

  /** The spec with every empty field that has a default filled in. */
  function Defaulted(s: GitOpsSpec, metaNamespace: string): (r: GitOpsSpec)
    ensures r.name == (if s.name == "" then metaNamespace else s.name)
    ensures r.namespace == (if s.namespace == "" then KubeSystemNamespace else s.namespace)
    ensures r.gitBranch == (if s.gitBranch == "" then "master" else s.gitBranch)
    ensures r.gitPath == (if s.gitPath == "" then "./" else s.gitPath)
    ensures r.gitPollInterval == (if s.gitPollInterval == "" then "60s" else s.gitPollInterval)
    ensures r.syncInterval == (if s.syncInterval == "" then "5m00s" else s.syncInterval)
    ensures r.fluxVersion == (if s.fluxVersion == "" then "1.20.0" else s.fluxVersion)
    ensures r.disableScanning == (if s.disableScanning.None? then Some(true) else s.disableScanning)
    ensures r.gitUrl == s.gitUrl && r.gitKey == s.gitKey && r.knownHosts == s.knownHosts &&
            r.sshConfig == s.sshConfig && r.helmOperatorVersion == s.helmOperatorVersion && r.args == s.args
  {
    GitOpsSpec(
      name := if s.name == "" then metaNamespace else s.name,
      namespace := if s.namespace == "" then KubeSystemNamespace else s.namespace,
      gitUrl := s.gitUrl,
      gitBranch := if s.gitBranch == "" then "master" else s.gitBranch,
      gitPath := if s.gitPath == "" then "./" else s.gitPath,
      gitPollInterval := if s.gitPollInterval == "" then "60s" else s.gitPollInterval,
      syncInterval := if s.syncInterval == "" then "5m00s" else s.syncInterval,
      gitKey := s.gitKey,
      knownHosts := s.knownHosts,
      sshConfig := s.sshConfig,
      fluxVersion := if s.fluxVersion == "" then "1.20.0" else s.fluxVersion,
      helmOperatorVersion := s.helmOperatorVersion,
      args := s.args,
      disableScanning := if s.disableScanning.None? then Some(true) else s.disableScanning)
  }

  /** A spec in which no field with a default is left empty. */
  predicate IsDefaulted(s: GitOpsSpec, metaNamespace: string) {
    (s.name != "" || metaNamespace == "") && s.namespace != "" && s.gitBranch != "" && s.gitPath != "" &&
    s.gitPollInterval != "" && s.syncInterval != "" && s.fluxVersion != "" && s.disableScanning.Some?
  }

  /** Defaulting fills every field it knows, and a defaulted spec is its own default. */
  lemma DefaultedFixpoint(s: GitOpsSpec, metaNamespace: string)
    ensures IsDefaulted(Defaulted(s, metaNamespace), metaNamespace)
    ensures IsDefaulted(s, metaNamespace) ==> Defaulted(s, metaNamespace) == s
  {
  }

  /** Defaulting twice is defaulting once. */
  lemma DefaultedIdempotent(s: GitOpsSpec, metaNamespace: string)
    ensures Defaulted(Defaulted(s, metaNamespace), metaNamespace) == Defaulted(s, metaNamespace)
  {
    DefaultedFixpoint(s, metaNamespace);
    DefaultedFixpoint(Defaulted(s, metaNamespace), metaNamespace);
  }

  // ---------------------------------------------------------------------------
  // getArgs

  function Flag(key: string, value: string): string {
    "--" + key + "=" + value
  }

  /** One flag per key, in the order the keys were visited. */
  function FlagsFor(order: seq<string>, m: map<string, string>): (r: seq<string>)
    requires forall k :: k in order ==> k in m
    ensures |r| == |order|
  {
    if order == [] then [] else [Flag(order[0], m[order[0]])] + FlagsFor(order[1..], m)
  }

  lemma {:induction false} FlagsForIndex(order: seq<string>, m: map<string, string>, i: nat)
    requires forall k :: k in order ==> k in m
    requires i < |order|
    ensures FlagsFor(order, m)[i] == Flag(order[i], m[order[i]])
  {
    if i > 0 {
      FlagsForIndex(order[1..], m, i - 1);
    }
  }

  lemma {:induction false} FlagsForConcat(a: seq<string>, b: seq<string>, m: map<string, string>)
    requires forall k :: k in a ==> k in m
    requires forall k :: k in b ==> k in m
    ensures forall k :: k in a + b ==> k in m
    ensures FlagsFor(a + b, m) == FlagsFor(a, m) + FlagsFor(b, m)
  {
    if a != [] {
      assert (a + b)[0] == a[0] && (a + b)[1..] == a[1..] + b;
      FlagsForConcat(a[1..], b, m);
    } else {
      assert a + b == b;
    }
  }

  /** The flags of a visit order, cut around position `j`. */
  lemma FlagsForSplit(o: seq<string>, j: nat, m: map<string, string>)
    requires j < |o| && forall k :: k in o ==> k in m
    ensures forall k :: k in o[..j] + o[j + 1..] ==> k in m
    ensures FlagsFor(o, m) == FlagsFor(o[..j], m) + [Flag(o[j], m[o[j]])] + FlagsFor(o[j + 1..], m)
    ensures FlagsFor(o[..j] + o[j + 1..], m) == FlagsFor(o[..j], m) + FlagsFor(o[j + 1..], m)
  {
    assert o == o[..j] + ([o[j]] + o[j + 1..]);
    assert forall k :: k in o[..j] ==> k in o;
    assert forall k :: k in o[j + 1..] ==> k in o;
    FlagsForConcat(o[..j], o[j + 1..], m);
    FlagsForConcat([o[j]], o[j + 1..], m);
    FlagsForConcat(o[..j], [o[j]] + o[j + 1..], m);
  }

  lemma MultisetMoveFront(x: string, a: seq<string>, b: seq<string>, c: seq<string>)
    requires multiset(a) == multiset(b + c)
    ensures multiset([x] + a) == multiset(b + [x] + c)
  {
    calc {
      multiset(b + [x] + c);
      multiset(b) + multiset{x} + multiset(c);
      multiset{x} + multiset(b + c);
    }
  }

  /** Whatever order the keys are visited in, the same flags come out. */
  lemma {:induction false} FlagsForPermutation(o1: seq<string>, o2: seq<string>, keys: set<string>, m: map<string, string>)
    requires keys <= m.Keys
    requires IsEnumeration(o1, keys) && IsEnumeration(o2, keys)
    ensures multiset(FlagsFor(o1, m)) == multiset(FlagsFor(o2, m))
    decreases |o1|
  {
    if o1 == [] {
      assert keys == {};
      assert forall k :: k !in o2;
    } else {
      var k := o1[0];
      assert k in o2;
      var j :| 0 <= j < |o2| && o2[j] == k;
      EnumerationWithout(o1, keys, 0);
      EnumerationWithout(o2, keys, j);
      assert o1[..0] + o1[1..] == o1[1..];
      FlagsForPermutation(o1[1..], o2[..j] + o2[j + 1..], keys - {k}, m);
      PermutationStep(o1, o2, j, m);
    }
  }

  /** Visiting the first key of `o1` at position `j` of `o2` keeps the flags a permutation. */
  lemma PermutationStep(o1: seq<string>, o2: seq<string>, j: nat, m: map<string, string>)
    requires |o1| > 0 && j < |o2| && o2[j] == o1[0]
    requires forall k :: k in o1 ==> k in m
    requires forall k :: k in o2 ==> k in m
    requires forall k :: k in o2[..j] + o2[j + 1..] ==> k in m
    requires multiset(FlagsFor(o1[1..], m)) == multiset(FlagsFor(o2[..j] + o2[j + 1..], m))
    ensures multiset(FlagsFor(o1, m)) == multiset(FlagsFor(o2, m))
  {
    var k := o1[0];
    FlagsForSplit(o1, 0, m);
    FlagsForSplit(o2, j, m);
    assert FlagsFor(o1[..0], m) == [];
    MultisetMoveFront(Flag(k, m[k]), FlagsFor(o1[1..], m), FlagsFor(o2[..j], m), FlagsFor(o2[j + 1..], m));
  }

  /**
   * The argument list getArgs returns for the merged map `m`: one `--key=value`
   * per key, sorted as strings. It does not depend on the order Go visits the
   * map in (`SortedArgsOrderFree`), so any enumeration of the keys defines it.
   */
  ghost function SortedArgs(m: map<string, string>): seq<string> {
    SortStrings(FlagsFor(Enumerate(m.Keys), m))
  }

  /** The arguments are sorted, and there is one per key, carrying that key's value. */
  lemma SortedArgsComplete(m: map<string, string>)
    ensures Sorted(SortedArgs(m)) && |SortedArgs(m)| == |m|
    ensures forall k :: k in m ==> Flag(k, m[k]) in SortedArgs(m)
  {
    var order := Enumerate(m.Keys);
    var flags := FlagsFor(order, m);
    SortStringsSorted(flags);
    var r := SortStrings(flags);
    assert |m| == |m.Keys| == |order| by { EnumerationSize(order, m.Keys); }
    assert multiset(r) == multiset(flags);
    assert |r| == |multiset(r)| == |multiset(flags)| == |flags|;
    forall k | k in m
      ensures Flag(k, m[k]) in r
    {
      var i :| 0 <= i < |order| && order[i] == k;
      FlagsForIndex(order, m, i);
      assert flags[i] in multiset(r);
    }
  }

  /** Every argument is the flag of some key: nothing but the map's entries is passed. */
  lemma SortedArgsOnlyFlags(m: map<string, string>)
    ensures forall a :: a in SortedArgs(m) ==> exists k :: k in m && a == Flag(k, m[k])
  {
    var order := Enumerate(m.Keys);
    var flags := FlagsFor(order, m);
    assert SortedArgs(m) == SortStrings(flags);
    forall a | a in SortedArgs(m)
      ensures exists k :: k in m && a == Flag(k, m[k])
    {
      assert a in multiset(flags);
      var i :| 0 <= i < |flags| && flags[i] == a;
      FlagsForIndex(order, m, i);
      assert order[i] in m;
    }
  }

  lemma EnumerationSize(order: seq<string>, ids: set<string>)
    requires IsEnumeration(order, ids)
    ensures |order| == |ids|
  {
    assert forall i, j :: 0 <= i < j < |order| ==> order[i] != order[j];
    assert forall id :: id in order <==> id in ids;
    SetOfDistinct(order);
    assert (set x | x in order) == ids;
  }

  lemma {:induction false} SetOfDistinct(s: seq<string>)
    requires forall i, j :: 0 <= i < j < |s| ==> s[i] != s[j]
    ensures |set x | x in s| == |s|
  {
    if s != [] {
      SetOfDistinct(s[1..]);
      assert (set x | x in s) == {s[0]} + (set x | x in s[1..]);
      assert forall i :: 0 <= i < |s[1..]| ==> s[1..][i] == s[i + 1] != s[0];
      assert s[0] !in (set x | x in s[1..]);
    }
  }

  /** Sorting the flags of any visit order gives `SortedArgs`. */
  lemma SortedArgsOrderFree(order: seq<string>, m: map<string, string>)
    requires IsEnumeration(order, m.Keys)
    ensures forall k :: k in order ==> k in m
    ensures SortStrings(FlagsFor(order, m)) == SortedArgs(m)
  {
    var other := Enumerate(m.Keys);
    FlagsForPermutation(order, other, m.Keys, m);
    SortStringsSorted(FlagsFor(order, m));
    SortStringsSorted(FlagsFor(other, m));
    SortedUnique(SortStrings(FlagsFor(order, m)), SortStrings(FlagsFor(other, m)));
  }

  /** The first loop of getArgs: each `Spec.Args` entry is written into `argMap`. */
  method MergeArgs(specArgs: map<string, string>, argMap: map<string, string>) returns (merged: map<string, string>)
    ensures merged == argMap + specArgs
  {
    merged := argMap;
    var toCopy := specArgs.Keys;
    while toCopy != {}
      invariant toCopy <= specArgs.Keys
      invariant merged.Keys == argMap.Keys + (specArgs.Keys - toCopy)
      invariant forall k :: k in merged ==> merged[k] == if k in specArgs && k !in toCopy then specArgs[k] else argMap[k]
      decreases |toCopy|
    {
      var key :| key in toCopy;
      merged := merged[key := specArgs[key]];
      toCopy := toCopy - {key};
    }
  }

  /** The second loop of getArgs: one flag per key, in the order Go visits the map. */
  method CollectFlags(m: map<string, string>) returns (flags: seq<string>, ghost order: seq<string>)
    ensures IsEnumeration(order, m.Keys)
    ensures forall k :: k in order ==> k in m
    ensures flags == FlagsFor(order, m)
  {
    flags := [];
    order := [];
    var toVisit := m.Keys;
    while toVisit != {}
      invariant toVisit <= m.Keys
      invariant IsEnumeration(order, m.Keys - toVisit)
      invariant forall k :: k in order ==> k in m
      invariant flags == FlagsFor(order, m)
      decreases |toVisit|
    {
      var key :| key in toVisit;
      EnumerationStep(order, m.Keys, toVisit, key);
      FlagsForConcat(order, [key], m);
      flags := flags + [Flag(key, m[key])];
      order := order + [key];
      toVisit := toVisit - {key};
    }
    assert m.Keys - toVisit == m.Keys;
  }

  /**
   * getArgs: every `Spec.Args` entry overrides the entry of `argMap` with the
   * same key (the caller's map is changed in place, so it is returned too);
   * then one flag per key of the merged map, sorted.
   */
  method GetArgs(specArgs: map<string, string>, argMap: map<string, string>)
    returns (merged: map<string, string>, args: seq<string>)
    ensures merged == argMap + specArgs
    ensures args == SortedArgs(merged)
  {
    merged := MergeArgs(specArgs, argMap);
    var flags, order := CollectFlags(merged);
    args := SortStrings(flags);
    SortedArgsOrderFree(order, merged);
  }

  // ---------------------------------------------------------------------------
  // NewGitops

  datatype Mount = Mount(source: string, path: string, mode: Option<int>)

  /** The objects the kommons builder is asked for, with the settings given to it. */
  datatype FluxObject =
    | Deployment(name: string, image: string, labels: map<string, string>, args: seq<string>,
                 serviceAccount: string, mounts: seq<Mount>, port: int)
    | ServiceAccount(name: string, roles: seq<string>, clusterRoles: seq<string>)
    | Secret(name: string, identity: string)
    | ConfigMap(name: string, data: map<string, string>)

  const SshKeygenDir: string := "/etc/fluxd/ssh"
  const MemcachedImage: string := "docker.io/memcached:1.4.36-alpine"
  const FluxcdFluxRepo: string := "docker.io/fluxcd/flux"
  const FlanksourceFluxRepo: string := "docker.io/flanksource/flux"
  const HelmOperatorRepo: string := "docker.io/fluxcd/helm-operator"

  function MemcacheName(s: GitOpsSpec): string { "flux-memcache-" + s.name }
  function SecretName(s: GitOpsSpec): string { "flux-git-deploy-" + s.name }
  function SshConfigName(s: GitOpsSpec): string { "flux-ssh-" + s.name }
  function ServiceAccountName(s: GitOpsSpec): string { "flux-" + s.name }

  /** The argument map NewGitops starts from, before `Spec.Args` is merged in. */
  function BaseArgs(s: GitOpsSpec): (m: map<string, string>)
    requires s.disableScanning.Some?
    ensures ("git-readonly" in m) <==> s.disableScanning.value
    ensures ("registry-disable-scanning" in m) <==> s.disableScanning.value
    ensures s.disableScanning.value ==> m["git-readonly"] == "true" && m["registry-disable-scanning"] == "true"
  {
    var base := map[
      "git-url" := s.gitUrl,
      "git-branch" := s.gitBranch,
      "git-path" := s.gitPath,
      "git-poll-interval" := s.gitPollInterval,
      "sync-interval" := s.syncInterval,
      "k8s-secret-name" := SecretName(s),
      "ssh-keygen-dir" := SshKeygenDir,
      "memcached-hostname" := MemcacheName(s),
      "manifest-generation" := "true",
      "registry-exclude-image" := "*",
      "memcached-service" := ""];
    if s.disableScanning.value then base["git-readonly" := "true"]["registry-disable-scanning" := "true"]
    else base
  }

  function MemcacheDeployment(s: GitOpsSpec): FluxObject {
    Deployment(MemcacheName(s), MemcachedImage, map[], ["-m 512", "-p 11211", "-I 5m"], "", [], 11211)
  }

  /** The flux image: the flanksource fork when the version names it, else upstream. */
  function FluxImage(fluxVersion: string): (image: string)
    ensures HasPrefix(image, FlanksourceFluxRepo + ":") <==> Contains(fluxVersion, "flanksource")
    ensures HasPrefix(image, FluxcdFluxRepo + ":") <==> !Contains(fluxVersion, "flanksource")
    ensures HasSuffix(image, ":" + fluxVersion)
  {
    var repo := if Contains(fluxVersion, "flanksource") then FlanksourceFluxRepo else FluxcdFluxRepo;
    var image := repo + ":" + fluxVersion;
    assert image[12] == repo[12];
    assert image[..|repo| + 1] == repo + ":";
    assert image[|repo| + 1..] == fluxVersion;
    assert image[|image| - |":" + fluxVersion|..] == ":" + fluxVersion;
    image
  }

  function SecretMounts(s: GitOpsSpec): seq<Mount> {
    [Mount(SecretName(s), SshKeygenDir, Some(0x100)), Mount(SshConfigName(s), "/root/.ssh", None)]
  }

  function HelmArgs(s: GitOpsSpec): (args: seq<string>)
    ensures |args| > 0 && args[0] == "--enabled-helm-versions=v3"
    ensures ("--allow-namespace=" + s.namespace in args) <==> s.namespace != KubeSystemNamespace
  {
    if s.namespace != KubeSystemNamespace then ["--enabled-helm-versions=v3", "--allow-namespace=" + s.namespace]
    else
      assert "--enabled-helm-versions=v3"[2] != ("--allow-namespace=" + s.namespace)[2];
      ["--enabled-helm-versions=v3"]
  }

  /** The service account: cluster-admin in kube-system, namespace roles elsewhere. */
  function FluxServiceAccount(s: GitOpsSpec): FluxObject {
    if s.namespace == KubeSystemNamespace then ServiceAccount(ServiceAccountName(s), [], ["cluster-admin"])
    else ServiceAccount(ServiceAccountName(s), ["namespace-admin", "namespace-creator"],
                        if s.helmOperatorVersion != "" then ["helm-operator-admin"] else [])
  }

  /** memcached runs only when image scanning is on. */
  function MemcachePart(s: GitOpsSpec): seq<FluxObject>
    requires s.disableScanning.Some?
  {
    if s.disableScanning.value then [] else [MemcacheDeployment(s)]
  }

  /** The flux deployment, running with the arguments `args`. */
  function FluxDeployment(s: GitOpsSpec, args: seq<string>): FluxObject {
    Deployment("flux-" + s.name, FluxImage(s.fluxVersion), map["app" := "flux"],
               args, ServiceAccountName(s), SecretMounts(s), 3030)
  }

  /**
   * The flux arguments getArgs computes: sorted, with every `Spec.Args` entry
   * and every base entry it does not override.
   */
  ghost function FluxArgs(s: GitOpsSpec): seq<string>
    requires s.disableScanning.Some?
  {
    SortedArgs(BaseArgs(s) + s.args)
  }

  /** A `Spec.Args` entry overrides the base entry with the same key. */
  lemma FluxArgsOverride(s: GitOpsSpec)
    requires s.disableScanning.Some?
    ensures Sorted(FluxArgs(s))
    ensures forall k :: k in s.args ==> Flag(k, s.args[k]) in FluxArgs(s)
    ensures forall k :: k in BaseArgs(s) && k !in s.args ==> Flag(k, BaseArgs(s)[k]) in FluxArgs(s)
  {
    SortedArgsComplete(BaseArgs(s) + s.args);
  }

  /** helm-operator, built only when a version is set. */
  function HelmDeployment(s: GitOpsSpec): FluxObject {
    Deployment("helm-operator-" + s.name, HelmOperatorRepo + ":" + s.helmOperatorVersion,
               map["app" := "helm-operator"], HelmArgs(s), ServiceAccountName(s), SecretMounts(s), 3030)
  }

  function HelmPart(s: GitOpsSpec): seq<FluxObject> {
    if s.helmOperatorVersion != "" then [HelmDeployment(s)] else []
  }

  /** The deploy key secret and the SSH configuration. */
  function SshObjects(s: GitOpsSpec): seq<FluxObject> {
    [Secret(SecretName(s), s.gitKey),
     ConfigMap(SshConfigName(s), map["known_hosts" := s.knownHosts, "config" := s.sshConfig])]
  }

  /**
   * NewGitops on a defaulted spec: memcached when scanning is on, flux, the
   * service account, helm-operator when a version is set, the key secret and
   * the SSH config map, in the order the builder is called.
   */
  function GitopsObjects(s: GitOpsSpec, fluxArgs: seq<string>): seq<FluxObject>
    requires s.disableScanning.Some?
  {
    MemcachePart(s) + [FluxDeployment(s, fluxArgs), FluxServiceAccount(s)] + HelmPart(s) + SshObjects(s)
  }

  lemma InGitopsObjects(s: GitOpsSpec, fluxArgs: seq<string>, o: FluxObject)
    requires s.disableScanning.Some?
    ensures o in GitopsObjects(s, fluxArgs) <==>
      o in MemcachePart(s) || o == FluxDeployment(s, fluxArgs) || o == FluxServiceAccount(s) || o in HelmPart(s) || o in SshObjects(s)
  {
  }

  /** memcached is built exactly when scanning is on. */
  lemma MemcacheIffScanning(s: GitOpsSpec, fluxArgs: seq<string>)
    requires s.disableScanning.Some?
    ensures MemcacheDeployment(s) in GitopsObjects(s, fluxArgs) <==> !s.disableScanning.value
  {
    var memcache := MemcacheDeployment(s);
    InGitopsObjects(s, fluxArgs, memcache);
    assert |memcache.name| != |FluxDeployment(s, fluxArgs).name|;
    assert memcache.name[0] != HelmDeployment(s).name[0];
  }

  /** helm-operator is built exactly when a version is set. */
  lemma HelmIffVersion(s: GitOpsSpec, fluxArgs: seq<string>)
    requires s.disableScanning.Some?
    ensures HelmDeployment(s) in GitopsObjects(s, fluxArgs) <==> s.helmOperatorVersion != ""
  {
    var helm := HelmDeployment(s);
    InGitopsObjects(s, fluxArgs, helm);
    assert |helm.name| != |FluxDeployment(s, fluxArgs).name|;
    assert helm.name[0] != MemcacheDeployment(s).name[0];
  }

  /**
   * With scanning disabled, the flux arguments turn git writes and registry
   * scanning off, unless `Spec.Args` sets those flags itself.
   */
  lemma ScanningDisabledArgs(s: GitOpsSpec)
    requires s.disableScanning == Some(true)
    ensures "git-readonly" !in s.args ==> Flag("git-readonly", "true") in FluxArgs(s)
    ensures "registry-disable-scanning" !in s.args ==> Flag("registry-disable-scanning", "true") in FluxArgs(s)
  {
    FluxArgsOverride(s);
  }

  /**
   * The service account: cluster-admin in kube-system; elsewhere the namespace
   * roles, plus the helm-operator-admin cluster role when helm-operator runs.
   */
  lemma ServiceAccountRoles(s: GitOpsSpec, fluxArgs: seq<string>)
    requires s.disableScanning.Some?
    ensures FluxServiceAccount(s) in GitopsObjects(s, fluxArgs)
    ensures ("cluster-admin" in FluxServiceAccount(s).clusterRoles) <==> s.namespace == KubeSystemNamespace
    ensures ("helm-operator-admin" in FluxServiceAccount(s).clusterRoles) <==>
      s.helmOperatorVersion != "" && s.namespace != KubeSystemNamespace
  {
    InGitopsObjects(s, fluxArgs, FluxServiceAccount(s));
    assert "cluster-admin" != "helm-operator-admin";
  }

  // ---------------------------------------------------------------------------
  // The finalizer list

  /** The finalizer list with every protect finalizer dropped, the others in order. */
  function WithoutProtect(finalizers: seq<string>): (r: seq<string>)
    ensures GitopsDeleteFinalizer !in r
    ensures forall f :: f in r <==> f in finalizers && f != GitopsDeleteFinalizer
  {
    if finalizers == [] then []
    else (if finalizers[0] == GitopsDeleteFinalizer then [] else [finalizers[0]]) + WithoutProtect(finalizers[1..])
  }

  /** Dropping distributes over concatenation, so the kept finalizers keep their order. */
  lemma {:induction false} WithoutProtectConcat(a: seq<string>, b: seq<string>)
    ensures WithoutProtect(a + b) == WithoutProtect(a) + WithoutProtect(b)
  {
    if a == [] {
      assert a + b == b;
    } else {
      assert (a + b)[0] == a[0] && (a + b)[1..] == a[1..] + b;
      WithoutProtectConcat(a[1..], b);
    }
  }

  /** A list without the protect finalizer is left as it is; so dropping twice is dropping once. */
  lemma {:induction false} WithoutProtectIdle(finalizers: seq<string>)
    requires GitopsDeleteFinalizer !in finalizers
    ensures WithoutProtect(finalizers) == finalizers
  {
    if finalizers != [] {
      WithoutProtectIdle(finalizers[1..]);
    }
  }

  /** The object being reconciled, fetched into memory and changed field by field. */
  class Config {
    const meta: ObjectMeta
    const deleting: bool
    var finalizers: seq<string>
    var spec: GitOpsSpec
    var lastUpdated: int

    function Value(): GitOps
      reads this
    {
      GitOps(meta, finalizers, deleting, spec, lastUpdated)
    }

    constructor (g: GitOps)
      ensures Value() == g
    {
      meta := g.meta;
      deleting := g.deleting;
      finalizers := g.finalizers;
      spec := g.spec;
      lastUpdated := g.lastUpdated;
    }

    /** gitopsDefaults: each empty field is overwritten with its default. */
    method GitopsDefaults()
      modifies this
      ensures spec == Defaulted(old(spec), meta.namespace)
      ensures finalizers == old(finalizers) && lastUpdated == old(lastUpdated)
    {
      var s := spec;
      if s.name == "" {
        s := s.(name := meta.namespace);
      }
      if s.namespace == "" {
        s := s.(namespace := KubeSystemNamespace);
      }
      if s.gitBranch == "" {
        s := s.(gitBranch := "master");
      }
      if s.gitPath == "" {
        s := s.(gitPath := "./");
      }
      if s.gitPollInterval == "" {
        s := s.(gitPollInterval := "60s");
      }
      if s.syncInterval == "" {
        s := s.(syncInterval := "5m00s");
      }
      if s.fluxVersion == "" {
        s := s.(fluxVersion := "1.20.0");
      }
      if s.disableScanning.None? {
        s := s.(disableScanning := Some(true));
      }
      spec := s;
    }

    /** The scan for the protect finalizer. */
    method HasFinalizer() returns (found: bool)
      ensures found <==> GitopsDeleteFinalizer in finalizers
    {
      found := false;
      for i := 0 to |finalizers|
        invariant found <==> GitopsDeleteFinalizer in finalizers[..i]
      {
        if finalizers[i] == GitopsDeleteFinalizer {
          found := true;
        }
        assert finalizers[..i + 1] == finalizers[..i] + [finalizers[i]];
      }
      assert finalizers[..|finalizers|] == finalizers;
    }

    /** The finalizer list rebuilt without the protect finalizer, stamped with `now`. */
    method RemoveFinalizer(now: int)
      modifies this
      ensures finalizers == WithoutProtect(old(finalizers))
      ensures spec == old(spec) && lastUpdated == now
    {
      var current := finalizers;
      var kept: seq<string> := [];
      for i := 0 to |current|
        invariant kept == WithoutProtect(current[..i])
        invariant spec == old(spec)
      {
        WithoutProtectConcat(current[..i], [current[i]]);
        assert current[..i + 1] == current[..i] + [current[i]];
        if current[i] != GitopsDeleteFinalizer {
          kept := kept + [current[i]];
        }
      }
      assert current[..|current|] == current;
      finalizers := kept;
      lastUpdated := now;
    }

    /** The protect finalizer appended once at the end, stamped with `now`. */
    method AddFinalizer(now: int)
      modifies this
      ensures finalizers == old(finalizers) + [GitopsDeleteFinalizer]
      ensures spec == old(spec) && lastUpdated == now
    {
      finalizers := finalizers + [GitopsDeleteFinalizer];
      lastUpdated := now;
    }

    /** NewGitops: defaults the spec in place, then describes the objects to install. */
    method NewGitops() returns (objects: seq<FluxObject>)
      modifies this
      ensures spec == Defaulted(old(spec), meta.namespace)
      ensures finalizers == old(finalizers) && lastUpdated == old(lastUpdated)
      ensures objects == GitopsObjects(spec, FluxArgs(spec))
    {
      GitopsDefaults();
      objects := DescribeObjects(spec);
    }
  }

  /** The builder calls of NewGitops, on the defaulted spec. */
  method DescribeObjects(s: GitOpsSpec) returns (objects: seq<FluxObject>)
    requires s.disableScanning.Some?
    ensures objects == GitopsObjects(s, FluxArgs(s))
  {
    var secretName := SecretName(s);
    var sshConfig := SshConfigName(s);
    var saName := ServiceAccountName(s);
    var argMap := BaseArgs(s);
    objects := [];
    if !s.disableScanning.value {
      objects := objects + [MemcacheDeployment(s)];
    }
    assert objects == MemcachePart(s);
    var merged, args := GetArgs(s.args, argMap);
    var repo := FluxcdFluxRepo;
    if Contains(s.fluxVersion, "flanksource") {
      repo := FlanksourceFluxRepo;
    }
    var flux := Deployment("flux-" + s.name, repo + ":" + s.fluxVersion, map["app" := "flux"],
                           args, saName, SecretMounts(s), 3030);
    assert flux == FluxDeployment(s, FluxArgs(s));
    objects := objects + [flux, FluxServiceAccount(s)];
    var helm := DescribeHelmOperator(s);
    objects := objects + helm + [Secret(secretName, s.gitKey),
                                 ConfigMap(sshConfig, map["known_hosts" := s.knownHosts, "config" := s.sshConfig])];
  }

  /** The helm-operator builder calls: none without a version. */
  method DescribeHelmOperator(s: GitOpsSpec) returns (helm: seq<FluxObject>)
    ensures helm == HelmPart(s)
  {
    helm := [];
    if s.helmOperatorVersion != "" {
      var helmArgs := ["--enabled-helm-versions=v3"];
      if s.namespace != KubeSystemNamespace {
        helmArgs := helmArgs + ["--allow-namespace=" + s.namespace];
      }
      assert helmArgs == HelmArgs(s);
      helm := [Deployment("helm-operator-" + s.name, HelmOperatorRepo + ":" + s.helmOperatorVersion,
                          map["app" := "helm-operator"], helmArgs, ServiceAccountName(s), SecretMounts(s), 3030)];
    }
  }

  // ---------------------------------------------------------------------------
  // Reconcile

  /** A kommons call on one object: where the delete path can also fail to find a client. */
  datatype ObjectOutcome = ObjectOk | NoDynamicClient | ObjectCallFailed

  datatype ObjectCall = DeleteCall(namespace: string, obj: FluxObject, success: bool)
                      | ApplyCall(namespace: string, obj: FluxObject, success: bool)

  datatype ReconcileError =
    | GetFailed
    | DynamicClientFailed
    | DeleteFailed
    | RemoveFinalizerFailed
    | AddFinalizerFailed
    | ApplyFailed

  /** Everything a reconcile can change: the GitOps objects and the kommons call log. */
  datatype ReconcileState = ReconcileState(store: StoreState<GitOps>, objectCalls: seq<ObjectCall>)

  /** Delete each object in turn, stopping at the first failure. */
  function RunDeletes(ns: string, objs: seq<FluxObject>, outcome: FluxObject -> ObjectOutcome, calls: seq<ObjectCall>)
    : (r: (Option<ReconcileError>, seq<ObjectCall>))
    ensures r.0.None? <==> forall o :: o in objs ==> outcome(o) == ObjectOk
    ensures r.0.None? ==> r.1 == calls + seq(|objs|, i requires 0 <= i < |objs| => DeleteCall(ns, objs[i], true))
    ensures r.0 == None || r.0 == Some(DynamicClientFailed) || r.0 == Some(DeleteFailed)
    ensures |calls| <= |r.1| && r.1[..|calls|] == calls
    decreases |objs|
  {
    if objs == [] then (None, calls)
    else
      var o := objs[0];
      match outcome(o)
      case NoDynamicClient => (Some(DynamicClientFailed), calls)
      case ObjectCallFailed => (Some(DeleteFailed), calls + [DeleteCall(ns, o, false)])
      case ObjectOk =>
        assert forall x :: x in objs[1..] ==> x in objs;
        var r := RunDeletes(ns, objs[1..], outcome, calls + [DeleteCall(ns, o, true)]);
        assert objs == [o] + objs[1..];
        r
  }

  /** Apply each object in turn, stopping at the first failure. */
  function RunApplies(ns: string, objs: seq<FluxObject>, ok: FluxObject -> bool, calls: seq<ObjectCall>)
    : (r: (Option<ReconcileError>, seq<ObjectCall>))
    ensures r.0.None? <==> forall o :: o in objs ==> ok(o)
    ensures r.0.None? ==> r.1 == calls + seq(|objs|, i requires 0 <= i < |objs| => ApplyCall(ns, objs[i], true))
    ensures r.0 == None || r.0 == Some(ApplyFailed)
    ensures |calls| <= |r.1| && r.1[..|calls|] == calls
    decreases |objs|
  {
    if objs == [] then (None, calls)
    else
      var o := objs[0];
      if !ok(o) then (Some(ApplyFailed), calls + [ApplyCall(ns, o, false)])
      else
        assert forall x :: x in objs[1..] ==> x in objs;
        var r := RunApplies(ns, objs[1..], ok, calls + [ApplyCall(ns, o, true)]);
        assert objs == [o] + objs[1..];
        r
  }

  /**
   * Reconcile on values. A failed Get is an error, a missing object is not.
   * The spec is defaulted before anything is written, so any Update stores the
   * defaulted spec. Deletion deletes every object and only then drops the
   * protect finalizer; otherwise the finalizer is added when missing and the
   * objects are applied.
   */
  ghost function ReconcileSpec(key: ObjectKey, getOk: bool, deleteOutcome: FluxObject -> ObjectOutcome,
                               updateOk: bool, applyOk: FluxObject -> bool, now: int, st: ReconcileState)
    : (r: (Option<ReconcileError>, ReconcileState))
  {
    if !getOk then (Some(GetFailed), st)
    else if key !in st.store.objects then (None, st)
    else
      var g := st.store.objects[key];
      var defaulted := g.(spec := Defaulted(g.spec, g.meta.namespace));
      if g.deleting then ReleaseSpec(key, defaulted, deleteOutcome, updateOk, now, st)
      else ProtectSpec(key, defaulted, updateOk, applyOk, now, st)
  }

  /** Deletion of an object whose spec is already defaulted: every delete, then the finalizer is dropped. */
  ghost function ReleaseSpec(key: ObjectKey, g: GitOps, deleteOutcome: FluxObject -> ObjectOutcome,
                             updateOk: bool, now: int, st: ReconcileState)
    : (r: (Option<ReconcileError>, ReconcileState))
    requires g.spec.disableScanning.Some?
  {
    var (err, calls) := RunDeletes(g.spec.namespace, GitopsObjects(g.spec, FluxArgs(g.spec)), deleteOutcome, st.objectCalls);
    if err.Some? then (err, ReconcileState(st.store, calls))
    else
      var (updated, store) := UpdateSpec(st.store, key, g.(finalizers := WithoutProtect(g.finalizers), lastUpdated := now), updateOk);
      (if updated then None else Some(RemoveFinalizerFailed), ReconcileState(store, calls))
  }

  /** A live object whose spec is already defaulted: the finalizer is added when missing, then every apply. */
  ghost function ProtectSpec(key: ObjectKey, g: GitOps, updateOk: bool, applyOk: FluxObject -> bool, now: int,
                             st: ReconcileState)
    : (r: (Option<ReconcileError>, ReconcileState))
    requires g.spec.disableScanning.Some?
  {
    var (added, store) :=
      if GitopsDeleteFinalizer in g.finalizers then (true, st.store)
      else UpdateSpec(st.store, key, g.(finalizers := g.finalizers + [GitopsDeleteFinalizer], lastUpdated := now), updateOk);
    if !added then (Some(AddFinalizerFailed), ReconcileState(store, st.objectCalls))
    else
      var (err, calls) := RunApplies(g.spec.namespace, GitopsObjects(g.spec, FluxArgs(g.spec)), applyOk, st.objectCalls);
      (err, ReconcileState(store, calls))
  }

  /** The kommons client: the log of Apply and Delete calls it received. */
  class Kommons {
    var calls: seq<ObjectCall>

    constructor ()
      ensures calls == []
    {
      calls := [];
    }

    method Delete(ns: string, obj: FluxObject, outcome: ObjectOutcome) returns (err: Option<ReconcileError>)
      modifies this
      ensures outcome == ObjectOk ==> err == None && calls == old(calls) + [DeleteCall(ns, obj, true)]
      ensures outcome == NoDynamicClient ==> err == Some(DynamicClientFailed) && calls == old(calls)
      ensures outcome == ObjectCallFailed ==> err == Some(DeleteFailed) && calls == old(calls) + [DeleteCall(ns, obj, false)]
    {
      match outcome
      case NoDynamicClient =>
        err := Some(DynamicClientFailed);
      case ObjectCallFailed =>
        err := Some(DeleteFailed);
        calls := calls + [DeleteCall(ns, obj, false)];
      case ObjectOk =>
        err := None;
        calls := calls + [DeleteCall(ns, obj, true)];
    }

    method Apply(ns: string, obj: FluxObject, ok: bool) returns (success: bool)
      modifies this
      ensures success == ok && calls == old(calls) + [ApplyCall(ns, obj, ok)]
    {
      success := ok;
      calls := calls + [ApplyCall(ns, obj, ok)];
    }
  }

  class GitOpsReconciler {
    const store: Store<GitOps>
    const kommons: Kommons

    constructor (store: Store<GitOps>, kommons: Kommons)
      ensures this.store == store && this.kommons == kommons
    {
      this.store := store;
      this.kommons := kommons;
    }

    function State(): ReconcileState
      reads store, kommons
    {
      ReconcileState(store.State(), kommons.calls)
    }

    method DeleteAll(ns: string, objects: seq<FluxObject>, outcome: FluxObject -> ObjectOutcome)
      returns (err: Option<ReconcileError>)
      modifies kommons
      ensures (err, kommons.calls) == RunDeletes(ns, objects, outcome, old(kommons.calls))
    {
      var i := 0;
      while i < |objects|
        invariant 0 <= i <= |objects|
        invariant RunDeletes(ns, objects, outcome, old(kommons.calls)) == RunDeletes(ns, objects[i..], outcome, kommons.calls)
      {
        assert objects[i..][0] == objects[i] && objects[i..][1..] == objects[i + 1..];
        err := kommons.Delete(ns, objects[i], outcome(objects[i]));
        if err.Some? {
          return;
        }
        i := i + 1;
      }
      return None;
    }

    method ApplyAll(ns: string, objects: seq<FluxObject>, ok: FluxObject -> bool)
      returns (err: Option<ReconcileError>)
      modifies kommons
      ensures (err, kommons.calls) == RunApplies(ns, objects, ok, old(kommons.calls))
    {
      var i := 0;
      while i < |objects|
        invariant 0 <= i <= |objects|
        invariant RunApplies(ns, objects, ok, old(kommons.calls)) == RunApplies(ns, objects[i..], ok, kommons.calls)
      {
        assert objects[i..][0] == objects[i] && objects[i..][1..] == objects[i + 1..];
        var applied := kommons.Apply(ns, objects[i], ok(objects[i]));
        if !applied {
          return Some(ApplyFailed);
        }
        i := i + 1;
      }
      return None;
    }

    /** Reconcile, with the outcome of every external call given. */
    method Reconcile(key: ObjectKey, getOk: bool, deleteOutcome: FluxObject -> ObjectOutcome,
                     updateOk: bool, applyOk: FluxObject -> bool, now: int)
      returns (err: Option<ReconcileError>)
      modifies store, kommons
      ensures (err, State()) == ReconcileSpec(key, getOk, deleteOutcome, updateOk, applyOk, now, old(State()))
    {
      if !getOk {
        return Some(GetFailed);
      }
      if key !in store.objects {
        return None;
      }
      var config := new Config(store.objects[key]);
      var hasFinalizer := config.HasFinalizer();
      var objects := config.NewGitops();
      if config.deleting {
        err := Release(key, config, objects, deleteOutcome, updateOk, now);
      } else {
        err := Protect(key, config, hasFinalizer, objects, updateOk, applyOk, now);
      }
    }

    /** The deletion branch of Reconcile. */
    method Release(key: ObjectKey, config: Config, objects: seq<FluxObject>, deleteOutcome: FluxObject -> ObjectOutcome,
                   updateOk: bool, now: int)
      returns (err: Option<ReconcileError>)
      requires config.spec.disableScanning.Some? && objects == GitopsObjects(config.spec, FluxArgs(config.spec))
      modifies config, store, kommons
      ensures (err, State()) == ReleaseSpec(key, old(config.Value()), deleteOutcome, updateOk, now, old(State()))
    {
      err := DeleteAll(config.spec.namespace, objects, deleteOutcome);
      if err.Some? {
        return;
      }
      config.RemoveFinalizer(now);
      var updated := store.Update(key, config.Value(), updateOk);
      if !updated {
        return Some(RemoveFinalizerFailed);
      }
      return None;
    }

    /** The live branch of Reconcile. */
    method Protect(key: ObjectKey, config: Config, hasFinalizer: bool, objects: seq<FluxObject>, updateOk: bool,
                   applyOk: FluxObject -> bool, now: int)
      returns (err: Option<ReconcileError>)
      requires hasFinalizer <==> GitopsDeleteFinalizer in config.finalizers
      requires config.spec.disableScanning.Some? && objects == GitopsObjects(config.spec, FluxArgs(config.spec))
      modifies config, store, kommons
      ensures (err, State()) == ProtectSpec(key, old(config.Value()), updateOk, applyOk, now, old(State()))
    {
      if !hasFinalizer {
        config.AddFinalizer(now);
        var updated := store.Update(key, config.Value(), updateOk);
        if !updated {
          return Some(AddFinalizerFailed);
        }
      }
      err := ApplyAll(config.spec.namespace, objects, applyOk);
    }
  }

  // ---------------------------------------------------------------------------
  // Properties of Reconcile

  /**
   * Deletion: when every delete and the Update go through, the stored object
   * keeps its other finalizers in order and loses the protect finalizer;
   * when a delete fails, the stored object is not touched.
   */
  lemma DeletionReleasesFinalizer(key: ObjectKey, deleteOutcome: FluxObject -> ObjectOutcome, updateOk: bool,
                                  applyOk: FluxObject -> bool, now: int, st: ReconcileState)
    requires key in st.store.objects && st.store.objects[key].deleting
    ensures var g := st.store.objects[key];
      var spec := Defaulted(g.spec, g.meta.namespace);
      var r := ReconcileSpec(key, true, deleteOutcome, updateOk, applyOk, now, st);
      (r.0.None? <==> (forall o :: o in GitopsObjects(spec, FluxArgs(spec)) ==> deleteOutcome(o) == ObjectOk) && updateOk) &&
      (r.0.None? ==> r.1.store.objects[key].finalizers == WithoutProtect(g.finalizers) &&
                     GitopsDeleteFinalizer !in r.1.store.objects[key].finalizers) &&
      ((exists o :: o in GitopsObjects(spec, FluxArgs(spec)) && deleteOutcome(o) != ObjectOk) ==> r.1.store == st.store) &&
      (forall c :: c in r.1.objectCalls[|st.objectCalls|..] ==> c.DeleteCall?)
  {
    var g := st.store.objects[key];
    var spec := Defaulted(g.spec, g.meta.namespace);
    var (err, calls) := RunDeletes(spec.namespace, GitopsObjects(spec, FluxArgs(spec)), deleteOutcome, st.objectCalls);
    RunDeletesOnlyDeletes(spec.namespace, GitopsObjects(spec, FluxArgs(spec)), deleteOutcome, st.objectCalls);
  }

  lemma {:induction false} RunDeletesOnlyDeletes(ns: string, objs: seq<FluxObject>, outcome: FluxObject -> ObjectOutcome,
                                                 calls: seq<ObjectCall>)
    ensures forall c :: c in RunDeletes(ns, objs, outcome, calls).1[|calls|..] ==> c.DeleteCall?
    decreases |objs|
  {
    if objs != [] && outcome(objs[0]) == ObjectOk {
      var calls' := calls + [DeleteCall(ns, objs[0], true)];
      RunDeletesOnlyDeletes(ns, objs[1..], outcome, calls');
      var r := RunDeletes(ns, objs[1..], outcome, calls');
      assert r.1[|calls|..] == [DeleteCall(ns, objs[0], true)] + r.1[|calls'|..] by {
        assert r.1[..|calls'|] == calls';
      }
    }
  }

  /**
   * Not being deleted: the protect finalizer is appended once, and only when
   * it is missing; if that Update fails nothing is applied.
   */
  lemma FinalizerAddedWhenMissing(key: ObjectKey, deleteOutcome: FluxObject -> ObjectOutcome, updateOk: bool,
                                  applyOk: FluxObject -> bool, now: int, st: ReconcileState)
    requires key in st.store.objects && !st.store.objects[key].deleting
    ensures var g := st.store.objects[key];
      var r := ReconcileSpec(key, true, deleteOutcome, updateOk, applyOk, now, st);
      (GitopsDeleteFinalizer in g.finalizers ==> r.1.store.objects == st.store.objects && r.1.store.calls == st.store.calls) &&
      (GitopsDeleteFinalizer !in g.finalizers && updateOk ==>
         r.1.store.objects[key].finalizers == g.finalizers + [GitopsDeleteFinalizer] &&
         r.1.store.objects[key].spec == Defaulted(g.spec, g.meta.namespace) &&
         r.1.store.calls == st.store.calls + [UpdateCall(key, true)]) &&
      (GitopsDeleteFinalizer !in g.finalizers && !updateOk ==>
         r.0 == Some(AddFinalizerFailed) && r.1.objectCalls == st.objectCalls)
  {
  }

  /**
   * After a reconcile that went through on an object not being deleted, a
   * second one finds the finalizer and the defaults in place and makes no
   * further Update.
   */
  lemma SecondReconcileWritesNothing(key: ObjectKey, deleteOutcome: FluxObject -> ObjectOutcome, updateOk: bool,
                                     applyOk: FluxObject -> bool, now: int, st: ReconcileState,
                                     updateOk2: bool, now2: int)
    requires key in st.store.objects && !st.store.objects[key].deleting
    requires ReconcileSpec(key, true, deleteOutcome, updateOk, applyOk, now, st).0.None?
    ensures var st1 := ReconcileSpec(key, true, deleteOutcome, updateOk, applyOk, now, st).1;
      var st2 := ReconcileSpec(key, true, deleteOutcome, updateOk2, applyOk, now2, st1).1;
      st2.store == st1.store
  {
    var g := st.store.objects[key];
    var st1 := ReconcileSpec(key, true, deleteOutcome, updateOk, applyOk, now, st).1;
    var g1 := st1.store.objects[key];
    if GitopsDeleteFinalizer !in g.finalizers {
      assert g1.finalizers == g.finalizers + [GitopsDeleteFinalizer];
      assert GitopsDeleteFinalizer in g1.finalizers;
    } else {
      assert g1 == g;
    }
  }
}
