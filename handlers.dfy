/** The topology resolver of the log-forwarder handler: builds the logging
    options for one managed cluster, for unmanaged collection (a
    user-supplied ClusterLogForwarder) and for the managed stack (collection
    on a spoke, storage on the hub). */
module Handlers {
  import opened Wrappers
  import opened Slices
  import opened Observability
  import opened Errors
  import opened Kube
  import opened OutputResources
  import Addon

  /** Names fixed by the addon's packages (`addon.Name`,
      `addon.DefaultStackPrefix`, the install and hub namespaces, the
      managed secret names and certificate common names). */
  datatype Constants = Constants(
    addonName: string,
    defaultStackPrefix: string,
    installNamespace: string,
    hubNamespace: string,
    managedCollectionSecretName: string,
    managedStorageMTLSSecretName: string,
    managedCollectionCertCommonName: string,
    managedStorageCertCommonName: string)

  /** The values of `Options.ManagedStackEnabled()` and
      `Options.UnmanagedCollectionEnabled()`. */
  datatype Topology = Topology(managedStackEnabled: bool, unmanagedCollectionEnabled: bool)

  datatype UnmanagedCollection = UnmanagedCollection(
    forwarder: Option<ClusterLogForwarder>,
    secrets: seq<Secret>,
    configMaps: seq<ConfigMap>)

  datatype ManagedCollection = ManagedCollection(forwarder: Option<ClusterLogForwarder>, secrets: seq<Secret>)

  datatype Storage = Storage(
    lokiStack: Option<LokiStackObject>,
    objStorageSecret: Secret,
    mtlsSecret: Secret,
    tenants: seq<string>)

  datatype ManagedStack = ManagedStack(lokiURL: string, collection: ManagedCollection, storage: Storage)

  /** `manifests.Options` as the handler fills it in. */
  datatype Options = Options(
    platform: Addon.LogsOptions,
    userWorkloads: Addon.LogsOptions,
    isHubCluster: bool,
    hubHostname: string,
    subscriptionChannel: string,
    topology: Topology,
    unmanaged: UnmanagedCollection,
    managedStack: ManagedStack)

  const ZeroUnmanaged: UnmanagedCollection := UnmanagedCollection(None, [], [])
  const ZeroManagedStack: ManagedStack := ManagedStack("", ManagedCollection(None, []), Storage(None, ZeroSecret, ZeroSecret, []))

  // ---------------------------------------------------------------------
  // The hub's ingestion URL

  const LokiURLHead: string := "https://mcoa-managed-instance-openshift-logging.apps."
  const LokiURLPath: string := "/api/logs/v1/"
  const LokiURLTail: string := "/otlp/v1/logs"

  /** The OTLP logs endpoint of the managed LokiStack on the hub, for one
      tenant: it starts with the hub's host and ends with the tenant's
      segment, from which the tenant is read back unchanged. */
  function LokiURL(hubHostname: string, tenant: string): (url: string)
    ensures HasPrefix(url, LokiURLHead + hubHostname + LokiURLPath)
    ensures |LokiURLHead + hubHostname + LokiURLPath| + |LokiURLTail| <= |url|
    ensures LokiURLTenant(url, hubHostname) == tenant
    ensures url[|url| - |LokiURLTail|..] == LokiURLTail
  {
    var head := LokiURLHead + hubHostname + LokiURLPath;
    var url := head + tenant + LokiURLTail;
    assert url[..|head|] == head;
    assert url[|head| .. |url| - |LokiURLTail|] == tenant;
    assert url[|url| - |LokiURLTail|..] == LokiURLTail;
    url
  }

  /** The tenant segment of a hub URL, for a known hub hostname. */
  function LokiURLTenant(url: string, hubHostname: string): string
    requires |LokiURLHead + hubHostname + LokiURLPath| + |LokiURLTail| <= |url|
  {
    url[|LokiURLHead + hubHostname + LokiURLPath| .. |url| - |LokiURLTail|]
  }

  predicate HasPrefix(s: string, prefix: string)
  {
    |prefix| <= |s| && s[..|prefix|] == prefix
  }

  // ---------------------------------------------------------------------
  // Tenants: the other clusters that run this addon

  /** The namespaces of the listed addon installations named `addonName`,
      other than `self`, in listing order. */
  function Tenants(items: seq<ManagedClusterAddOn>, addonName: string, self: string): seq<string>
    decreases |items|
  {
    if items == [] then []
    else
      var last := items[|items| - 1];
      Tenants(items[..|items| - 1], addonName, self)
      + (if last.name == addonName && last.namespace != self then [last.namespace] else [])
  }

  lemma {:induction false} TenantsMembership(items: seq<ManagedClusterAddOn>, addonName: string, self: string, t: string)
    ensures t in Tenants(items, addonName, self) <==>
            exists i :: 0 <= i < |items| && items[i].name == addonName && items[i].namespace == t && t != self
    decreases |items|
  {
    if items != [] {
      var init := items[..|items| - 1];
      TenantsMembership(init, addonName, self, t);
      if exists i :: 0 <= i < |init| && init[i].name == addonName && init[i].namespace == t && t != self {
        var i :| 0 <= i < |init| && init[i].name == addonName && init[i].namespace == t && t != self;
        assert items[i] == init[i];
      }
    }
  }

  /** The requester's own namespace is never a tenant. */
  lemma SelfIsNoTenant(items: seq<ManagedClusterAddOn>, addonName: string, self: string)
    ensures self !in Tenants(items, addonName, self)
  {
    TenantsMembership(items, addonName, self, self);
  }

  /** The listing loop shared by `BuildDefaultOptions` and the hub branch of
      `managedBuildOptions`. */
  method CollectTenants(items: seq<ManagedClusterAddOn>, addonName: string, self: string) returns (tenants: seq<string>)
    ensures tenants == Tenants(items, addonName, self)
  {
    tenants := [];
    var i := 0;
    while i < |items|
      invariant 0 <= i <= |items|
      invariant tenants == Tenants(items[..i], addonName, self)
    {
      var tenant := items[i];
      if tenant.name == addonName && tenant.namespace != self {
        tenants := tenants + [tenant.namespace];
      }
      assert items[..i + 1][..i] == items[..i];
      i := i + 1;
    }
    assert items[..i] == items;
  }

  // ---------------------------------------------------------------------
  // The default-stack reference

  /** The first key whose name starts with the prefix, or the zero key. */
  function DefaultKey(keys: seq<ObjectKey>, prefix: string): ObjectKey
    decreases |keys|
  {
    if keys == [] then ZeroKey
    else if HasPrefix(keys[0].name, prefix) then keys[0]
    else DefaultKey(keys[1..], prefix)
  }

  /** The position of the first key whose name carries the prefix. */
  ghost predicate FirstPrefixed(keys: seq<ObjectKey>, prefix: string, i: int)
  {
    0 <= i < |keys| && HasPrefix(keys[i].name, prefix) && forall j :: 0 <= j < i ==> !HasPrefix(keys[j].name, prefix)
  }

  /** The selected key is the zero key when no key carries the prefix, and
      otherwise the first key that does. */
  lemma {:induction false} DefaultKeyIsFirstPrefixed(keys: seq<ObjectKey>, prefix: string)
    ensures (forall i :: 0 <= i < |keys| ==> !HasPrefix(keys[i].name, prefix)) ==> DefaultKey(keys, prefix) == ZeroKey
    ensures (exists i :: 0 <= i < |keys| && HasPrefix(keys[i].name, prefix)) ==>
              exists i :: FirstPrefixed(keys, prefix, i) && DefaultKey(keys, prefix) == keys[i]
    decreases |keys|
  {
    if keys != [] {
      DefaultKeyIsFirstPrefixed(keys[1..], prefix);
      assert forall j :: 1 <= j < |keys| ==> keys[j] == keys[1..][j - 1];
      if HasPrefix(keys[0].name, prefix) {
        assert FirstPrefixed(keys, prefix, 0);
      } else if exists i :: 0 <= i < |keys| && HasPrefix(keys[i].name, prefix) {
        var k :| 0 <= k < |keys| && HasPrefix(keys[k].name, prefix);
        assert HasPrefix(keys[1..][k - 1].name, prefix);
        var i :| FirstPrefixed(keys[1..], prefix, i) && DefaultKey(keys[1..], prefix) == keys[1..][i];
        assert FirstPrefixed(keys, prefix, i + 1);
      }
    }
  }

  /** With a non-empty prefix, the selected key has an empty name exactly
      when no key carries the prefix: the test of `managedBuildOptions` on
      the selected name, stated on its own. */
  lemma {:induction false} DefaultKeyMissing(keys: seq<ObjectKey>, prefix: string)
    requires prefix != ""
    ensures DefaultKey(keys, prefix).name == "" <==> forall i :: 0 <= i < |keys| ==> !HasPrefix(keys[i].name, prefix)
    decreases |keys|
  {
    if keys != [] {
      DefaultKeyMissing(keys[1..], prefix);
      if !HasPrefix(keys[0].name, prefix) {
        assert forall i :: 1 <= i < |keys| ==> keys[i] == keys[1..][i - 1];
      }
    }
  }

  /** The key-selection loop of `managedBuildOptions`. */
  method SelectDefaultKey(keys: seq<ObjectKey>, prefix: string) returns (key: ObjectKey)
    ensures key == DefaultKey(keys, prefix)
  {
    key := ZeroKey;
    var i := 0;
    while i < |keys|
      invariant 0 <= i <= |keys|
      invariant DefaultKey(keys, prefix) == DefaultKey(keys[i..], prefix)
    {
      assert keys[i..][1..] == keys[i + 1..];
      if HasPrefix(keys[i].name, prefix) {
        key := keys[i];
        break;
      }
      i := i + 1;
    }
  }

  // ---------------------------------------------------------------------
  // Fetching named secrets and config maps

  /** `addon.GetSecrets` / `addon.GetConfigMaps` as far as the resolver
      relies on them: each name looked up in the namespace, in order; the
      first absent one fails the whole fetch. */
  function FetchAll<T>(m: map<ObjectKey, T>, kind: Kind, namespace: string, names: seq<string>): (r: Result<seq<T>, Error>)
    ensures r.Success? <==> forall i :: 0 <= i < |names| ==> ObjectKey(namespace, names[i]) in m
    ensures r.Success? ==> |r.value| == |names| && forall i :: 0 <= i < |names| ==> r.value[i] == m[ObjectKey(namespace, names[i])]
    ensures r.Failure? ==> exists i :: 0 <= i < |names| && r.error == NotFound(kind, ObjectKey(namespace, names[i]))
                                       && ObjectKey(namespace, names[i]) !in m
                                       && forall j :: 0 <= j < i ==> ObjectKey(namespace, names[j]) in m
    decreases |names|
  {
    if names == [] then Success([])
    else
      var key := ObjectKey(namespace, names[0]);
      if key !in m then Failure(NotFound(kind, key))
      else
        var rest := FetchAll(m, kind, namespace, names[1..]);
        assert forall i :: 1 <= i < |names| ==> names[i] == names[1..][i - 1];
        if rest.Failure? then
          var i :| 0 <= i < |names[1..]| && rest.error == NotFound(kind, ObjectKey(namespace, names[1..][i]))
                   && ObjectKey(namespace, names[1..][i]) !in m
                   && forall j :: 0 <= j < i ==> ObjectKey(namespace, names[1..][j]) in m;
          assert names[i + 1] == names[1..][i];
          rest
        else Success([m[key]] + rest.value)
  }

  // ---------------------------------------------------------------------
  // Unmanaged collection

  /** The first error among the outputs, in order. */
  function FirstOutputError(outputs: seq<Output>): Option<Error>
    decreases |outputs|
  {
    if outputs == [] then None
    else if OutputError(outputs[0]).Some? then OutputError(outputs[0])
    else FirstOutputError(outputs[1..])
  }

  lemma {:induction false} FirstOutputErrorIsFirst(outputs: seq<Output>)
    ensures FirstOutputError(outputs).None? <==> forall i :: 0 <= i < |outputs| ==> OutputError(outputs[i]).None?
    ensures FirstOutputError(outputs).Some? ==>
              exists i :: 0 <= i < |outputs| && FirstOutputError(outputs) == OutputError(outputs[i])
                          && forall j :: 0 <= j < i ==> OutputError(outputs[j]).None?
    decreases |outputs|
  {
    if outputs != [] {
      FirstOutputErrorIsFirst(outputs[1..]);
      assert forall i :: 1 <= i < |outputs| ==> outputs[i] == outputs[1..][i - 1];
      if OutputError(outputs[0]).None? && FirstOutputError(outputs[1..]).Some? {
        var i :| 0 <= i < |outputs[1..]| && FirstOutputError(outputs[1..]) == OutputError(outputs[1..][i])
                 && forall j :: 0 <= j < i ==> OutputError(outputs[1..][j]).None?;
        assert FirstOutputError(outputs) == OutputError(outputs[i + 1]);
      }
    }
  }

  /** The outputs the handler reaches (up to and including the first
      rejected one) can be read without a nil dereference. */
  ghost predicate OutputsDereferenceable(outputs: seq<Output>)
  {
    forall i :: 0 <= i < |outputs| && (forall j :: 0 <= j < i ==> OutputError(outputs[j]).None?) ==> Dereferenceable(outputs[i])
  }

  /** The forwarder that unmanaged collection would use, when it is enabled
      and there is exactly one reference; a disabled phase reads nothing. */
  ghost predicate UnmanagedDereferenceable(k8s: Cluster, mcAddon: ManagedClusterAddOn, enabled: bool)
    reads k8s
  {
    enabled && |mcAddon.forwarderKeys| == 1 && mcAddon.forwarderKeys[0] in k8s.forwarders
    ==> OutputsDereferenceable(k8s.forwarders[mcAddon.forwarderKeys[0]].outputs)
  }

  /** The concatenation of the lists, in order. */
  ghost function Flatten(chunks: seq<seq<string>>): seq<string>
    decreases |chunks|
  {
    if chunks == [] then [] else Flatten(chunks[..|chunks| - 1]) + chunks[|chunks| - 1]
  }

  /** A name is in the concatenation iff it is in one of the lists: names
      are not merged across outputs, only within one. */
  lemma {:induction false} FlattenElements(chunks: seq<seq<string>>, x: string)
    ensures x in Flatten(chunks) <==> exists i :: 0 <= i < |chunks| && x in chunks[i]
    decreases |chunks|
  {
    if chunks != [] {
      var init := chunks[..|chunks| - 1];
      FlattenElements(init, x);
      if exists i :: 0 <= i < |init| && x in init[i] {
        var i :| 0 <= i < |init| && x in init[i];
        assert chunks[i] == init[i];
      }
    }
  }

  /** Each output's lists are what the extractor gives for it. */
  ghost predicate NamesOfEach(outputs: seq<Output>, secretChunks: seq<seq<string>>, configMapChunks: seq<seq<string>>)
  {
    && |secretChunks| == |outputs| && |configMapChunks| == |outputs|
    && forall i :: 0 <= i < |outputs| ==>
         && OutputError(outputs[i]).None? && Dereferenceable(outputs[i])
         && NoDuplicates(secretChunks[i]) && Elements(secretChunks[i]) == ReferencedSecretNames(outputs[i])
         && StrictlySorted(configMapChunks[i]) && Elements(configMapChunks[i]) == TLSConfigMapNames(outputs[i].tls)
  }

  /** Extending the outputs by one, with that output's lists, keeps the
      per-output correspondence. */
  lemma NamesOfEachSnoc(outputs: seq<Output>, i: int, secretChunks: seq<seq<string>>, configMapChunks: seq<seq<string>>,
                        secretNames: seq<string>, configMapNames: seq<string>)
    requires 0 <= i < |outputs| && NamesOfEach(outputs[..i], secretChunks, configMapChunks)
    requires OutputError(outputs[i]).None? && Dereferenceable(outputs[i])
    requires NoDuplicates(secretNames) && Elements(secretNames) == ReferencedSecretNames(outputs[i])
    requires StrictlySorted(configMapNames) && Elements(configMapNames) == TLSConfigMapNames(outputs[i].tls)
    ensures NamesOfEach(outputs[..i + 1], secretChunks + [secretNames], configMapChunks + [configMapNames])
  {
    assert forall j :: 0 <= j < i ==> outputs[..i + 1][j] == outputs[..i][j];
  }

  /** The lists the extractor gives for the Loki output of the forwarder in
      the logging package's Helm test (internal/logging/helm_test.go). */
  lemma LokiAppLogsLists(secretNames: seq<string>, configMapNames: seq<string>)
    requires NoDuplicates(secretNames) && Elements(secretNames) == ReferencedSecretNames(LokiAppLogs())
    requires StrictlySorted(configMapNames) && Elements(configMapNames) == TLSConfigMapNames(LokiAppLogs().tls)
    ensures secretNames == ["static-authentication"] && configMapNames == ["foo"]
  {
    assert ReferencedSecretNames(LokiAppLogs()) == {"static-authentication"};
    NoDuplicatesSingleton(secretNames, "static-authentication");
    NoDuplicatesSingleton(configMapNames, "foo");
  }

  /** Two outputs naming the same secret make the fetch list name it twice:
      the unmanaged path does not merge names across outputs. */
  lemma SameSecretFromTwoOutputsListedTwice(outputs: seq<Output>, secretChunks: seq<seq<string>>, configMapChunks: seq<seq<string>>)
    requires outputs == [LokiAppLogs(), LokiAppLogs()]
    requires NamesOfEach(outputs, secretChunks, configMapChunks)
    ensures Flatten(secretChunks) == ["static-authentication", "static-authentication"]
    ensures Flatten(configMapChunks) == ["foo", "foo"]
  {
    assert outputs[0] == LokiAppLogs() && outputs[1] == LokiAppLogs();
    LokiAppLogsLists(secretChunks[0], configMapChunks[0]);
    LokiAppLogsLists(secretChunks[1], configMapChunks[1]);
    assert secretChunks[..1][..0] == [] && secretChunks[..1][0] == secretChunks[0];
    assert Flatten(secretChunks[..1]) == secretChunks[0];
    assert configMapChunks[..1][..0] == [] && configMapChunks[..1][0] == configMapChunks[0];
    assert Flatten(configMapChunks[..1]) == configMapChunks[0];
  }

  /** The output loop of `unmagedBuildOptions`: per-output names appended
      in output order; the first rejected output aborts with its error. */
  method CollectOutputNames(outputs: seq<Output>)
    returns (secretNames: seq<string>, configMapNames: seq<string>, err: Option<Error>,
             ghost secretChunks: seq<seq<string>>, ghost configMapChunks: seq<seq<string>>)
    requires OutputsDereferenceable(outputs)
    ensures err == FirstOutputError(outputs)
    ensures err.None? ==> NamesOfEach(outputs, secretChunks, configMapChunks)
    ensures err.None? ==> secretNames == Flatten(secretChunks) && configMapNames == Flatten(configMapChunks)
  {
    secretNames, configMapNames, err, secretChunks, configMapChunks := [], [], None, [], [];
    var i := 0;
    while i < |outputs|
      invariant 0 <= i <= |outputs|
      invariant forall j :: 0 <= j < i ==> OutputError(outputs[j]).None?
      invariant FirstOutputError(outputs) == FirstOutputError(outputs[i..])
      invariant NamesOfEach(outputs[..i], secretChunks, configMapChunks)
      invariant secretNames == Flatten(secretChunks) && configMapNames == Flatten(configMapChunks)
    {
      var extractedSecretsNames, extractedConfigMapNames, outputErr := GetOutputResourcesNames(outputs[i]);
      assert outputs[i..][0] == outputs[i] && outputs[i..][1..] == outputs[i + 1..];
      if outputErr.Some? {
        err := outputErr;
        return;
      }
      NamesOfEachSnoc(outputs, i, secretChunks, configMapChunks, extractedSecretsNames, extractedConfigMapNames);
      secretNames := secretNames + extractedSecretsNames;
      configMapNames := configMapNames + extractedConfigMapNames;
      secretChunks := secretChunks + [extractedSecretsNames];
      configMapChunks := configMapChunks + [extractedConfigMapNames];
      i := i + 1;
    }
    assert outputs[..i] == outputs;
  }

  /** What `unmagedBuildOptions` does, for each shape of the store:
      nothing when unmanaged collection is off; one forwarder reference is
      required; the forwarder is recorded before its outputs are read; then
      the secrets and config maps named by the outputs are fetched from the
      forwarder's namespace.  On an error the options keep what was written
      before it. */
  ghost predicate UnmanagedOutcome(k8s: Cluster, mcAddon: ManagedClusterAddOn, opts: Options, res: Options, err: Option<Error>,
                                   secretChunks: seq<seq<string>>, configMapChunks: seq<seq<string>>)
    reads k8s
  {
    var keys := mcAddon.forwarderKeys;
    if !opts.topology.unmanagedCollectionEnabled then res == opts && err.None?
    else if |keys| == 0 then res == opts && err == Some(MissingCLFRef)
    else if |keys| > 1 then res == opts && err == Some(MultipleCLFRef)
    else if keys[0] !in k8s.forwarders then res == opts && err == Some(NotFound(ClusterLogForwarderKind, keys[0]))
    else
      var clf := k8s.forwarders[keys[0]];
      var withForwarder := opts.(unmanaged := opts.unmanaged.(forwarder := Some(clf)));
      if FirstOutputError(clf.outputs).Some? then res == withForwarder && err == FirstOutputError(clf.outputs)
      else
        && NamesOfEach(clf.outputs, secretChunks, configMapChunks)
        && var secrets := FetchAll(k8s.secrets, SecretKind, clf.key.namespace, Flatten(secretChunks));
           var configMaps := FetchAll(k8s.configMaps, ConfigMapKind, clf.key.namespace, Flatten(configMapChunks));
           if secrets.Failure? then res == withForwarder && err == Some(secrets.error)
           else if configMaps.Failure? then
             res == withForwarder.(unmanaged := withForwarder.unmanaged.(secrets := secrets.value)) && err == Some(configMaps.error)
           else res == opts.(unmanaged := UnmanagedCollection(Some(clf), secrets.value, configMaps.value)) && err.None?
  }

  /** A successful unmanaged phase records its one forwarder and fetches,
      from the forwarder's namespace and in output order, the secrets and
      config maps its outputs reference, and nothing else. */
  lemma UnmanagedSuccessFetchesReferencedNames(k8s: Cluster, mcAddon: ManagedClusterAddOn, opts: Options, res: Options, err: Option<Error>,
                                               secretChunks: seq<seq<string>>, configMapChunks: seq<seq<string>>)
    requires UnmanagedOutcome(k8s, mcAddon, opts, res, err, secretChunks, configMapChunks)
    requires opts.topology.unmanagedCollectionEnabled && err.None?
    ensures |mcAddon.forwarderKeys| == 1 && mcAddon.forwarderKeys[0] in k8s.forwarders
    ensures var clf := k8s.forwarders[mcAddon.forwarderKeys[0]];
            && res.unmanaged.forwarder == Some(clf)
            && |res.unmanaged.secrets| == |Flatten(secretChunks)|
            && (forall i :: 0 <= i < |Flatten(secretChunks)| ==>
                  ObjectKey(clf.key.namespace, Flatten(secretChunks)[i]) in k8s.secrets
                  && res.unmanaged.secrets[i] == k8s.secrets[ObjectKey(clf.key.namespace, Flatten(secretChunks)[i])])
            && forall n :: n in Flatten(secretChunks) <==>
                 exists j :: 0 <= j < |clf.outputs| && OutputError(clf.outputs[j]).None? && Dereferenceable(clf.outputs[j])
                             && n in ReferencedSecretNames(clf.outputs[j])
    ensures var clf := k8s.forwarders[mcAddon.forwarderKeys[0]];
            && |res.unmanaged.configMaps| == |Flatten(configMapChunks)|
            && (forall i :: 0 <= i < |Flatten(configMapChunks)| ==>
                  ObjectKey(clf.key.namespace, Flatten(configMapChunks)[i]) in k8s.configMaps
                  && res.unmanaged.configMaps[i] == k8s.configMaps[ObjectKey(clf.key.namespace, Flatten(configMapChunks)[i])])
            && forall n :: n in Flatten(configMapChunks) <==>
                 exists j :: 0 <= j < |clf.outputs| && n in TLSConfigMapNames(clf.outputs[j].tls)
  {
    var clf := k8s.forwarders[mcAddon.forwarderKeys[0]];
    assert NamesOfEach(clf.outputs, secretChunks, configMapChunks);
    forall n | n in Flatten(secretChunks)
      ensures exists j :: 0 <= j < |clf.outputs| && OutputError(clf.outputs[j]).None? && Dereferenceable(clf.outputs[j])
                          && n in ReferencedSecretNames(clf.outputs[j])
    {
      FlattenElements(secretChunks, n);
      var j :| 0 <= j < |secretChunks| && n in secretChunks[j];
      assert n in Elements(secretChunks[j]);
    }
    forall n, j | 0 <= j < |clf.outputs| && OutputError(clf.outputs[j]).None? && Dereferenceable(clf.outputs[j])
                  && n in ReferencedSecretNames(clf.outputs[j])
      ensures n in Flatten(secretChunks)
    {
      assert n in Elements(secretChunks[j]);
      FlattenElements(secretChunks, n);
    }
    forall n | n in Flatten(configMapChunks)
      ensures exists j :: 0 <= j < |clf.outputs| && n in TLSConfigMapNames(clf.outputs[j].tls)
    {
      FlattenElements(configMapChunks, n);
      var j :| 0 <= j < |configMapChunks| && n in configMapChunks[j];
      assert n in Elements(configMapChunks[j]);
    }
    forall n, j | 0 <= j < |clf.outputs| && n in TLSConfigMapNames(clf.outputs[j].tls)
      ensures n in Flatten(configMapChunks)
    {
      assert n in Elements(configMapChunks[j]);
      FlattenElements(configMapChunks, n);
    }
  }

  /** `unmagedBuildOptions`. */
  method UnmanagedBuildOptions(k8s: Cluster, mcAddon: ManagedClusterAddOn, opts: Options)
    returns (res: Options, err: Option<Error>, ghost secretChunks: seq<seq<string>>, ghost configMapChunks: seq<seq<string>>)
    requires UnmanagedDereferenceable(k8s, mcAddon, opts.topology.unmanagedCollectionEnabled)
    ensures UnmanagedOutcome(k8s, mcAddon, opts, res, err, secretChunks, configMapChunks)
    ensures res.managedStack == opts.managedStack
  {
    res, err, secretChunks, configMapChunks := opts, None, [], [];
    if !opts.topology.unmanagedCollectionEnabled {
      return;
    }
    var keys := mcAddon.forwarderKeys;
    if |keys| == 0 {
      err := Some(MissingCLFRef);
      return;
    }
    if |keys| > 1 {
      err := Some(MultipleCLFRef);
      return;
    }
    if keys[0] !in k8s.forwarders {
      err := Some(NotFound(ClusterLogForwarderKind, keys[0]));
      return;
    }
    var clf := k8s.forwarders[keys[0]];
    res := res.(unmanaged := res.unmanaged.(forwarder := Some(clf)));

    var secretNames, configmapNames, namesErr;
    secretNames, configmapNames, namesErr, secretChunks, configMapChunks := CollectOutputNames(clf.outputs);
    if namesErr.Some? {
      err := namesErr;
      return;
    }

    var secrets := FetchAll(k8s.secrets, SecretKind, clf.key.namespace, secretNames);
    if secrets.Failure? {
      err := Some(secrets.error);
      return;
    }
    res := res.(unmanaged := res.unmanaged.(secrets := secrets.value));

    var configMaps := FetchAll(k8s.configMaps, ConfigMapKind, clf.key.namespace, configmapNames);
    if configMaps.Failure? {
      err := Some(configMaps.error);
      return;
    }
    res := res.(unmanaged := res.unmanaged.(configMaps := configMaps.value));
  }

  // ---------------------------------------------------------------------
  // Managed stack

  /** What `managedBuildOptions` does on a spoke: the first default-prefixed
      forwarder reference, that forwarder, the managed collection secret of
      the cluster's namespace, and the hub URL with the namespace as tenant.
      On an error the options keep what was written before it. */
  ghost predicate SpokeOutcome(c: Constants, k8s: Cluster, mcAddon: ManagedClusterAddOn, opts: Options, res: Options, err: Option<Error>)
    reads k8s
  {
    var keys := mcAddon.forwarderKeys;
    var key := DefaultKey(keys, c.defaultStackPrefix);
    var ms := opts.managedStack;
    if |keys| == 0 || key.name == "" then res == opts && err == Some(MissingDefaultCLFRef)
    else if key !in k8s.forwarders then res == opts && err == Some(NotFound(ClusterLogForwarderKind, key))
    else
      var collection := ms.collection.(forwarder := Some(k8s.forwarders[key]));
      var secretKey := ObjectKey(mcAddon.namespace, c.managedCollectionSecretName);
      if secretKey !in k8s.secrets then
        res == opts.(managedStack := ms.(collection := collection)) && err == Some(NotFound(SecretKind, secretKey))
      else
        && res == opts.(managedStack := ms.(collection := collection.(secrets := [k8s.secrets[secretKey]]),
                                            lokiURL := LokiURL(opts.hubHostname, mcAddon.namespace)))
        && err.None?
  }

  /** What `managedBuildOptions` does on the hub: the first default-prefixed
      LokiStack reference, that LokiStack, its object-storage secret (named
      by the LokiStack, in the LokiStack's namespace), the hub mTLS secret,
      and the tenants from the listing of addon installations. */
  ghost predicate HubOutcome(c: Constants, k8s: Cluster, mcAddon: ManagedClusterAddOn, opts: Options, res: Options, err: Option<Error>)
    reads k8s
  {
    var keys := mcAddon.lokiStackKeys;
    var key := DefaultKey(keys, c.defaultStackPrefix);
    var ms := opts.managedStack;
    if |keys| == 0 || key.name == "" then res == opts && err == Some(MissingDefaultLSRef)
    else if key !in k8s.lokiStacks then res == opts && err == Some(NotFound(LokiStackKind, key))
    else
      var ls := k8s.lokiStacks[key];
      var s1 := ms.storage.(lokiStack := Some(ls));
      var objKey := ObjectKey(ls.key.namespace, ls.storageSecretName);
      if objKey !in k8s.secrets then res == opts.(managedStack := ms.(storage := s1)) && err == Some(NotFound(SecretKind, objKey))
      else
        var s2 := s1.(objStorageSecret := k8s.secrets[objKey]);
        var mtlsKey := ObjectKey(mcAddon.namespace, c.managedStorageMTLSSecretName);
        if mtlsKey !in k8s.secrets then res == opts.(managedStack := ms.(storage := s2)) && err == Some(NotFound(SecretKind, mtlsKey))
        else
          var s3 := s2.(mtlsSecret := k8s.secrets[mtlsKey]);
          if k8s.listFails then res == opts.(managedStack := ms.(storage := s3)) && err == Some(ListFailed)
          else
            && res == opts.(managedStack := ms.(storage := s3.(tenants := Tenants(k8s.addOns, c.addonName, mcAddon.namespace))))
            && err.None?
  }

  ghost predicate ManagedOutcome(c: Constants, k8s: Cluster, mcAddon: ManagedClusterAddOn, opts: Options, res: Options, err: Option<Error>)
    reads k8s
  {
    if !opts.topology.managedStackEnabled then res == opts && err.None?
    else if !opts.isHubCluster then SpokeOutcome(c, k8s, mcAddon, opts, res, err)
    else HubOutcome(c, k8s, mcAddon, opts, res, err)
  }

  /** `managedBuildOptions`. */
  method ManagedBuildOptions(c: Constants, k8s: Cluster, mcAddon: ManagedClusterAddOn, opts: Options) returns (res: Options, err: Option<Error>)
    ensures ManagedOutcome(c, k8s, mcAddon, opts, res, err)
    ensures res.unmanaged == opts.unmanaged
  {
    res, err := opts, None;
    if !opts.topology.managedStackEnabled {
      return;
    }

    if !opts.isHubCluster {
      var keys := mcAddon.forwarderKeys;
      if |keys| == 0 {
        err := Some(MissingDefaultCLFRef);
        return;
      }
      var clfKey := SelectDefaultKey(keys, c.defaultStackPrefix);
      if clfKey.name == "" {
        err := Some(MissingDefaultCLFRef);
        return;
      }
      if clfKey !in k8s.forwarders {
        err := Some(NotFound(ClusterLogForwarderKind, clfKey));
        return;
      }
      var clf := k8s.forwarders[clfKey];
      res := res.(managedStack := res.managedStack.(collection := res.managedStack.collection.(forwarder := Some(clf))));

      var key := ObjectKey(mcAddon.namespace, c.managedCollectionSecretName);
      if key !in k8s.secrets {
        err := Some(NotFound(SecretKind, key));
        return;
      }
      var secret := k8s.secrets[key];
      res := res.(managedStack := res.managedStack.(collection := res.managedStack.collection.(secrets := [secret])));
      res := res.(managedStack := res.managedStack.(lokiURL := LokiURL(opts.hubHostname, mcAddon.namespace)));
      return;
    }

    var keys := mcAddon.lokiStackKeys;
    if |keys| == 0 {
      err := Some(MissingDefaultLSRef);
      return;
    }
    var lsKey := SelectDefaultKey(keys, c.defaultStackPrefix);
    if lsKey.name == "" {
      err := Some(MissingDefaultLSRef);
      return;
    }
    if lsKey !in k8s.lokiStacks {
      err := Some(NotFound(LokiStackKind, lsKey));
      return;
    }
    var ls := k8s.lokiStacks[lsKey];
    res := res.(managedStack := res.managedStack.(storage := res.managedStack.storage.(lokiStack := Some(ls))));

    var key := ObjectKey(ls.key.namespace, ls.storageSecretName);
    if key !in k8s.secrets {
      err := Some(NotFound(SecretKind, key));
      return;
    }
    res := res.(managedStack := res.managedStack.(storage := res.managedStack.storage.(objStorageSecret := k8s.secrets[key])));

    key := ObjectKey(mcAddon.namespace, c.managedStorageMTLSSecretName);
    if key !in k8s.secrets {
      err := Some(NotFound(SecretKind, key));
      return;
    }
    res := res.(managedStack := res.managedStack.(storage := res.managedStack.storage.(mtlsSecret := k8s.secrets[key])));

    if k8s.listFails {
      err := Some(ListFailed);
      return;
    }
    var tenants := CollectTenants(k8s.addOns, c.addonName, mcAddon.namespace);
    res := res.(managedStack := res.managedStack.(storage := res.managedStack.storage.(tenants := tenants)));
  }

  /** A successful managed phase uses the first reference whose name carries
      the default-stack prefix: the forwarder on a spoke, the LokiStack on
      the hub. */
  lemma ManagedUsesFirstDefaultReference(c: Constants, k8s: Cluster, mcAddon: ManagedClusterAddOn, opts: Options, res: Options, err: Option<Error>)
    requires ManagedOutcome(c, k8s, mcAddon, opts, res, err)
    requires opts.topology.managedStackEnabled && err.None?
    ensures !opts.isHubCluster ==>
              exists i :: FirstPrefixed(mcAddon.forwarderKeys, c.defaultStackPrefix, i)
                          && mcAddon.forwarderKeys[i] in k8s.forwarders
                          && res.managedStack.collection.forwarder == Some(k8s.forwarders[mcAddon.forwarderKeys[i]])
    ensures opts.isHubCluster ==>
              exists i :: FirstPrefixed(mcAddon.lokiStackKeys, c.defaultStackPrefix, i)
                          && mcAddon.lokiStackKeys[i] in k8s.lokiStacks
                          && res.managedStack.storage.lokiStack == Some(k8s.lokiStacks[mcAddon.lokiStackKeys[i]])
  {
    var keys := if opts.isHubCluster then mcAddon.lokiStackKeys else mcAddon.forwarderKeys;
    DefaultKeyIsFirstPrefixed(keys, c.defaultStackPrefix);
  }

  /** A managed phase whose references carry no name with the default-stack
      prefix fails with the missing-default error of its side, whatever the
      store holds. */
  lemma ManagedMissingDefaultReference(c: Constants, k8s: Cluster, mcAddon: ManagedClusterAddOn, opts: Options, res: Options, err: Option<Error>)
    requires ManagedOutcome(c, k8s, mcAddon, opts, res, err)
    requires opts.topology.managedStackEnabled
    ensures !opts.isHubCluster && (forall i :: 0 <= i < |mcAddon.forwarderKeys| ==> !HasPrefix(mcAddon.forwarderKeys[i].name, c.defaultStackPrefix))
            ==> err == Some(MissingDefaultCLFRef) && res == opts
    ensures opts.isHubCluster && (forall i :: 0 <= i < |mcAddon.lokiStackKeys| ==> !HasPrefix(mcAddon.lokiStackKeys[i].name, c.defaultStackPrefix))
            ==> err == Some(MissingDefaultLSRef) && res == opts
  {
    DefaultKeyIsFirstPrefixed(mcAddon.forwarderKeys, c.defaultStackPrefix);
    DefaultKeyIsFirstPrefixed(mcAddon.lokiStackKeys, c.defaultStackPrefix);
  }

  /** On a successful spoke, the hub URL names the hub host and carries the
      cluster's namespace as its tenant segment. */
  lemma SpokeURLNamesTenant(c: Constants, k8s: Cluster, mcAddon: ManagedClusterAddOn, opts: Options, res: Options, err: Option<Error>)
    requires ManagedOutcome(c, k8s, mcAddon, opts, res, err)
    requires opts.topology.managedStackEnabled && !opts.isHubCluster && err.None?
    ensures HasPrefix(res.managedStack.lokiURL, LokiURLHead + opts.hubHostname + LokiURLPath)
    ensures |LokiURLHead + opts.hubHostname + LokiURLPath| + |LokiURLTail| <= |res.managedStack.lokiURL|
    ensures LokiURLTenant(res.managedStack.lokiURL, opts.hubHostname) == mcAddon.namespace
  {
  }

  /** On a successful hub, a namespace is a tenant exactly when some listed
      installation of this addon lives there and it is not the hub's own. */
  lemma HubTenantsAreOtherInstallations(c: Constants, k8s: Cluster, mcAddon: ManagedClusterAddOn, opts: Options, res: Options, err: Option<Error>)
    requires ManagedOutcome(c, k8s, mcAddon, opts, res, err)
    requires opts.topology.managedStackEnabled && opts.isHubCluster && err.None?
    ensures forall t :: t in res.managedStack.storage.tenants <==>
              exists i :: 0 <= i < |k8s.addOns| && k8s.addOns[i].name == c.addonName && k8s.addOns[i].namespace == t && t != mcAddon.namespace
  {
    forall t {
      TenantsMembership(k8s.addOns, c.addonName, mcAddon.namespace, t);
    }
  }

  // ---------------------------------------------------------------------
  // Certificates for the managed stack

  /** The certificates `createResourcesManaged` asks for: none outside the
      managed stack; on a spoke a client certificate whose organizational
      unit is the cluster's namespace (the gateway reads the tenant from
      it); on the hub a server certificate for the storage identity. */
  function DesiredCertificates(c: Constants, mcAddon: ManagedClusterAddOn, opts: Options): (certs: seq<Certificate>)
    ensures !opts.topology.managedStackEnabled ==> certs == []
    ensures opts.topology.managedStackEnabled ==> |certs| == 1 && certs[0].server == opts.isHubCluster
    ensures forall i :: 0 <= i < |certs| ==> certs[i].key.namespace == mcAddon.namespace
    ensures opts.topology.managedStackEnabled && !opts.isHubCluster ==>
              certs[0].config.organizationalUnits == [mcAddon.namespace]
              && certs[0].key.name == c.managedCollectionSecretName
    ensures opts.topology.managedStackEnabled && opts.isHubCluster ==>
              certs[0].config.organizationalUnits == []
              && certs[0].key.name == c.managedStorageMTLSSecretName
  {
    if !opts.topology.managedStackEnabled then []
    else
      (if !opts.isHubCluster then
         [BuildClientCertificate(ObjectKey(mcAddon.namespace, c.managedCollectionSecretName),
                                 CertificateConfig(c.managedCollectionCertCommonName, [mcAddon.namespace], [c.managedCollectionCertCommonName]))]
       else [])
      + (if opts.isHubCluster then
           [BuildServerCertificate(ObjectKey(mcAddon.namespace, c.managedStorageMTLSSecretName),
                                   CertificateConfig(c.managedStorageCertCommonName, [], [c.managedStorageCertCommonName]))]
         else [])
  }

  lemma {:induction false} ApplyWritesAppend(m: map<ObjectKey, Certificate>, certs: seq<Certificate>, cert: Certificate, rejected: set<ObjectKey>)
    ensures ApplyWrites(m, certs + [cert], rejected) == ApplyWrites(ApplyWrites(m, certs, rejected), [cert], rejected)
    decreases |certs|
  {
    if certs != [] {
      var m' := if certs[0].key in rejected then m else m[certs[0].key := certs[0]];
      assert (certs + [cert])[1..] == certs[1..] + [cert];
      ApplyWritesAppend(m', certs[1..], cert, rejected);
    } else {
      assert certs + [cert] == [cert];
    }
  }

  /** A write the store accepts and that no later write overrides is in the
      final map: one refused write does not stop the others. */
  lemma {:induction false} ApplyWritesKeepsAccepted(m: map<ObjectKey, Certificate>, certs: seq<Certificate>, rejected: set<ObjectKey>, i: int)
    requires 0 <= i < |certs| && certs[i].key !in rejected
    requires forall j :: i < j < |certs| ==> certs[j].key != certs[i].key
    ensures certs[i].key in ApplyWrites(m, certs, rejected) && ApplyWrites(m, certs, rejected)[certs[i].key] == certs[i]
    decreases |certs|
  {
    var m' := if certs[0].key in rejected then m else m[certs[0].key := certs[0]];
    if i == 0 {
      ApplyWritesUntouched(m', certs[1..], rejected, certs[0].key);
    } else {
      assert forall j :: i - 1 < j < |certs[1..]| ==> certs[1..][j] == certs[j + 1];
      ApplyWritesKeepsAccepted(m', certs[1..], rejected, i - 1);
    }
  }

  /** A key no write names keeps its entry. */
  lemma {:induction false} ApplyWritesUntouched(m: map<ObjectKey, Certificate>, certs: seq<Certificate>, rejected: set<ObjectKey>, k: ObjectKey)
    requires forall j :: 0 <= j < |certs| ==> certs[j].key != k
    ensures (k in ApplyWrites(m, certs, rejected) <==> k in m)
    ensures k in m ==> ApplyWrites(m, certs, rejected)[k] == m[k]
    decreases |certs|
  {
    if certs != [] {
      var m' := if certs[0].key in rejected then m else m[certs[0].key := certs[0]];
      assert forall j :: 0 <= j < |certs[1..]| ==> certs[1..][j] == certs[j + 1];
      ApplyWritesUntouched(m', certs[1..], rejected, k);
    }
  }

  /** `createResourcesManaged`: every desired certificate is written in
      turn; a refused write is skipped, not returned. */
  method CreateResourcesManaged(c: Constants, k8s: Cluster, mcAddon: ManagedClusterAddOn, opts: Options)
    modifies k8s`certificates
    ensures k8s.certificates == ApplyWrites(old(k8s.certificates), DesiredCertificates(c, mcAddon, opts), k8s.rejectedWrites)
  {
    var objects := DesiredCertificates(c, mcAddon, opts);
    var i := 0;
    while i < |objects|
      invariant 0 <= i <= |objects|
      invariant k8s.certificates == ApplyWrites(old(k8s.certificates), objects[..i], k8s.rejectedWrites)
    {
      ApplyWritesAppend(old(k8s.certificates), objects[..i], objects[i], k8s.rejectedWrites);
      assert objects[..i + 1] == objects[..i] + [objects[i]];
      var ok := k8s.CreateOrUpdate(objects[i]);
      if !ok {
        i := i + 1;
        continue;
      }
      i := i + 1;
    }
    assert objects[..i] == objects;
  }

  /** A desired certificate the store does not refuse is present afterwards. */
  lemma DesiredCertificateWritten(c: Constants, mcAddon: ManagedClusterAddOn, opts: Options, m: map<ObjectKey, Certificate>, rejected: set<ObjectKey>)
    requires opts.topology.managedStackEnabled
    ensures var cert := DesiredCertificates(c, mcAddon, opts)[0];
            cert.key !in rejected ==>
              cert.key in ApplyWrites(m, DesiredCertificates(c, mcAddon, opts), rejected)
              && ApplyWrites(m, DesiredCertificates(c, mcAddon, opts), rejected)[cert.key] == cert
  {
    var certs := DesiredCertificates(c, mcAddon, opts);
    if certs[0].key !in rejected {
      ApplyWritesKeepsAccepted(m, certs, rejected, 0);
    }
  }

  // ---------------------------------------------------------------------
  // Entry points

  /** The options both entry points start from: the audiences' log
      options, the cluster's role and the hub's host name. */
  function BaseOptions(platform: Addon.LogsOptions, userWorkloads: Addon.LogsOptions, isHubCluster: bool, hubHostname: string,
                       topology: Topology, subscriptionChannel: string): Options
  {
    Options(platform, userWorkloads, isHubCluster, hubHostname, subscriptionChannel, topology, ZeroUnmanaged, ZeroManagedStack)
  }

  /** The subscription channel is the platform's when it names one, and the
      user workloads' otherwise. */
  function SubscriptionChannel(platform: Addon.LogsOptions, userWorkloads: Addon.LogsOptions): (channel: string)
    ensures channel == platform.subscriptionChannel || channel == userWorkloads.subscriptionChannel
    ensures platform.subscriptionChannel != "" ==> channel == platform.subscriptionChannel
    ensures channel == "" <==> platform.subscriptionChannel == "" && userWorkloads.subscriptionChannel == ""
  {
    if platform.subscriptionChannel != "" then platform.subscriptionChannel else userWorkloads.subscriptionChannel
  }

  /** The options and error of `BuildOptions`: the unmanaged phase runs on
      the base options; its error, if any, is returned with its options;
      otherwise the managed phase runs on what it produced. */
  ghost predicate BuildOutcome(c: Constants, k8s: Cluster, mcAddon: ManagedClusterAddOn, platform: Addon.LogsOptions,
                               userWorkloads: Addon.LogsOptions, isHubCluster: bool, hubHostname: string, topology: Topology,
                               res: Options, err: Option<Error>, unmanaged: Options, unmanagedErr: Option<Error>,
                               secretChunks: seq<seq<string>>, configMapChunks: seq<seq<string>>)
    reads k8s
  {
    var base := BaseOptions(platform, userWorkloads, isHubCluster, hubHostname, topology, SubscriptionChannel(platform, userWorkloads));
    && UnmanagedOutcome(k8s, mcAddon, base, unmanaged, unmanagedErr, secretChunks, configMapChunks)
    && (unmanagedErr.Some? ==> res == unmanaged && err == unmanagedErr)
    && (unmanagedErr.None? ==> ManagedOutcome(c, k8s, mcAddon, unmanaged, res, err))
  }

  /** The fields both phases leave alone. */
  predicate SameBase(a: Options, b: Options)
  {
    && a.platform == b.platform && a.userWorkloads == b.userWorkloads
    && a.isHubCluster == b.isHubCluster && a.hubHostname == b.hubHostname
    && a.topology == b.topology && a.subscriptionChannel == b.subscriptionChannel
  }

  lemma UnmanagedKeepsBase(k8s: Cluster, mcAddon: ManagedClusterAddOn, opts: Options, res: Options, err: Option<Error>,
                           secretChunks: seq<seq<string>>, configMapChunks: seq<seq<string>>)
    requires UnmanagedOutcome(k8s, mcAddon, opts, res, err, secretChunks, configMapChunks)
    ensures SameBase(res, opts) && res.managedStack == opts.managedStack
  {
  }

  lemma ManagedKeepsBase(c: Constants, k8s: Cluster, mcAddon: ManagedClusterAddOn, opts: Options, res: Options, err: Option<Error>)
    requires ManagedOutcome(c, k8s, mcAddon, opts, res, err)
    ensures SameBase(res, opts) && res.unmanaged == opts.unmanaged
  {
    if opts.topology.managedStackEnabled {
      if opts.isHubCluster {
        assert HubOutcome(c, k8s, mcAddon, opts, res, err);
      } else {
        assert SpokeOutcome(c, k8s, mcAddon, opts, res, err);
      }
    }
  }

  /** Neither phase touches the audiences' options, the cluster's role, the
      hub host, the flags or the subscription channel chosen first. */
  lemma BuildKeepsBaseFields(c: Constants, k8s: Cluster, mcAddon: ManagedClusterAddOn, platform: Addon.LogsOptions,
                             userWorkloads: Addon.LogsOptions, isHubCluster: bool, hubHostname: string, topology: Topology,
                             res: Options, err: Option<Error>, unmanaged: Options, unmanagedErr: Option<Error>,
                             secretChunks: seq<seq<string>>, configMapChunks: seq<seq<string>>)
    requires BuildOutcome(c, k8s, mcAddon, platform, userWorkloads, isHubCluster, hubHostname, topology, res, err,
                          unmanaged, unmanagedErr, secretChunks, configMapChunks)
    ensures SameBase(res, BaseOptions(platform, userWorkloads, isHubCluster, hubHostname, topology, SubscriptionChannel(platform, userWorkloads)))
  {
    var base := BaseOptions(platform, userWorkloads, isHubCluster, hubHostname, topology, SubscriptionChannel(platform, userWorkloads));
    UnmanagedKeepsBase(k8s, mcAddon, base, unmanaged, unmanagedErr, secretChunks, configMapChunks);
    if unmanagedErr.None? {
      ManagedKeepsBase(c, k8s, mcAddon, unmanaged, res, err);
    }
  }

  /** With both flags off the build is the base options and no error. */
  lemma BuildWithNothingEnabled(c: Constants, k8s: Cluster, mcAddon: ManagedClusterAddOn, platform: Addon.LogsOptions,
                                userWorkloads: Addon.LogsOptions, isHubCluster: bool, hubHostname: string, topology: Topology,
                                res: Options, err: Option<Error>, unmanaged: Options, unmanagedErr: Option<Error>,
                                secretChunks: seq<seq<string>>, configMapChunks: seq<seq<string>>)
    requires BuildOutcome(c, k8s, mcAddon, platform, userWorkloads, isHubCluster, hubHostname, topology, res, err,
                          unmanaged, unmanagedErr, secretChunks, configMapChunks)
    requires !topology.managedStackEnabled && !topology.unmanagedCollectionEnabled
    ensures err.None?
    ensures res == BaseOptions(platform, userWorkloads, isHubCluster, hubHostname, topology, SubscriptionChannel(platform, userWorkloads))
  {
  }

  /** An unmanaged failure ends the build: the managed stack is left at its zero value. */
  lemma BuildStopsAtUnmanagedError(c: Constants, k8s: Cluster, mcAddon: ManagedClusterAddOn, platform: Addon.LogsOptions,
                                   userWorkloads: Addon.LogsOptions, isHubCluster: bool, hubHostname: string, topology: Topology,
                                   res: Options, err: Option<Error>, unmanaged: Options, unmanagedErr: Option<Error>,
                                   secretChunks: seq<seq<string>>, configMapChunks: seq<seq<string>>)
    requires BuildOutcome(c, k8s, mcAddon, platform, userWorkloads, isHubCluster, hubHostname, topology, res, err,
                          unmanaged, unmanagedErr, secretChunks, configMapChunks)
    requires unmanagedErr.Some?
    ensures err == unmanagedErr && res.managedStack == ZeroManagedStack
  {
  }

  /** `BuildOptions`: certificates first (their failures are not returned),
      then unmanaged collection, then the managed stack; the first error
      ends the build and is returned with the options built so far. */
  method BuildOptions(c: Constants, k8s: Cluster, mcAddon: ManagedClusterAddOn, platform: Addon.LogsOptions, userWorkloads: Addon.LogsOptions,
                      isHubCluster: bool, hubHostname: string, topology: Topology)
    returns (res: Options, err: Option<Error>,
             ghost unmanaged: Options, ghost unmanagedErr: Option<Error>,
             ghost secretChunks: seq<seq<string>>, ghost configMapChunks: seq<seq<string>>)
    requires UnmanagedDereferenceable(k8s, mcAddon, topology.unmanagedCollectionEnabled)
    modifies k8s`certificates
    ensures k8s.certificates ==
              ApplyWrites(old(k8s.certificates),
                          DesiredCertificates(c, mcAddon, BaseOptions(platform, userWorkloads, isHubCluster, hubHostname, topology,
                                                                      SubscriptionChannel(platform, userWorkloads))),
                          k8s.rejectedWrites)
    ensures BuildOutcome(c, k8s, mcAddon, platform, userWorkloads, isHubCluster, hubHostname, topology, res, err,
                         unmanaged, unmanagedErr, secretChunks, configMapChunks)
  {
    var opts := BaseOptions(platform, userWorkloads, isHubCluster, hubHostname, topology, "");
    if platform.subscriptionChannel != "" {
      opts := opts.(subscriptionChannel := platform.subscriptionChannel);
    } else {
      opts := opts.(subscriptionChannel := userWorkloads.subscriptionChannel);
    }

    CreateResourcesManaged(c, k8s, mcAddon, opts);

    res, err, secretChunks, configMapChunks := UnmanagedBuildOptions(k8s, mcAddon, opts);
    unmanaged, unmanagedErr := res, err;
    if err.Some? {
      return;
    }

    res, err := ManagedBuildOptions(c, k8s, mcAddon, res);
  }

  /** The options `BuildDefaultOptions` starts from: the hub URL with the
      literal tenant "tenant", the collection secret named in the install
      namespace, both storage secrets named after the mTLS secret (the
      object-storage one in the install namespace, the mTLS one in the hub
      namespace).  No subscription channel is set. */
  function DefaultOptions(c: Constants, platform: Addon.LogsOptions, userWorkloads: Addon.LogsOptions, isHubCluster: bool,
                          hubHostname: string, topology: Topology): Options
  {
    BaseOptions(platform, userWorkloads, isHubCluster, hubHostname, topology, "").(
      managedStack := ManagedStack(
        LokiURL(hubHostname, "tenant"),
        ManagedCollection(None, [Secret(ObjectKey(c.installNamespace, c.managedCollectionSecretName), map[])]),
        Storage(None,
                Secret(ObjectKey(c.installNamespace, c.managedStorageMTLSSecretName), map[]),
                Secret(ObjectKey(c.hubNamespace, c.managedStorageMTLSSecretName), map[]),
                [])))
  }

  /** `BuildDefaultOptions`: the default options with the tenant list of the
      listed addon installations; a failed listing returns the defaults with
      the error. */
  method BuildDefaultOptions(c: Constants, k8s: Cluster, mcAddon: ManagedClusterAddOn, platform: Addon.LogsOptions, userWorkloads: Addon.LogsOptions,
                             isHubCluster: bool, hubHostname: string, topology: Topology)
    returns (res: Options, err: Option<Error>)
    ensures err.Some? <==> k8s.listFails
    ensures err.Some? ==> err == Some(ListFailed)
    ensures var defaults := DefaultOptions(c, platform, userWorkloads, isHubCluster, hubHostname, topology);
            res == defaults.(managedStack := defaults.managedStack.(storage := defaults.managedStack.storage.(
                               tenants := if k8s.listFails then [] else Tenants(k8s.addOns, c.addonName, mcAddon.namespace))))
    ensures LokiURLTenant(res.managedStack.lokiURL, hubHostname) == "tenant"
  {
    var opts := DefaultOptions(c, platform, userWorkloads, isHubCluster, hubHostname, topology);
    if k8s.listFails {
      return opts, Some(ListFailed);
    }
    var tenants := CollectTenants(k8s.addOns, c.addonName, mcAddon.namespace);
    res := opts.(managedStack := opts.managedStack.(storage := opts.managedStack.storage.(tenants := tenants)));
    err := None;
  }
}
