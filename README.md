# Logging options resolver of the multicluster observability addon

This project models the part of the multicluster observability addon that
decides which Kubernetes resources the logging signal needs for one managed
cluster. It is written in Dafny and proves properties of the model.

- **Reference extractor.** `getOutputResourcesNames` takes one output of a
  ClusterLogForwarder (Cloudwatch, Google Cloud Logging, Azure Monitor,
  Loki, LokiStack, Elasticsearch, HTTP, Kafka, Splunk, OTLP). It returns
  the secret names and config-map names that output refers to, or the
  validation error that rejects it.
- **Topology resolver.** `BuildOptions`:
  - picks the subscription channel;
  - provisions the managed-stack certificates;
  - resolves unmanaged collection (one user-supplied forwarder, plus the
    secrets and config maps its outputs name);
  - resolves the managed stack: on a spoke, the default forwarder, the
    collection secret and the hub URL; on the hub, the default LokiStack,
    its storage and mTLS secrets, and the tenant list.

  `BuildDefaultOptions` builds the default options and the tenant list.
- **Gating predicates.**
  - `isHubCluster` and the branch structure of the Helm values function.
  - The logging signal's `SupportedConfiguration`, `NewLogs` and its
    `BuildOptions` error pass-through.

## Modules

| file | module | models |
|---|---|---|
| `wrappers.dfy` | `Wrappers` | `Option` (nil pointers) and `Result` |
| `slices.dfy` | `Slices` | string order; ranging over a Go map (`SetToSeq`); `slices.Sort` (`SortStrings`) |
| `observability.dfy` | `Observability` | the log-forwarder output declarations the extractor reads |
| `errors.dfy` | `Errors` | the resolver's error values |
| `kube.dfy` | `Kube` | object keys and objects, and the resource store as a `Cluster` class |
| `addon.dfy` | `Addon` | the addon's per-audience options |
| `output_resources.dfy` | `OutputResources` | `getOutputResourcesNames` and its helpers |
| `handlers.dfy` | `Handlers` | the rest of `internal/logging/handlers/handler.go` |
| `helm_values.dfy` | `HelmValues` | `internal/addon/helm/values.go` |
| `logging_signal.dfy` | `LoggingSignal` | `internal/logging/signal.go` |

## Modelling choices

- **Go string enums** (output type, Cloudwatch auth type, bearer-token
  source) stay strings with named constants. An unknown value then reaches
  the `default` branch (or the missing default) just as in Go.
- **Constant values** are those of the ClusterLogForwarder observability/v1
  API. The constants of other packages are a `Handlers.Constants`
  parameter: the addon name, the default-stack prefix, the namespaces, and
  the managed secret and certificate names.
- **Topology flags.** `ManagedStackEnabled()` and
  `UnmanagedCollectionEnabled()` are not part of this model. Their values
  are the `Handlers.Topology` fields of the options.
- **Resource store.** The store is a `Kube.Cluster` object:
  - `Get` of an absent key fails with `NotFound`;
  - listing the addon installations fails when `listFails` is set;
  - a certificate create-or-update is refused exactly for the keys in
    `rejectedWrites`.

  `addon.GetObjectKeys` is not part of this model. The config-reference
  keys it returns per kind are fields of `Kube.ManagedClusterAddOn`.
  `addon.GetSecrets` and `addon.GetConfigMaps` are not part of this model
  either. The model assumes they look up each name, in order, in the
  forwarder's namespace, and that the first absent name fails the fetch
  (`Handlers.FetchAll`).
- **Unordered results.** The secret-name order of the extractor comes from
  ranging over a Go map, so it is arbitrary. `SetToSeq` only promises
  each element once. Lemmas about the unmanaged path therefore speak of
  the per-output lists through ghost outputs.
- **Two behaviours are kept as the code has them:**
  - Names are not de-duplicated across outputs (handler.go:317-318).
  - The options built before an error are returned together with it
    (handler.go:108-117).

## Model

| member | source | states |
|---|---|---|
| `Slices.SetToSeq` | internal/logging/handlers/handler.go:516-523 | ranging over a set-like map yields each key exactly once and nothing else |
| `Slices.SortStrings` | internal/logging/handlers/handler.go:524-526 | the result is sorted ascending and a permutation of the input; with distinct inputs it is strictly ascending |
| `Slices.StrictlySortedUnique` | internal/logging/handlers/handler.go:524-526 | two strictly ascending lists with the same elements are equal, so the config-map output is deterministic |
| `OutputResources.AddTokenSecretNames` | internal/logging/handlers/handler.go:340-349 | a token read from a secret adds exactly that secret's name; a service-account token (or any other source) adds nothing |
| `OutputResources.AddHTTPAuthenticationSecretNames` | internal/logging/handlers/handler.go:351-361 | adds the token's secret (if read from a secret), the username secret and the password secret, each only when set, and nothing else |
| `OutputResources.AddTLSNames` | internal/logging/handlers/handler.go:363-392 | no TLS block adds nothing; otherwise the secrets are the certificate and CA secret names when non-empty and the key and key-passphrase names whenever those are set, even when empty, and the config maps are the certificate and CA config-map names when non-empty |
| `OutputResources.AddAuthenticationSecretNames` | internal/logging/handlers/handler.go:393-514 | the type switch fails with the layered validation error (unknown type, type block, authentication, SASL, access key); otherwise it adds exactly the type's authentication secrets |
| `OutputResources.GetOutputResourcesNames` | internal/logging/handlers/handler.go:336-528 | on error both lists are empty even if TLS names were collected; on success the secret names are duplicate-free and are exactly the TLS and authentication secrets, and the config-map names are strictly ascending and are exactly the TLS certificate/CA config maps |
| `OutputResources.ValidationErrors` | internal/logging/handlers/handler.go:393-514 | missing-implementation happens exactly for types without a case; every error is missing-implementation or missing-field and names the output; a nil type block or nil authentication is a missing field |
| `OutputResources.ValidOutputsAccepted` | internal/logging/handlers/handler.go:393-514 | a known type with its block, its authentication, Kafka's SASL and Cloudwatch's access key present is accepted |
| `OutputResources.CloudwatchOtherAuthTypeNamesNothing` | internal/logging/handlers/handler.go:401-414 | a Cloudwatch auth type other than AccessKey or IAMRole is accepted and adds no secret beyond the TLS ones |
| `OutputResources.TLSEmptyNameOnlyFromKeyOrPassphrase` | internal/logging/handlers/handler.go:363-392 | the empty secret name is referenced exactly when the TLS key or key passphrase has it; certificate and CA skip empty names; no empty config-map name |
| `OutputResources.LokiAppLogsNames` | internal/logging/helm_test.go:153-177 | the Loki output with a token from "static-authentication" and CA config map "foo" gives (["static-authentication"], ["foo"]) |
| `OutputResources.CloudwatchClusterLogsNames` | internal/logging/helm_test.go:178-196 | a Cloudwatch access key whose id and secret share one secret gives that name once and no config maps |
| `OutputResources.SyslogOutputNames` | internal/logging/handlers/handler.go:512-513 | an output of a type without a case fails with missing-implementation naming type and output, and its TLS names are dropped |
| `Handlers.FetchAll` | internal/logging/handlers/handler.go:321-331 | the fetch succeeds exactly when every name is present in the namespace, returning the objects in name order; otherwise it fails with the first absent key as not-found |
| `Handlers.FirstOutputErrorIsFirst` | internal/logging/handlers/handler.go:312-316 | the loop's error is absent exactly when every output is accepted, and is otherwise the error of the first rejected output |
| `Handlers.FlattenElements` | internal/logging/handlers/handler.go:317-318 | a name is in the concatenated list exactly when some output's list holds it |
| `Handlers.CollectOutputNames` | internal/logging/handlers/handler.go:310-319 | the first rejected output aborts with its error; otherwise each output's lists are the extractor's and the totals are their concatenation in output order |
| `Handlers.LokiAppLogsLists` | internal/logging/helm_test.go:153-177 | any duplicate-free secret list and strictly sorted config-map list with the extractor's elements for the test's Loki output are (["static-authentication"], ["foo"]) |
| `Handlers.SameSecretFromTwoOutputsListedTwice` | internal/logging/handlers/handler.go:317-318 | two outputs naming the same secret and config map list each twice: no merging across outputs |
| `Handlers.UnmanagedBuildOptions` | internal/logging/handlers/handler.go:292-334 | disabled: options unchanged; zero or several forwarder references: missing/multiple reference errors; otherwise forwarder, output validation, secrets then config maps from the forwarder's namespace, each stage's error returned with the options written so far |
| `Handlers.UnmanagedSuccessFetchesReferencedNames` | internal/logging/handlers/handler.go:306-331 | on success the one referenced forwarder is recorded; the i-th recorded secret (config map) is the store's object of that name in the forwarder's namespace, for the i-th name of the output-ordered list; a name is in that list exactly when some output references it |
| `Handlers.LokiURL` | internal/logging/handlers/handler.go:219 | the hub URL (the same format as the default at handler.go:45) starts with the hub host and the logs API path, ends with the OTLP logs path, and its tenant segment reads back as the tenant given |
| `Handlers.DefaultKeyIsFirstPrefixed` | internal/logging/handlers/handler.go:190-196 | the selected key is the zero key when no name carries the prefix and otherwise the first key whose name does |
| `Handlers.DefaultKeyMissing` | internal/logging/handlers/handler.go:197-199 | with a non-empty prefix, the selected name is empty exactly when no key carries the prefix |
| `Handlers.SelectDefaultKey` | internal/logging/handlers/handler.go:190-196 | the loop with early exit selects the key of the specification above |
| `Handlers.TenantsMembership` | internal/logging/handlers/handler.go:276-284 | a namespace is a tenant exactly when a listed installation of the addon sits there and it is not the requester's |
| `Handlers.SelfIsNoTenant` | internal/logging/handlers/handler.go:276-284 | the requester's namespace is never a tenant |
| `Handlers.CollectTenants` | internal/logging/handlers/handler.go:276-283 | the filtering loop keeps the matching namespaces in listing order |
| `Handlers.ManagedBuildOptions` | internal/logging/handlers/handler.go:179-290 | the spoke and hub chains of lookups, each failure (missing default reference, not found, list failure) returned with the options written so far; on success the spoke gets forwarder, collection secret and URL, the hub gets LokiStack, object-storage and mTLS secrets and tenants |
| `Handlers.ManagedUsesFirstDefaultReference` | internal/logging/handlers/handler.go:186-211 | a successful managed phase uses the first default-prefixed forwarder (spoke) or LokiStack (hub) reference |
| `Handlers.ManagedMissingDefaultReference` | internal/logging/handlers/handler.go:186-199 | for any prefix, with no prefixed reference the spoke fails with the missing default forwarder error and the hub with the missing default LokiStack error (handler.go:226-239 for the hub), options unchanged |
| `Handlers.SpokeURLNamesTenant` | internal/logging/handlers/handler.go:219 | on a successful spoke the URL names the hub host and carries the cluster's namespace as tenant |
| `Handlers.HubTenantsAreOtherInstallations` | internal/logging/handlers/handler.go:276-284 | on a successful hub the tenants are exactly the other namespaces with an installation of the addon |
| `Handlers.DesiredCertificates` | internal/logging/handlers/handler.go:127-157 | no certificate outside the managed stack; one certificate in the cluster's namespace otherwise: a client certificate with the namespace as organizational unit on a spoke, a server certificate for the storage identity on the hub |
| `Handlers.ApplyWritesAppend` | internal/logging/handlers/handler.go:159-176 | writing a list and then one more certificate is writing the extended list |
| `Handlers.ApplyWritesKeepsAccepted` | internal/logging/handlers/handler.go:163-167 | an accepted write not overridden later is in the store afterwards, whatever writes were refused |
| `Handlers.ApplyWritesUntouched` | internal/logging/handlers/handler.go:159-176 | a key no write names keeps its entry |
| `Handlers.CreateResourcesManaged` | internal/logging/handlers/handler.go:122-177 | every desired certificate is written in turn; a refused write is skipped and the rest still happen |
| `Handlers.DesiredCertificateWritten` | internal/logging/handlers/handler.go:159-176 | in the managed stack the desired certificate is in the store afterwards unless the store refuses its key |
| `Handlers.SubscriptionChannel` | internal/logging/handlers/handler.go:101-105 | the channel is the platform's when non-empty, otherwise the user workloads'; it is empty only when both are |
| `Handlers.UnmanagedKeepsBase` | internal/logging/handlers/handler.go:292-334 | the unmanaged phase changes only the unmanaged collection |
| `Handlers.ManagedKeepsBase` | internal/logging/handlers/handler.go:179-290 | the managed phase changes only the managed stack |
| `Handlers.BuildOptions` | internal/logging/handlers/handler.go:93-120 | certificates first, then the unmanaged phase on the base options, then the managed phase; the first error ends the build with the options so far |
| `Handlers.BuildKeepsBaseFields` | internal/logging/handlers/handler.go:93-120 | the built options keep the audiences, role, hub host, flags and the chosen subscription channel |
| `Handlers.BuildWithNothingEnabled` | internal/logging/handlers/handler.go:93-120 | with both flags off the result is the base options and no error |
| `Handlers.BuildStopsAtUnmanagedError` | internal/logging/handlers/handler.go:111-113 | an unmanaged error is returned and the managed stack is never filled in |
| `Handlers.BuildDefaultOptions` | internal/logging/handlers/handler.go:38-91 | the default options with their URL for tenant "tenant", and the tenants of the listing; a failed listing returns the defaults with that error |
| `Kube.ApplyWrites` | internal/logging/handlers/handler.go:159-176 | writes only add keys named by accepted certificates and never touch a refused key |
| `Kube.Cluster.CreateOrUpdate` | internal/logging/handlers/handler.go:163-167 | one write succeeds exactly when its key is not refused, and then stores the certificate |
| `HelmValues.IsHubCluster` | internal/addon/helm/values.go:93-99 | true exactly when the "local-cluster" label is present and equals "true" |
| `HelmValues.IsHubClusterOnlyReadsItsLabel` | internal/addon/helm/values.go:93-99 | setting that label decides the answer; any other label leaves it unchanged |
| `HelmValues.GetValues` | internal/addon/helm/values.go:26-81 | hub: empty values before any call; config or addon-options failure: that error; no audience enabled: empty values; otherwise enabled values whose logging part is built exactly when some audience collects logs and whose tracing part exactly when user workloads collect traces, the first failing builder's error aborting |
| `LoggingSignal.NewLogs` | internal/logging/signal.go:25-30 | copies the two audiences' log options and leaves every other field at its zero value |
| `LoggingSignal.SupportedConfiguration` | internal/logging/signal.go:32-42 | supported exactly off the hub when platform or user-workload log collection is enabled |
| `LoggingSignal.SupportedIffNewLogsCollects` | internal/logging/signal.go:25-42 | a configuration is supported exactly when its new signal state collects logs for some audience, off the hub |
| `LoggingSignal.BuildOptions` | internal/logging/signal.go:44-50 | the handler's options on success; no options and the handler's error on failure; either way the certificates afterwards are the handler's desired certificates written over the old ones, refused keys kept |

## Left out

- Kubernetes client calls (`Get`, `List`, `ctrl.CreateOrUpdate`) are modelled only by their outcome on `Kube.Cluster`. Contexts and the mutate function are not modelled.
- `addon.GetSecrets` and `addon.GetConfigMaps` are modelled as `Handlers.FetchAll`. Copying the fetched objects into the cluster's namespace (their `mcAddon.Namespace` argument) is not modelled, because their bodies are not part of this model.
- `addon.GetObjectKeys` is not part of this model. Its result per kind is an input.
- `BuildClientCertificate` and `BuildServerCertificate` are total functions. Their error returns (handler.go:138-141, 151-154) are not modelled, because the cert-manager builders are outside this model.
- `Handlers.CreateResourcesManaged`: has no error output, because its only error returns come from those builders. `Handlers.BuildOptions` therefore has no branch for a certificate error.
- Logging through klog, and the operation message built from the create-or-update result, are left out: they are output only.
- Helm rendering and `addonfactory.JsonStructToValues` are left out, and so is its error. `HelmValues.GetValues` returns the values structure itself.
- `HelmValues.GetValues`: the deployment-config fetch, `addon.BuildOptions`, the logging and tracing option builders and the value builders are reduced to their outcome for this cluster (a `Collaborators` record). The mismatched argument lists in values.go:54 are not modelled: the repository is mid-refactor and that call does not match the handler's signature.
- `logs.BuildValues` (signal.go:52-54) has an empty body and is not modelled.
- `LoggingSignal.SupportedConfiguration`: takes the hub test's result as `hub`, because `addon.IsHubCluster` is not part of this model.
- `LoggingSignal.BuildOptions`: takes the hub flag, hub host name and topology as parameters. signal.go:45 passes only five arguments to a seven-parameter handler.
- `GetOutputResourcesNames`, `CollectOutputNames`: require that no nil pointer the source dereferences unchecked is reached. These are the IAM role in IAMRole mode (handler.go:411), the LokiStack token (handler.go:452), and the secret of a from-secret bearer token (handler.go:343). In Go those inputs panic.
- `UnmanagedBuildOptions`, `BuildOptions`, `LoggingSignal.BuildOptions`: require the same only of the outputs the handler reaches, and only when unmanaged collection is enabled and exactly one forwarder is referenced and found. In every other case the phase returns before reading any output (handler.go:293-306).
- The credentials of a Google Cloud Logging output and the shared key of an Azure Monitor output are read without a nil test (handler.go:423, 433), so they are modelled as plain values. The `observability/v1` API types, which would say whether they are pointers, are not part of this model.
- `SortStrings`: sorts into a new sequence. The source sorts a slice in place, and since nothing else holds that slice, no aliasing is lost.
- internal/logging/manifests/options.go is out of date relative to the handler. The `Handlers.Options` datatype is built from the fields the handler uses.
- The expected URL in internal/logging/helm_test.go:402 does not match the format at handler.go:219 and is not modelled.
- `BuildDefaultOptions`: names the object-storage secret after the mTLS secret (handler.go:59). This is kept as written and not corrected, because its intent cannot be read from the source.
- The tracing handler and its manifests are not part of this model.
