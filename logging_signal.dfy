/** The logging signal: whether logging applies to a cluster, its initial
    state, and its options build. */
module LoggingSignal {
  import opened Wrappers
  import opened Errors
  import opened Kube
  import Addon
  import Handlers

  /** The signal's state: the two audiences' log options and what the
      options build fills in later. */
  datatype Logs = Logs(
    platform: Addon.LogsOptions,
    userWorkloads: Addon.LogsOptions,
    subscriptionChannel: string,
    clusterLogForwarder: Option<ClusterLogForwarder>,
    secrets: seq<Secret>,
    configMaps: seq<ConfigMap>)

  /** `NewLogs`: the audiences' log options, everything else at its zero value. */
  function NewLogs(opts: Addon.Options): (l: Logs)
    ensures l.platform == opts.platform.logs && l.userWorkloads == opts.userWorkloads.logs
    ensures l.subscriptionChannel == "" && l.clusterLogForwarder == None && l.secrets == [] && l.configMaps == []
  {
    Logs(opts.platform.logs, opts.userWorkloads.logs, "", None, [], [])
  }

  /** `SupportedConfiguration`, with the hub test of the cluster given as
      `hub`: never on the hub, and only when some audience collects logs. */
  function SupportedConfiguration(opts: Addon.Options, hub: bool): (supported: bool)
    ensures supported <==> !hub && (opts.platform.logs.collectionEnabled || opts.userWorkloads.logs.collectionEnabled)
  {
    if hub then false
    else if !opts.platform.logs.collectionEnabled && !opts.userWorkloads.logs.collectionEnabled then false
    else true
  }

  /** A supported configuration is one whose new signal state has some
      audience collecting logs, off the hub. */
  lemma SupportedIffNewLogsCollects(opts: Addon.Options, hub: bool)
    ensures SupportedConfiguration(opts, hub) <==>
              !hub && (NewLogs(opts).platform.collectionEnabled || NewLogs(opts).userWorkloads.collectionEnabled)
  {
  }

  /** `logs.BuildOptions`: the handler's options on success, no options and
      the handler's error otherwise; the handler's certificate writes are
      made either way. */
  method BuildOptions(l: Logs, c: Handlers.Constants, k8s: Cluster, mcAddon: ManagedClusterAddOn,
                      isHubCluster: bool, hubHostname: string, topology: Handlers.Topology)
    returns (opts: Option<Handlers.Options>, err: Option<Error>,
             ghost handlerRes: Handlers.Options, ghost unmanaged: Handlers.Options, ghost unmanagedErr: Option<Error>,
             ghost secretChunks: seq<seq<string>>, ghost configMapChunks: seq<seq<string>>)
    requires Handlers.UnmanagedDereferenceable(k8s, mcAddon, topology.unmanagedCollectionEnabled)
    modifies k8s`certificates
    ensures k8s.certificates ==
              ApplyWrites(old(k8s.certificates),
                          Handlers.DesiredCertificates(c, mcAddon, Handlers.BaseOptions(l.platform, l.userWorkloads, isHubCluster, hubHostname, topology,
                                                                                        Handlers.SubscriptionChannel(l.platform, l.userWorkloads))),
                          k8s.rejectedWrites)
    ensures Handlers.BuildOutcome(c, k8s, mcAddon, l.platform, l.userWorkloads, isHubCluster, hubHostname, topology,
                                  handlerRes, err, unmanaged, unmanagedErr, secretChunks, configMapChunks)
    ensures err.Some? ==> opts.None?
    ensures err.None? ==> opts == Some(handlerRes)
  {
    var loggingOpts, handlerErr;
    loggingOpts, handlerErr, unmanaged, unmanagedErr, secretChunks, configMapChunks :=
      Handlers.BuildOptions(c, k8s, mcAddon, l.platform, l.userWorkloads, isHubCluster, hubHostname, topology);
    handlerRes := loggingOpts;
    if handlerErr.Some? {
      return None, handlerErr, handlerRes, unmanaged, unmanagedErr, secretChunks, configMapChunks;
    }
    opts, err := Some(loggingOpts), None;
  }
}
