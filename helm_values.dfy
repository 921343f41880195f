/** The addon's Helm values function: which signals get values for one
    managed cluster, and when empty values come back. */
module HelmValues {
  import opened Wrappers
  import opened Errors
  import Addon

  /** The label that marks the hub's own cluster. */
  const AnnotationLocalCluster: string := "local-cluster"

  datatype ManagedCluster = ManagedCluster(labels: map<string, string>)

  /** The rendered values of each signal; their contents come from value
      builders outside this model. */
  datatype LoggingValues = LoggingValues(fields: map<string, string>)
  datatype TracingValues = TracingValues(fields: map<string, string>)

  const ZeroLogging: LoggingValues := LoggingValues(map[])
  const ZeroTracing: TracingValues := TracingValues(map[])

  datatype HelmChartValues = HelmChartValues(enabled: bool, logging: LoggingValues, tracing: TracingValues)

  /** Go's `HelmChartValues{}`. */
  const EmptyValues: HelmChartValues := HelmChartValues(false, ZeroLogging, ZeroTracing)

  /** `isHubCluster`. */
  function IsHubCluster(cluster: ManagedCluster): (hub: bool)
    ensures hub <==> AnnotationLocalCluster in cluster.labels && cluster.labels[AnnotationLocalCluster] == "true"
  {
    if AnnotationLocalCluster !in cluster.labels then false
    else cluster.labels[AnnotationLocalCluster] == "true"
  }

  /** Only the local-cluster label matters: setting it decides the answer,
      and any other label leaves it as it was. */
  lemma IsHubClusterOnlyReadsItsLabel(labels: map<string, string>, k: string, v: string)
    ensures IsHubCluster(ManagedCluster(labels[AnnotationLocalCluster := v])) <==> v == "true"
    ensures k != AnnotationLocalCluster ==>
              IsHubCluster(ManagedCluster(labels[k := v])) == IsHubCluster(ManagedCluster(labels))
  {
  }

  /** The collaborators `GetValuesFunc` calls, each reduced to its outcome
      for this cluster: reading the deployment config, building the addon
      options, and building options and values for logging and for tracing. */
  datatype Collaborators = Collaborators(
    deploymentConfig: Option<Error>,
    addonOptions: Result<Addon.Options, Error>,
    loggingOptions: Option<Error>,
    loggingValues: Result<LoggingValues, Error>,
    tracingOptions: Option<Error>,
    tracingValues: Result<TracingValues, Error>)

  datatype Step =
    | FetchDeploymentConfig
    | BuildAddonOptions
    | BuildLoggingOptions
    | BuildLoggingValues
    | BuildTracingOptions
    | BuildTracingValues

  predicate LogsWanted(opts: Addon.Options)
  {
    opts.platform.logs.collectionEnabled || opts.userWorkloads.logs.collectionEnabled
  }

  predicate TracesWanted(opts: Addon.Options)
  {
    opts.userWorkloads.traces.collectionEnabled
  }

  /** The logging stage succeeds (or is not needed). */
  predicate LoggingOk(co: Collaborators, opts: Addon.Options)
  {
    LogsWanted(opts) ==> co.loggingOptions.None? && co.loggingValues.Success?
  }

  predicate TracingOk(co: Collaborators, opts: Addon.Options)
  {
    TracesWanted(opts) ==> co.tracingOptions.None? && co.tracingValues.Success?
  }

  /** `GetValuesFunc`'s closure for one cluster.  `steps` records the
      collaborators called, in order. */
  method GetValues(cluster: ManagedCluster, co: Collaborators) returns (values: Result<HelmChartValues, Error>, ghost steps: seq<Step>)
    // The values returned, branch by branch.
    ensures IsHubCluster(cluster) ==> values == Success(EmptyValues)
    ensures !IsHubCluster(cluster) && co.deploymentConfig.Some? ==> values == Failure(co.deploymentConfig.value)
    ensures !IsHubCluster(cluster) && co.deploymentConfig.None? && co.addonOptions.Failure? ==>
              values == Failure(co.addonOptions.error)
    ensures !IsHubCluster(cluster) && co.deploymentConfig.None? && co.addonOptions.Success? ==>
              var opts := co.addonOptions.value;
              && (!opts.platform.enabled && !opts.userWorkloads.enabled ==> values == Success(EmptyValues))
              && (opts.platform.enabled || opts.userWorkloads.enabled ==>
                    && (values.Success? <==> LoggingOk(co, opts) && TracingOk(co, opts))
                    && (values.Success? ==>
                          values.value == HelmChartValues(true,
                                                          if LogsWanted(opts) then co.loggingValues.value else ZeroLogging,
                                                          if TracesWanted(opts) then co.tracingValues.value else ZeroTracing))
                    && (!LoggingOk(co, opts) ==> values == Failure(if co.loggingOptions.Some? then co.loggingOptions.value
                                                                   else co.loggingValues.error))
                    && (LoggingOk(co, opts) && !TracingOk(co, opts) ==>
                          values == Failure(if co.tracingOptions.Some? then co.tracingOptions.value else co.tracingValues.error)))
    // The collaborators called: none on the hub, the builders of a signal
    // only when that signal is wanted.
    ensures IsHubCluster(cluster) ==> steps == []
    ensures !IsHubCluster(cluster) && co.deploymentConfig.Some? ==> steps == [FetchDeploymentConfig]
    ensures !IsHubCluster(cluster) && co.deploymentConfig.None? && co.addonOptions.Failure? ==>
              steps == [FetchDeploymentConfig, BuildAddonOptions]
    ensures !IsHubCluster(cluster) && co.deploymentConfig.None? && co.addonOptions.Success? ==>
              var opts := co.addonOptions.value;
              && |steps| >= 2 && steps[..2] == [FetchDeploymentConfig, BuildAddonOptions]
              && (!opts.platform.enabled && !opts.userWorkloads.enabled ==> |steps| == 2)
              && (opts.platform.enabled || opts.userWorkloads.enabled ==>
                    && (BuildLoggingOptions in steps <==> LogsWanted(opts))
                    && (BuildTracingOptions in steps <==> TracesWanted(opts) && LoggingOk(co, opts)))
  {
    steps := [];
    if IsHubCluster(cluster) {
      return Success(EmptyValues), steps;
    }

    steps := steps + [FetchDeploymentConfig];
    if co.deploymentConfig.Some? {
      return Failure(co.deploymentConfig.value), steps;
    }
    steps := steps + [BuildAddonOptions];
    if co.addonOptions.Failure? {
      return Failure(co.addonOptions.error), steps;
    }
    var opts := co.addonOptions.value;

    if !opts.platform.enabled && !opts.userWorkloads.enabled {
      return Success(EmptyValues), steps;
    }

    var userValues := HelmChartValues(true, ZeroLogging, ZeroTracing);

    if opts.platform.logs.collectionEnabled || opts.userWorkloads.logs.collectionEnabled {
      steps := steps + [BuildLoggingOptions];
      if co.loggingOptions.Some? {
        return Failure(co.loggingOptions.value), steps;
      }
      steps := steps + [BuildLoggingValues];
      if co.loggingValues.Failure? {
        return Failure(co.loggingValues.error), steps;
      }
      userValues := userValues.(logging := co.loggingValues.value);
    }

    if opts.userWorkloads.traces.collectionEnabled {
      steps := steps + [BuildTracingOptions];
      if co.tracingOptions.Some? {
        return Failure(co.tracingOptions.value), steps;
      }
      steps := steps + [BuildTracingValues];
      if co.tracingValues.Failure? {
        return Failure(co.tracingValues.error), steps;
      }
      userValues := userValues.(tracing := co.tracingValues.value);
    }

    values := Success(userValues);
  }
}
