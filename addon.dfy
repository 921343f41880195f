/** The addon-level options the resolver and the value builder read: per
    audience (platform, user workloads) whether it is enabled and how its
    logs and traces are collected. */
module Addon {

  datatype LogsOptions = LogsOptions(collectionEnabled: bool, subscriptionChannel: string)

  datatype TracesOptions = TracesOptions(collectionEnabled: bool)

  datatype AudienceOptions = AudienceOptions(enabled: bool, logs: LogsOptions, traces: TracesOptions)

  datatype Options = Options(platform: AudienceOptions, userWorkloads: AudienceOptions)
}
