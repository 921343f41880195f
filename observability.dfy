/** The parts of the log-forwarder API (`observability/v1`) that the
    reference extractor reads.  Each Go pointer field that the extractor
    tests against nil is an `Option`; each field it dereferences without a
    test is a plain value.  Go's string-valued enumerations (OutputType,
    CloudwatchAuthType, BearerTokenFrom) stay strings, so that an
    unrecognised value reaches the extractor's default branches as in Go. */
module Observability {
  import opened Wrappers

  const OutputTypeCloudwatch: string := "cloudwatch"
  const OutputTypeGoogleCloudLogging: string := "googleCloudLogging"
  const OutputTypeAzureMonitor: string := "azureMonitor"
  const OutputTypeLoki: string := "loki"
  const OutputTypeLokiStack: string := "lokiStack"
  const OutputTypeElasticsearch: string := "elasticsearch"
  const OutputTypeHTTP: string := "http"
  const OutputTypeKafka: string := "kafka"
  const OutputTypeSplunk: string := "splunk"
  const OutputTypeOTLP: string := "otlp"
  /** An output type of the API that the extractor has no case for. */
  const OutputTypeSyslog: string := "syslog"

  const CloudwatchAuthTypeAccessKey: string := "awsAccessKey"
  const CloudwatchAuthTypeIAMRole: string := "iamRole"

  const BearerTokenFromSecret: string := "secret"
  const BearerTokenFromServiceAccount: string := "serviceAccount"

  /** A key in a named secret; only the secret's name matters here. */
  datatype SecretReference = SecretReference(secretName: string)

  /** A value held either in a secret or in a config map; an empty name
      means "not this one". */
  datatype ValueReference = ValueReference(secretName: string, configMapName: string)

  datatype TLSSpec = TLSSpec(
    certificate: Option<ValueReference>,
    key: Option<SecretReference>,
    ca: Option<ValueReference>,
    keyPassphrase: Option<SecretReference>)

  datatype BearerTokenSecretKey = BearerTokenSecretKey(name: string)

  datatype BearerToken = BearerToken(from: string, secret: Option<BearerTokenSecretKey>)

  datatype HTTPAuthentication = HTTPAuthentication(
    token: Option<BearerToken>,
    username: Option<SecretReference>,
    password: Option<SecretReference>)

  datatype CloudwatchAWSAccessKey = CloudwatchAWSAccessKey(keyId: SecretReference, keySecret: SecretReference)

  datatype CloudwatchIAMRole = CloudwatchIAMRole(roleARN: SecretReference, token: BearerToken)

  datatype CloudwatchAuthentication = CloudwatchAuthentication(
    authType: string,
    awsAccessKey: Option<CloudwatchAWSAccessKey>,
    iamRole: Option<CloudwatchIAMRole>)

  datatype Cloudwatch = Cloudwatch(authentication: Option<CloudwatchAuthentication>)

  datatype GoogleCloudLoggingAuthentication = GoogleCloudLoggingAuthentication(credentials: SecretReference)
  datatype GoogleCloudLogging = GoogleCloudLogging(authentication: Option<GoogleCloudLoggingAuthentication>)

  datatype AzureMonitorAuthentication = AzureMonitorAuthentication(sharedKey: SecretReference)
  datatype AzureMonitor = AzureMonitor(authentication: Option<AzureMonitorAuthentication>)

  /** The block of the Loki, Elasticsearch, HTTP and OTLP outputs: all four
      carry an optional HTTP authentication and nothing else the extractor reads. */
  datatype HTTPAuthenticated = HTTPAuthenticated(authentication: Option<HTTPAuthentication>)

  datatype LokiStackAuthentication = LokiStackAuthentication(token: Option<BearerToken>)
  datatype LokiStack = LokiStack(authentication: Option<LokiStackAuthentication>)

  datatype SASLAuthentication = SASLAuthentication(username: Option<SecretReference>, password: Option<SecretReference>)
  datatype KafkaAuthentication = KafkaAuthentication(sasl: Option<SASLAuthentication>)
  datatype Kafka = Kafka(authentication: Option<KafkaAuthentication>)

  datatype SplunkAuthentication = SplunkAuthentication(token: Option<SecretReference>)
  datatype Splunk = Splunk(authentication: Option<SplunkAuthentication>)

  /** One output of a ClusterLogForwarder: a name, a type, an optional TLS
      block and one optional block per output type. */
  datatype Output = Output(
    name: string,
    outputType: string,
    tls: Option<TLSSpec>,
    cloudwatch: Option<Cloudwatch>,
    googleCloudLogging: Option<GoogleCloudLogging>,
    azureMonitor: Option<AzureMonitor>,
    loki: Option<HTTPAuthenticated>,
    lokiStack: Option<LokiStack>,
    elasticsearch: Option<HTTPAuthenticated>,
    http: Option<HTTPAuthenticated>,
    kafka: Option<Kafka>,
    splunk: Option<Splunk>,
    otlp: Option<HTTPAuthenticated>)

  /** An output with only a name and a type set. */
  function BareOutput(name: string, outputType: string): Output
  {
    Output(name, outputType, None, None, None, None, None, None, None, None, None, None, None)
  }
}
