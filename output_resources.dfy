/** The reference extractor of the log-forwarder handler: for one output,
    the names of the secrets and config maps it refers to, or the error
    that makes it unusable. */
module OutputResources {
  import opened Wrappers
  import opened Slices
  import opened Observability
  import opened Errors

  const FieldAuthentication: string := "authentication"
  const FieldSASL: string := "sasl"

  /** The output types the extractor has a case for. */
  const KnownOutputTypes: set<string> := {
    OutputTypeCloudwatch, OutputTypeGoogleCloudLogging, OutputTypeAzureMonitor,
    OutputTypeLoki, OutputTypeLokiStack, OutputTypeElasticsearch, OutputTypeHTTP,
    OutputTypeKafka, OutputTypeSplunk, OutputTypeOTLP }

  // ---------------------------------------------------------------------
  // Inputs on which the extractor dereferences nil

  predicate TokenDereferenceable(t: BearerToken)
  {
    t.from == BearerTokenFromSecret ==> t.secret.Some?
  }

  predicate HTTPBlockDereferenceable(b: Option<HTTPAuthenticated>)
  {
    b.Some? && b.value.authentication.Some? && b.value.authentication.value.token.Some?
    ==> TokenDereferenceable(b.value.authentication.value.token.value)
  }

  /** The extractor reads a pointer without testing it in three places: the
      IAM role of a Cloudwatch output in IAMRole mode, the token of a
      LokiStack output, and the secret of a bearer token read "from secret".
      An output on which it would do so with a nil pointer (a Go panic) is
      outside its domain. */
  predicate Dereferenceable(o: Output)
  {
    && (o.outputType == OutputTypeCloudwatch && o.cloudwatch.Some? && o.cloudwatch.value.authentication.Some?
        && o.cloudwatch.value.authentication.value.authType == CloudwatchAuthTypeIAMRole
        ==> o.cloudwatch.value.authentication.value.iamRole.Some?
            && TokenDereferenceable(o.cloudwatch.value.authentication.value.iamRole.value.token))
    && (o.outputType == OutputTypeLokiStack && o.lokiStack.Some? && o.lokiStack.value.authentication.Some?
        ==> o.lokiStack.value.authentication.value.token.Some?
            && TokenDereferenceable(o.lokiStack.value.authentication.value.token.value))
    && (o.outputType == OutputTypeLoki ==> HTTPBlockDereferenceable(o.loki))
    && (o.outputType == OutputTypeElasticsearch ==> HTTPBlockDereferenceable(o.elasticsearch))
    && (o.outputType == OutputTypeHTTP ==> HTTPBlockDereferenceable(o.http))
    && (o.outputType == OutputTypeOTLP ==> HTTPBlockDereferenceable(o.otlp))
  }

  // ---------------------------------------------------------------------
  // Validation, stated layer by layer

  /** The block named by the output's type is set. */
  predicate HasTypeBlock(o: Output)
  {
    if o.outputType == OutputTypeCloudwatch then o.cloudwatch.Some?
    else if o.outputType == OutputTypeGoogleCloudLogging then o.googleCloudLogging.Some?
    else if o.outputType == OutputTypeAzureMonitor then o.azureMonitor.Some?
    else if o.outputType == OutputTypeLoki then o.loki.Some?
    else if o.outputType == OutputTypeLokiStack then o.lokiStack.Some?
    else if o.outputType == OutputTypeElasticsearch then o.elasticsearch.Some?
    else if o.outputType == OutputTypeHTTP then o.http.Some?
    else if o.outputType == OutputTypeKafka then o.kafka.Some?
    else if o.outputType == OutputTypeSplunk then o.splunk.Some?
    else if o.outputType == OutputTypeOTLP then o.otlp.Some?
    else false
  }

  /** That block's `Authentication` is set. */
  predicate HasAuthentication(o: Output)
    requires HasTypeBlock(o)
  {
    if o.outputType == OutputTypeCloudwatch then o.cloudwatch.value.authentication.Some?
    else if o.outputType == OutputTypeGoogleCloudLogging then o.googleCloudLogging.value.authentication.Some?
    else if o.outputType == OutputTypeAzureMonitor then o.azureMonitor.value.authentication.Some?
    else if o.outputType == OutputTypeLoki then o.loki.value.authentication.Some?
    else if o.outputType == OutputTypeLokiStack then o.lokiStack.value.authentication.Some?
    else if o.outputType == OutputTypeElasticsearch then o.elasticsearch.value.authentication.Some?
    else if o.outputType == OutputTypeHTTP then o.http.value.authentication.Some?
    else if o.outputType == OutputTypeKafka then o.kafka.value.authentication.Some?
    else if o.outputType == OutputTypeSplunk then o.splunk.value.authentication.Some?
    else o.otlp.value.authentication.Some?
  }

  /** The error an output is rejected with, if any: an unknown type first,
      then a missing type block, then a missing authentication, then the two
      type-specific mandatory blocks (Kafka's SASL, Cloudwatch's access key
      in AccessKey mode).  Every error names the output. */
  function OutputError(o: Output): Option<Error>
  {
    if o.outputType !in KnownOutputTypes then Some(MissingImplementation(o.outputType, o.name))
    else if !HasTypeBlock(o) then Some(MissingField(o.outputType, o.name))
    else if !HasAuthentication(o) then Some(MissingField(FieldAuthentication, o.name))
    else if o.outputType == OutputTypeKafka && o.kafka.value.authentication.value.sasl.None? then
      Some(MissingField(FieldSASL, o.name))
    else if o.outputType == OutputTypeCloudwatch
         && o.cloudwatch.value.authentication.value.authType == CloudwatchAuthTypeAccessKey
         && o.cloudwatch.value.authentication.value.awsAccessKey.None? then
      Some(MissingField(CloudwatchAuthTypeAccessKey, o.name))
    else None
  }

  // ---------------------------------------------------------------------
  // The names an accepted output refers to

  function OptionalSecret(r: Option<SecretReference>): set<string>
  {
    if r.Some? then {r.value.secretName} else {}
  }

  /** A token read from a secret names that secret; a service-account token,
      or a token of any other source, names none. */
  function TokenSecretNames(t: BearerToken): set<string>
    requires TokenDereferenceable(t)
  {
    if t.from == BearerTokenFromSecret then {t.secret.value.name} else {}
  }

  function HTTPAuthSecretNames(a: HTTPAuthentication): set<string>
    requires a.token.Some? ==> TokenDereferenceable(a.token.value)
  {
    (if a.token.Some? then TokenSecretNames(a.token.value) else {})
    + OptionalSecret(a.username) + OptionalSecret(a.password)
  }

  /** Secrets named by the TLS block: certificate and CA when their secret
      name is non-empty, key and key passphrase whenever they are set (an
      empty key name included). */
  function TLSSecretNames(tls: Option<TLSSpec>): set<string>
  {
    if tls.None? then {}
    else
      var t := tls.value;
      (if t.certificate.Some? && t.certificate.value.secretName != "" then {t.certificate.value.secretName} else {})
      + OptionalSecret(t.key)
      + (if t.ca.Some? && t.ca.value.secretName != "" then {t.ca.value.secretName} else {})
      + OptionalSecret(t.keyPassphrase)
  }

  /** Config maps named by the TLS block: certificate and CA, when non-empty. */
  function TLSConfigMapNames(tls: Option<TLSSpec>): set<string>
  {
    if tls.None? then {}
    else
      var t := tls.value;
      (if t.certificate.Some? && t.certificate.value.configMapName != "" then {t.certificate.value.configMapName} else {})
      + (if t.ca.Some? && t.ca.value.configMapName != "" then {t.ca.value.configMapName} else {})
  }

  /** Secrets named by the authentication of an accepted output, by type. */
  function AuthSecretNames(o: Output): set<string>
    requires OutputError(o).None? && Dereferenceable(o)
  {
    if o.outputType == OutputTypeCloudwatch then
      var a := o.cloudwatch.value.authentication.value;
      if a.authType == CloudwatchAuthTypeAccessKey then
        {a.awsAccessKey.value.keyId.secretName, a.awsAccessKey.value.keySecret.secretName}
      else if a.authType == CloudwatchAuthTypeIAMRole then
        {a.iamRole.value.roleARN.secretName} + TokenSecretNames(a.iamRole.value.token)
      else {}
    else if o.outputType == OutputTypeGoogleCloudLogging then
      {o.googleCloudLogging.value.authentication.value.credentials.secretName}
    else if o.outputType == OutputTypeAzureMonitor then
      {o.azureMonitor.value.authentication.value.sharedKey.secretName}
    else if o.outputType == OutputTypeLoki then HTTPAuthSecretNames(o.loki.value.authentication.value)
    else if o.outputType == OutputTypeLokiStack then TokenSecretNames(o.lokiStack.value.authentication.value.token.value)
    else if o.outputType == OutputTypeElasticsearch then HTTPAuthSecretNames(o.elasticsearch.value.authentication.value)
    else if o.outputType == OutputTypeHTTP then HTTPAuthSecretNames(o.http.value.authentication.value)
    else if o.outputType == OutputTypeKafka then
      var sasl := o.kafka.value.authentication.value.sasl.value;
      OptionalSecret(sasl.username) + OptionalSecret(sasl.password)
    else if o.outputType == OutputTypeSplunk then OptionalSecret(o.splunk.value.authentication.value.token)
    else HTTPAuthSecretNames(o.otlp.value.authentication.value)
  }

  function ReferencedSecretNames(o: Output): set<string>
    requires OutputError(o).None? && Dereferenceable(o)
  {
    TLSSecretNames(o.tls) + AuthSecretNames(o)
  }

  // ---------------------------------------------------------------------
  // The extractor

  /** `getSecretsFromTokenAuthentication`. */
  method AddTokenSecretNames(names: set<string>, token: BearerToken) returns (names': set<string>)
    requires TokenDereferenceable(token)
    ensures token.from == BearerTokenFromSecret ==> names' == names + {token.secret.value.name}
    ensures token.from != BearerTokenFromSecret ==> names' == names
  {
    names' := names;
    if token.from == BearerTokenFromSecret {
      names' := names' + {token.secret.value.name};
    } else if token.from == BearerTokenFromServiceAccount {
      // The token belongs to the service account: nothing to fetch.
    }
  }

  /** `getSecretsFromHTTPAuthentication`. */
  method AddHTTPAuthenticationSecretNames(names: set<string>, auth: HTTPAuthentication) returns (names': set<string>)
    requires auth.token.Some? ==> TokenDereferenceable(auth.token.value)
    ensures names <= names'
    ensures forall n :: n in names' - names ==>
      (auth.token.Some? && auth.token.value.from == BearerTokenFromSecret && n == auth.token.value.secret.value.name)
      || (auth.username.Some? && n == auth.username.value.secretName)
      || (auth.password.Some? && n == auth.password.value.secretName)
    ensures names' == names + HTTPAuthSecretNames(auth)
  {
    names' := names;
    if auth.token.Some? {
      names' := AddTokenSecretNames(names', auth.token.value);
    }
    if auth.username.Some? {
      names' := names' + {auth.username.value.secretName};
    }
    if auth.password.Some? {
      names' := names' + {auth.password.value.secretName};
    }
  }

  /** The type switch of `getOutputResourcesNames`: the per-type mandatory
      blocks, then the authentication's secret names added to `names`. */
  method AddAuthenticationSecretNames(names: set<string>, output: Output) returns (names': set<string>, err: Option<Error>)
    requires Dereferenceable(output)
    ensures err == OutputError(output)
    ensures err.None? ==> names' == names + AuthSecretNames(output)
  {
    var extractedSecretsNames := names;
    names', err := names, None;
    var name := output.name;
    if output.outputType == OutputTypeCloudwatch {
      if output.cloudwatch.None? {
        err := Some(MissingField(OutputTypeCloudwatch, name));
        return;
      }
      if output.cloudwatch.value.authentication.None? {
        err := Some(MissingField(FieldAuthentication, name));
        return;
      }
      var auth := output.cloudwatch.value.authentication.value;
      if auth.authType == CloudwatchAuthTypeAccessKey {
        if auth.awsAccessKey.None? {
          err := Some(MissingField(CloudwatchAuthTypeAccessKey, name));
          return;
        }
        extractedSecretsNames := extractedSecretsNames + {auth.awsAccessKey.value.keyId.secretName};
        extractedSecretsNames := extractedSecretsNames + {auth.awsAccessKey.value.keySecret.secretName};
      } else if auth.authType == CloudwatchAuthTypeIAMRole {
        extractedSecretsNames := extractedSecretsNames + {auth.iamRole.value.roleARN.secretName};
        extractedSecretsNames := AddTokenSecretNames(extractedSecretsNames, auth.iamRole.value.token);
      }
    } else if output.outputType == OutputTypeGoogleCloudLogging {
      if output.googleCloudLogging.None? {
        err := Some(MissingField(OutputTypeGoogleCloudLogging, name));
        return;
      }
      if output.googleCloudLogging.value.authentication.None? {
        err := Some(MissingField(FieldAuthentication, name));
        return;
      }
      extractedSecretsNames := extractedSecretsNames + {output.googleCloudLogging.value.authentication.value.credentials.secretName};
    } else if output.outputType == OutputTypeAzureMonitor {
      if output.azureMonitor.None? {
        err := Some(MissingField(OutputTypeAzureMonitor, name));
        return;
      }
      if output.azureMonitor.value.authentication.None? {
        err := Some(MissingField(FieldAuthentication, name));
        return;
      }
      extractedSecretsNames := extractedSecretsNames + {output.azureMonitor.value.authentication.value.sharedKey.secretName};
    } else if output.outputType == OutputTypeLoki {
      if output.loki.None? {
        err := Some(MissingField(OutputTypeLoki, name));
        return;
      }
      if output.loki.value.authentication.None? {
        err := Some(MissingField(FieldAuthentication, name));
        return;
      }
      extractedSecretsNames := AddHTTPAuthenticationSecretNames(extractedSecretsNames, output.loki.value.authentication.value);
    } else if output.outputType == OutputTypeLokiStack {
      if output.lokiStack.None? {
        err := Some(MissingField(OutputTypeLokiStack, name));
        return;
      }
      if output.lokiStack.value.authentication.None? {
        err := Some(MissingField(FieldAuthentication, name));
        return;
      }
      extractedSecretsNames := AddTokenSecretNames(extractedSecretsNames, output.lokiStack.value.authentication.value.token.value);
    } else if output.outputType == OutputTypeElasticsearch {
      if output.elasticsearch.None? {
        err := Some(MissingField(OutputTypeElasticsearch, name));
        return;
      }
      if output.elasticsearch.value.authentication.None? {
        err := Some(MissingField(FieldAuthentication, name));
        return;
      }
      extractedSecretsNames := AddHTTPAuthenticationSecretNames(extractedSecretsNames, output.elasticsearch.value.authentication.value);
    } else if output.outputType == OutputTypeHTTP {
      if output.http.None? {
        err := Some(MissingField(OutputTypeHTTP, name));
        return;
      }
      if output.http.value.authentication.None? {
        err := Some(MissingField(FieldAuthentication, name));
        return;
      }
      extractedSecretsNames := AddHTTPAuthenticationSecretNames(extractedSecretsNames, output.http.value.authentication.value);
    } else if output.outputType == OutputTypeKafka {
      if output.kafka.None? {
        err := Some(MissingField(OutputTypeKafka, name));
        return;
      }
      if output.kafka.value.authentication.None? {
        err := Some(MissingField(FieldAuthentication, name));
        return;
      }
      var sasl := output.kafka.value.authentication.value.sasl;
      if sasl.None? {
        err := Some(MissingField(FieldSASL, name));
        return;
      }
      if sasl.value.username.Some? {
        extractedSecretsNames := extractedSecretsNames + {sasl.value.username.value.secretName};
      }
      if sasl.value.password.Some? {
        extractedSecretsNames := extractedSecretsNames + {sasl.value.password.value.secretName};
      }
    } else if output.outputType == OutputTypeSplunk {
      if output.splunk.None? {
        err := Some(MissingField(OutputTypeSplunk, name));
        return;
      }
      if output.splunk.value.authentication.None? {
        err := Some(MissingField(FieldAuthentication, name));
        return;
      }
      if output.splunk.value.authentication.value.token.Some? {
        extractedSecretsNames := extractedSecretsNames + {output.splunk.value.authentication.value.token.value.secretName};
      }
    } else if output.outputType == OutputTypeOTLP {
      if output.otlp.None? {
        err := Some(MissingField(OutputTypeOTLP, name));
        return;
      }
      if output.otlp.value.authentication.None? {
        err := Some(MissingField(FieldAuthentication, name));
        return;
      }
      extractedSecretsNames := AddHTTPAuthenticationSecretNames(extractedSecretsNames, output.otlp.value.authentication.value);
    } else {
      err := Some(MissingImplementation(output.outputType, name));
      return;
    }
    names' := extractedSecretsNames;
  }

  /** The TLS block of `getOutputResourcesNames`: the secret and config-map
      names it contributes. */
  method AddTLSNames(tlsSpec: Option<TLSSpec>) returns (extractedSecretsNames: set<string>, extractedConfigMapNames: set<string>)
    ensures extractedSecretsNames == TLSSecretNames(tlsSpec)
    ensures extractedConfigMapNames == TLSConfigMapNames(tlsSpec)
  {
    extractedSecretsNames, extractedConfigMapNames := {}, {};

    if tlsSpec.Some? {
      var tls := tlsSpec.value;
      if tls.certificate.Some? {
        if tls.certificate.value.secretName != "" {
          extractedSecretsNames := extractedSecretsNames + {tls.certificate.value.secretName};
        }
        if tls.certificate.value.configMapName != "" {
          extractedConfigMapNames := extractedConfigMapNames + {tls.certificate.value.configMapName};
        }
      }
      if tls.key.Some? {
        extractedSecretsNames := extractedSecretsNames + {tls.key.value.secretName};
      }
      if tls.ca.Some? {
        if tls.ca.value.secretName != "" {
          extractedSecretsNames := extractedSecretsNames + {tls.ca.value.secretName};
        }
        if tls.ca.value.configMapName != "" {
          extractedConfigMapNames := extractedConfigMapNames + {tls.ca.value.configMapName};
        }
      }
      if tls.keyPassphrase.Some? {
        extractedSecretsNames := extractedSecretsNames + {tls.keyPassphrase.value.secretName};
      }
    }
  }

  /** `getOutputResourcesNames`: on an error both lists are empty, even when
      TLS names were already collected; otherwise each secret name appears
      once and the secret names are exactly those of the TLS block and of
      the authentication, and the config-map names appear once, in
      ascending order, and are exactly those of the TLS block. */
  method GetOutputResourcesNames(output: Output) returns (secretNames: seq<string>, configMapNames: seq<string>, err: Option<Error>)
    requires Dereferenceable(output)
    ensures err == OutputError(output)
    ensures err.Some? ==> secretNames == [] && configMapNames == []
    ensures err.None? ==> NoDuplicates(secretNames) && Elements(secretNames) == ReferencedSecretNames(output)
    ensures err.None? ==> StrictlySorted(configMapNames) && Elements(configMapNames) == TLSConfigMapNames(output.tls)
  {
    secretNames, configMapNames, err := [], [], None;
    var extractedSecretsNames, extractedConfigMapNames := AddTLSNames(output.tls);

    var authErr;
    extractedSecretsNames, authErr := AddAuthenticationSecretNames(extractedSecretsNames, output);
    if authErr.Some? {
      err := authErr;
      return;
    }
    assert extractedSecretsNames == ReferencedSecretNames(output);

    secretNames := SetToSeq(extractedSecretsNames);
    var unsorted := SetToSeq(extractedConfigMapNames);
    configMapNames := SortStrings(unsorted);
    SameMultisetSameElements(configMapNames, unsorted);
  }

  // ---------------------------------------------------------------------
  // Properties of the validation

  /** "Missing implementation" is raised exactly for the types without a
      case, and every error names the offending output. */
  lemma ValidationErrors(o: Output)
    ensures OutputError(o) == Some(MissingImplementation(o.outputType, o.name)) <==> o.outputType !in KnownOutputTypes
    ensures OutputError(o).Some? ==> OutputError(o).value.MissingImplementation? || OutputError(o).value.MissingField?
    ensures OutputError(o).Some? ==> OutputError(o).value.outputName == o.name
    ensures o.outputType in KnownOutputTypes && !HasTypeBlock(o) ==> OutputError(o) == Some(MissingField(o.outputType, o.name))
    ensures o.outputType in KnownOutputTypes && HasTypeBlock(o) && !HasAuthentication(o)
            ==> OutputError(o) == Some(MissingField(FieldAuthentication, o.name))
  {
  }

  /** An output whose type block, authentication and type-specific blocks
      are all present is accepted: no other field can make it fail. */
  lemma ValidOutputsAccepted(o: Output)
    requires o.outputType in KnownOutputTypes && HasTypeBlock(o) && HasAuthentication(o)
    requires o.outputType == OutputTypeKafka ==> o.kafka.value.authentication.value.sasl.Some?
    requires o.outputType == OutputTypeCloudwatch
             && o.cloudwatch.value.authentication.value.authType == CloudwatchAuthTypeAccessKey
             ==> o.cloudwatch.value.authentication.value.awsAccessKey.Some?
    ensures OutputError(o).None?
  {
  }

  /** A Cloudwatch authentication type that is neither AccessKey nor
      IAMRole is accepted and names no secret. */
  lemma CloudwatchOtherAuthTypeNamesNothing(o: Output)
    requires o.outputType == OutputTypeCloudwatch && o.cloudwatch.Some? && o.cloudwatch.value.authentication.Some?
    requires o.cloudwatch.value.authentication.value.authType !in {CloudwatchAuthTypeAccessKey, CloudwatchAuthTypeIAMRole}
    ensures OutputError(o).None? && Dereferenceable(o)
    ensures ReferencedSecretNames(o) == TLSSecretNames(o.tls)
  {
  }

  /** The empty name is referenced exactly when the TLS key or key
      passphrase is set with an empty secret name: certificate and CA skip
      empty names, key and passphrase do not. */
  lemma TLSEmptyNameOnlyFromKeyOrPassphrase(tls: Option<TLSSpec>)
    ensures "" in TLSSecretNames(tls) <==>
              tls.Some? && ((tls.value.key.Some? && tls.value.key.value.secretName == "")
                            || (tls.value.keyPassphrase.Some? && tls.value.keyPassphrase.value.secretName == ""))
    ensures "" !in TLSConfigMapNames(tls)
  {
  }

  // ---------------------------------------------------------------------
  // The two outputs of the forwarder in the logging package's Helm test
  // (internal/logging/helm_test.go:153-196)

  /** A Loki output authenticated by a token from secret
      "static-authentication", with its CA in config map "foo". */
  function LokiAppLogs(): Output
  {
    BareOutput("app-logs", OutputTypeLoki).(
      loki := Some(HTTPAuthenticated(Some(HTTPAuthentication(
        Some(BearerToken(BearerTokenFromSecret, Some(BearerTokenSecretKey("static-authentication")))), None, None)))),
      tls := Some(TLSSpec(None, None, Some(ValueReference("", "foo")), None)))
  }

  /** A Cloudwatch output whose access key id and secret both live in secret
      "static-authentication". */
  function CloudwatchClusterLogs(): Output
  {
    BareOutput("cluster-logs", OutputTypeCloudwatch).(
      cloudwatch := Some(Cloudwatch(Some(CloudwatchAuthentication(
        CloudwatchAuthTypeAccessKey,
        Some(CloudwatchAWSAccessKey(SecretReference("static-authentication"), SecretReference("static-authentication"))),
        None)))))
  }

  method LokiAppLogsNames() returns (secretNames: seq<string>, configMapNames: seq<string>, err: Option<Error>)
    ensures err.None?
    ensures secretNames == ["static-authentication"] && configMapNames == ["foo"]
  {
    secretNames, configMapNames, err := GetOutputResourcesNames(LokiAppLogs());
    NoDuplicatesSingleton(secretNames, "static-authentication");
    NoDuplicatesSingleton(configMapNames, "foo");
  }

  method CloudwatchClusterLogsNames() returns (secretNames: seq<string>, configMapNames: seq<string>, err: Option<Error>)
    ensures err.None?
    ensures secretNames == ["static-authentication"] && configMapNames == []
  {
    secretNames, configMapNames, err := GetOutputResourcesNames(CloudwatchClusterLogs());
    NoDuplicatesSingleton(secretNames, "static-authentication");
    NoDuplicatesSize(configMapNames);
  }

  /** A syslog output, carrying a TLS certificate secret, is refused as
      unimplemented and yields no names at all. */
  method SyslogOutputNames() returns (secretNames: seq<string>, configMapNames: seq<string>, err: Option<Error>)
    ensures err == Some(MissingImplementation(OutputTypeSyslog, "legacy"))
    ensures secretNames == [] && configMapNames == []
  {
    var output := BareOutput("legacy", OutputTypeSyslog).(tls := Some(TLSSpec(Some(ValueReference("syslog-cert", "")), None, None, None)));
    secretNames, configMapNames, err := GetOutputResourcesNames(output);
  }
}
