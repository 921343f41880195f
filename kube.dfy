/** The resource store the resolver reads and writes, reduced to what the
    resolver needs: objects by kind and key, the listing of addon
    installations, and the certificates it creates or updates. */
module Kube {
  import opened Observability

  datatype ObjectKey = ObjectKey(namespace: string, name: string)

  /** Go's zero `client.ObjectKey{}`. */
  const ZeroKey: ObjectKey := ObjectKey("", "")

  datatype Kind = ClusterLogForwarderKind | LokiStackKind | SecretKind | ConfigMapKind

  datatype Secret = Secret(key: ObjectKey, data: map<string, string>)

  /** Go's zero `corev1.Secret{}`. */
  const ZeroSecret: Secret := Secret(ZeroKey, map[])

  datatype ConfigMap = ConfigMap(key: ObjectKey, data: map<string, string>)

  datatype ClusterLogForwarder = ClusterLogForwarder(key: ObjectKey, outputs: seq<Output>)

  /** A LokiStack and the name of its object-storage secret (`Spec.Storage.Secret.Name`). */
  datatype LokiStackObject = LokiStackObject(key: ObjectKey, storageSecretName: string)

  /** A ManagedClusterAddOn: its name and namespace (the namespace is the
      managed cluster's), and the keys of its configuration references of
      the two kinds the resolver asks for.  Those key lists stand for
      `addon.GetObjectKeys`, whose body is not part of this model. */
  datatype ManagedClusterAddOn = ManagedClusterAddOn(
    name: string,
    namespace: string,
    forwarderKeys: seq<ObjectKey>,
    lokiStackKeys: seq<ObjectKey>)

  datatype CertificateConfig = CertificateConfig(
    commonName: string,
    organizationalUnits: seq<string>,
    dnsNames: seq<string>)

  datatype Certificate = Certificate(key: ObjectKey, config: CertificateConfig, server: bool)

  /** cert-manager client and server certificate builders, reduced to the
      object they describe. */
  function BuildClientCertificate(key: ObjectKey, config: CertificateConfig): Certificate
  {
    Certificate(key, config, false)
  }

  function BuildServerCertificate(key: ObjectKey, config: CertificateConfig): Certificate
  {
    Certificate(key, config, true)
  }

  /** Certificate writes applied in order; a write whose key is rejected
      leaves the map as it was. */
  function ApplyWrites(m: map<ObjectKey, Certificate>, certs: seq<Certificate>, rejected: set<ObjectKey>): (r: map<ObjectKey, Certificate>)
    ensures forall k :: k in r ==> k in m || exists i :: 0 <= i < |certs| && certs[i].key == k && k !in rejected
    ensures forall k :: k in rejected ==> (k in r <==> k in m) && (k in m ==> r[k] == m[k])
    decreases |certs|
  {
    if certs == [] then m
    else
      var m' := if certs[0].key in rejected then m else m[certs[0].key := certs[0]];
      var r := ApplyWrites(m', certs[1..], rejected);
      assert forall k :: k in r ==> k in m' || exists i :: 0 <= i < |certs[1..]| && certs[1..][i].key == k && k !in rejected;
      assert forall k :: k in r && k !in m' ==> exists i :: 0 <= i < |certs| && certs[i].key == k && k !in rejected by {
        forall k | k in r && k !in m' ensures exists i :: 0 <= i < |certs| && certs[i].key == k && k !in rejected {
          var i :| 0 <= i < |certs[1..]| && certs[1..][i].key == k && k !in rejected;
          assert certs[i + 1].key == k;
        }
      }
      r
  }

  /** The store.  Get on a key that is absent fails with not-found; the
      listing of addon installations may fail; a create-or-update of a
      certificate fails exactly for the keys in `rejectedWrites`, which
      stands for whatever makes the store refuse a write. */
  class Cluster {
    var forwarders: map<ObjectKey, ClusterLogForwarder>
    var lokiStacks: map<ObjectKey, LokiStackObject>
    var secrets: map<ObjectKey, Secret>
    var configMaps: map<ObjectKey, ConfigMap>
    var addOns: seq<ManagedClusterAddOn>
    var listFails: bool
    var certificates: map<ObjectKey, Certificate>
    var rejectedWrites: set<ObjectKey>

    constructor (forwarders: map<ObjectKey, ClusterLogForwarder>, lokiStacks: map<ObjectKey, LokiStackObject>,
                 secrets: map<ObjectKey, Secret>, configMaps: map<ObjectKey, ConfigMap>,
                 addOns: seq<ManagedClusterAddOn>, listFails: bool, rejectedWrites: set<ObjectKey>)
      ensures this.forwarders == forwarders && this.lokiStacks == lokiStacks
      ensures this.secrets == secrets && this.configMaps == configMaps
      ensures this.addOns == addOns && this.listFails == listFails
      ensures this.certificates == map[] && this.rejectedWrites == rejectedWrites
    {
      this.forwarders := forwarders;
      this.lokiStacks := lokiStacks;
      this.secrets := secrets;
      this.configMaps := configMaps;
      this.addOns := addOns;
      this.listFails := listFails;
      this.certificates := map[];
      this.rejectedWrites := rejectedWrites;
    }

    /** `ctrl.CreateOrUpdate` of one certificate. */
    method CreateOrUpdate(cert: Certificate) returns (ok: bool)
      modifies this`certificates
      ensures ok <==> cert.key !in rejectedWrites
      ensures certificates == ApplyWrites(old(certificates), [cert], rejectedWrites)
    {
      ok := cert.key !in rejectedWrites;
      if ok {
        certificates := certificates[cert.key := cert];
      }
    }
  }
}
