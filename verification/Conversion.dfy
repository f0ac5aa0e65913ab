/** Conversion between the API versions, `Up` to v1alpha2 and `Down` to v1alpha1. Every function
    of the source writes to an out parameter; where it leaves a field alone, the value that was
    there before shows up here as the argument `out`. Nested objects are always allocated anew. */
module Conversion {
  import opened Wrappers
  import opened ApiCommon
  import V1alpha1
  import V1alpha2

  // ---- Pointers and plain values ----

  function ToPointer<T>(x: T): Option<T> { Some(x) }
  function FromPointer<T>(p: Option<T>, zero: T): T { p.GetOr(zero) }

  function Lift<A, B>(p: Option<A>, f: A -> B): Option<B> {
    match p
    case None => None
    case Some(x) => Some(f(x))
  }

  // Go's int32(x).
  function Truncate(x: int): int32 {
    (x + 0x8000_0000) % 0x1_0000_0000 - 0x8000_0000
  }

  predicate FitsInt32(x: int) { -0x8000_0000 <= x < 0x8000_0000 }

  // ---- Up ----

  function UpSource(a: V1alpha1.SecretSource): V1alpha2.SecretSource {
    V1alpha2.SecretSource(a.kind, ToPointer(a.name), ToPointer(a.namespace))
  }

  function UpBasicAuth(a: V1alpha1.BasicAuth): V1alpha2.BasicAuth {
    V1alpha2.BasicAuth(UpSource(a.source), a.username, a.passwordPath)
  }

  // Zero is not written, so an out parameter that was used before keeps its style.
  function UpOAuth(a: V1alpha1.OAuth, out: V1alpha2.OAuth): V1alpha2.OAuth {
    V1alpha2.OAuth(UpSource(a.source), ToPointer(a.clientIDPath), ToPointer(a.clientSecretPath), a.tokenURL, a.scopes, a.endpointParams,
                   if a.authStyle != 0 then Some(Truncate(a.authStyle)) else out.authStyle)
  }

  function UpCertificate(a: V1alpha1.Certificate): V1alpha2.Certificate {
    V1alpha2.Certificate(UpSource(a.source), a.certPath, ToPointer(a.privateKeyPath))
  }

  function UpTLS(a: V1alpha1.TLS): V1alpha2.TLS {
    V1alpha2.TLS(ToPointer(a.enable), Lift(a.caCert, UpCertificate), Lift(a.userCert, UpCertificate), ToPointer(a.insecureSkipVerify))
  }

  function UpKubernetesAuth(a: V1alpha1.KubernetesAuth): V1alpha2.KubernetesAuth {
    V1alpha2.KubernetesAuth(ToPointer(a.enable))
  }

  function UpClient(a: V1alpha1.Client): V1alpha2.Client {
    V1alpha2.Client(
      Lift(a.basicAuth, UpBasicAuth), Lift(a.oauth, (x: V1alpha1.OAuth) => UpOAuth(x, V1alpha2.NO_OAUTH)),
      Lift(a.tls, UpTLS), Lift(a.kubernetesAuth, UpKubernetesAuth))
  }

  function UpService(a: V1alpha1.Service): V1alpha2.Service {
    V1alpha2.Service(ToPointer(a.name), a.annotations)
  }

  function UpStorage(a: V1alpha1.Storage, out: V1alpha2.Storage): V1alpha2.Storage {
    if a.storageClass.None? && a.size.IsZero() then out
    else out.(claim := Some(V1alpha2.Claim(a.storageClass, if a.size.IsZero() then None else Some(a.size), "")))
  }

  function UpSpec(a: V1alpha1.PersesSpec, out: V1alpha2.PersesSpec): V1alpha2.PersesSpec {
    V1alpha2.PersesSpec(
      a.metadata, Lift(a.client, UpClient), a.config, a.args, ToPointer(a.containerPort),
      a.replicas, a.nodeSelector, a.tolerations, a.affinity, ToPointer(a.image),
      Lift(a.service, UpService), a.livenessProbe, a.readinessProbe, Lift(a.tls, UpTLS),
      Lift(a.storage, (x: V1alpha1.Storage) => UpStorage(x, V1alpha2.NO_STORAGE)), ToPointer(a.serviceAccountName), out.added)
  }

  function UpPerses(a: V1alpha1.Perses, out: V1alpha2.Perses): V1alpha2.Perses {
    V1alpha2.Perses(out.typeMeta, a.meta, UpSpec(a.spec, out.spec), a.conditions, out.provisioning)
  }

  function UpDatasource(a: V1alpha1.Datasource, out: V1alpha2.Datasource): V1alpha2.Datasource {
    V1alpha2.Datasource(
      out.typeMeta, a.meta,
      V1alpha2.DatasourceSpec(a.spec.config, Lift(a.spec.client, UpClient), out.spec.instanceSelector), a.conditions)
  }

  function UpDashboard(a: V1alpha1.Dashboard, out: V1alpha2.Dashboard): V1alpha2.Dashboard {
    V1alpha2.Dashboard(out.typeMeta, a.meta, V1alpha2.DashboardSpec(a.spec, out.spec.instanceSelector), a.conditions)
  }

  // ---- Down ----

  function DownSource(b: V1alpha2.SecretSource): V1alpha1.SecretSource {
    V1alpha1.SecretSource(b.kind, FromPointer(b.name, ""), FromPointer(b.namespace, ""))
  }

  function DownBasicAuth(b: V1alpha2.BasicAuth): V1alpha1.BasicAuth {
    V1alpha1.BasicAuth(DownSource(b.source), b.username, b.passwordPath)
  }

  function DownOAuth(b: V1alpha2.OAuth, out: V1alpha1.OAuth): V1alpha1.OAuth {
    V1alpha1.OAuth(DownSource(b.source), FromPointer(b.clientIDPath, ""), FromPointer(b.clientSecretPath, ""), b.tokenURL, b.scopes,
                   b.endpointParams, if b.authStyle.Some? then b.authStyle.value else out.authStyle)
  }

  function DownCertificate(b: V1alpha2.Certificate): V1alpha1.Certificate {
    V1alpha1.Certificate(DownSource(b.source), b.certPath, FromPointer(b.privateKeyPath, ""))
  }

  function DownTLS(b: V1alpha2.TLS): V1alpha1.TLS {
    V1alpha1.TLS(FromPointer(b.enable, false), Lift(b.caCert, DownCertificate), Lift(b.userCert, DownCertificate),
                 FromPointer(b.insecureSkipVerify, false))
  }

  function DownKubernetesAuth(b: V1alpha2.KubernetesAuth): V1alpha1.KubernetesAuth {
    V1alpha1.KubernetesAuth(FromPointer(b.enable, false))
  }

  function DownClient(b: V1alpha2.Client): V1alpha1.Client {
    V1alpha1.Client(
      Lift(b.basicAuth, DownBasicAuth), Lift(b.oauth, (x: V1alpha2.OAuth) => DownOAuth(x, V1alpha1.NO_OAUTH)),
      Lift(b.tls, DownTLS), Lift(b.kubernetesAuth, DownKubernetesAuth))
  }

  function DownService(b: V1alpha2.Service): V1alpha1.Service {
    V1alpha1.Service(FromPointer(b.name, ""), b.annotations)
  }

  // An emptyDir is dropped; of a claim only the class and the requested storage remain.
  function DownStorage(b: V1alpha2.Storage, out: V1alpha1.Storage): V1alpha1.Storage {
    match b.claim
    case None => out
    case Some(c) => V1alpha1.Storage(c.storageClass, if c.storage.Some? then c.storage.value else out.size)
  }

  function DownSpec(b: V1alpha2.PersesSpec): V1alpha1.PersesSpec {
    V1alpha1.PersesSpec(
      b.metadata, Lift(b.client, DownClient), b.config, b.args, FromPointer(b.containerPort, 0),
      b.replicas, b.nodeSelector, b.tolerations, b.affinity, FromPointer(b.image, ""),
      Lift(b.service, DownService), b.livenessProbe, b.readinessProbe, Lift(b.tls, DownTLS),
      Lift(b.storage, (x: V1alpha2.Storage) => DownStorage(x, V1alpha1.NO_STORAGE)), FromPointer(b.serviceAccountName, ""))
  }

  function DownPerses(b: V1alpha2.Perses, out: V1alpha1.Perses): V1alpha1.Perses {
    V1alpha1.Perses(out.typeMeta, b.meta, DownSpec(b.spec), b.conditions)
  }

  // The client is not converted at all.
  function DownDatasource(b: V1alpha2.Datasource, out: V1alpha1.Datasource): V1alpha1.Datasource {
    V1alpha1.Datasource(out.typeMeta, b.meta, V1alpha1.DatasourceSpec(b.spec.config, out.spec.client), b.conditions)
  }

  function DownDashboard(b: V1alpha2.Dashboard, out: V1alpha1.Dashboard): V1alpha1.Dashboard {
    V1alpha1.Dashboard(out.typeMeta, b.meta, b.spec.config, b.conditions)
  }

  // ---- Into fresh objects ----

  function UpFreshPerses(a: V1alpha1.Perses): V1alpha2.Perses { UpPerses(a, V1alpha2.NO_PERSES) }
  function DownFreshPerses(b: V1alpha2.Perses): V1alpha1.Perses { DownPerses(b, V1alpha1.NO_PERSES) }
  function UpFreshDatasource(a: V1alpha1.Datasource): V1alpha2.Datasource { UpDatasource(a, V1alpha2.NO_DATASOURCE) }
  function DownFreshDatasource(b: V1alpha2.Datasource): V1alpha1.Datasource { DownDatasource(b, V1alpha1.NO_DATASOURCE) }
  function UpFreshDashboard(a: V1alpha1.Dashboard): V1alpha2.Dashboard { UpDashboard(a, V1alpha2.NO_DASHBOARD) }
  function DownFreshDashboard(b: V1alpha2.Dashboard): V1alpha1.Dashboard { DownDashboard(b, V1alpha1.NO_DASHBOARD) }

  // ---- Lists ----

  // A nil list stays nil; the items of any other are converted into fresh objects.
  datatype List<T> = List(typeMeta: Raw, meta: Raw, items: Option<seq<T>>)

  function ConvertList<A, B>(a: List<A>, out: List<B>, f: A -> B): List<B> {
    List(out.typeMeta, a.meta, Lift(a.items, (s: seq<A>) => MapSeq(s, f)))
  }

  function MapSeq<A, B>(s: seq<A>, f: A -> B): seq<B> { seq(|s|, i requires 0 <= i < |s| => f(s[i])) }
}
