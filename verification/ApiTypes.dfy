/** The two API versions side by side. `Raw` stands for values that both versions hold in the same
    Go type and that conversion copies whole; its empty string is the zero value of that type. */
module ApiCommon {
  type Raw = string

  type int32 = x: int | -0x8000_0000 <= x < 0x8000_0000
  type int64 = x: int | -0x8000_0000_0000_0000 <= x < 0x8000_0000_0000_0000

  // A resource quantity: an amount and the way it was written. Zero can be written in many ways.
  datatype Quantity = Quantity(amount: int, format: string) {
    predicate IsZero() { amount == 0 }
  }
  const NO_QUANTITY := Quantity(0, "")

  datatype Metadata = Metadata(labels: Raw, annotations: Raw)
}

module V1alpha1 {
  import opened Wrappers
  import opened ApiCommon

  datatype SecretSource = SecretSource(kind: string, name: string, namespace: string)
  datatype BasicAuth = BasicAuth(source: SecretSource, username: string, passwordPath: string)
  datatype OAuth = OAuth(
    source: SecretSource, clientIDPath: string, clientSecretPath: string,
    tokenURL: string, scopes: Raw, endpointParams: Raw, authStyle: int64)
  datatype Certificate = Certificate(source: SecretSource, certPath: string, privateKeyPath: string)
  datatype TLS = TLS(enable: bool, caCert: Option<Certificate>, userCert: Option<Certificate>, insecureSkipVerify: bool)
  datatype KubernetesAuth = KubernetesAuth(enable: bool)
  datatype Client = Client(
    basicAuth: Option<BasicAuth>, oauth: Option<OAuth>, tls: Option<TLS>, kubernetesAuth: Option<KubernetesAuth>)
  datatype Service = Service(name: string, annotations: Raw)
  datatype Storage = Storage(storageClass: Option<string>, size: Quantity)

  datatype PersesSpec = PersesSpec(
    metadata: Option<Metadata>, client: Option<Client>, config: Raw, args: Raw, containerPort: int32,
    replicas: Option<int32>, nodeSelector: Raw, tolerations: Raw, affinity: Raw, image: string,
    service: Option<Service>, livenessProbe: Raw, readinessProbe: Raw, tls: Option<TLS>,
    storage: Option<Storage>, serviceAccountName: string)
  datatype Perses = Perses(typeMeta: Raw, meta: Raw, spec: PersesSpec, conditions: Raw)

  datatype DatasourceSpec = DatasourceSpec(config: Raw, client: Option<Client>)
  datatype Datasource = Datasource(typeMeta: Raw, meta: Raw, spec: DatasourceSpec, conditions: Raw)

  datatype Dashboard = Dashboard(typeMeta: Raw, meta: Raw, spec: Raw, conditions: Raw)

  const NO_OAUTH := OAuth(SecretSource("", "", ""), "", "", "", "", "", 0)
  const NO_STORAGE := Storage(None, NO_QUANTITY)
  const NO_SPEC := PersesSpec(None, None, "", "", 0, None, "", "", "", "", None, "", "", None, None, "")
  const NO_PERSES := Perses("", "", NO_SPEC, "")
  const NO_DATASOURCE := Datasource("", "", DatasourceSpec("", None), "")
  const NO_DASHBOARD := Dashboard("", "", "", "")
}

module V1alpha2 {
  import opened Wrappers
  import opened ApiCommon

  datatype SecretSource = SecretSource(kind: string, name: Option<string>, namespace: Option<string>)
  datatype BasicAuth = BasicAuth(source: SecretSource, username: string, passwordPath: string)
  datatype OAuth = OAuth(
    source: SecretSource, clientIDPath: Option<string>, clientSecretPath: Option<string>,
    tokenURL: string, scopes: Raw, endpointParams: Raw, authStyle: Option<int32>)
  datatype Certificate = Certificate(source: SecretSource, certPath: string, privateKeyPath: Option<string>)
  datatype TLS = TLS(
    enable: Option<bool>, caCert: Option<Certificate>, userCert: Option<Certificate>, insecureSkipVerify: Option<bool>)
  datatype KubernetesAuth = KubernetesAuth(enable: Option<bool>)
  datatype Client = Client(
    basicAuth: Option<BasicAuth>, oauth: Option<OAuth>, tls: Option<TLS>, kubernetesAuth: Option<KubernetesAuth>)
  datatype Service = Service(name: Option<string>, annotations: Raw)

  // `rest` is everything a claim has besides its class and the storage it requests.
  datatype Claim = Claim(storageClass: Option<string>, storage: Option<Quantity>, rest: Raw)
  datatype Storage = Storage(emptyDir: Option<Raw>, claim: Option<Claim>)

  // The fields that v1alpha1 does not have.
  datatype Added = Added(
    resources: Raw, priorityClassName: Raw, podSecurityContext: Raw, containerSecurityContext: Raw,
    logLevel: Raw, logMethodTrace: Raw, provisioning: Raw, volumes: Raw, volumeMounts: Raw, env: Raw, envFrom: Raw)

  datatype PersesSpec = PersesSpec(
    metadata: Option<Metadata>, client: Option<Client>, config: Raw, args: Raw, containerPort: Option<int32>,
    replicas: Option<int32>, nodeSelector: Raw, tolerations: Raw, affinity: Raw, image: Option<string>,
    service: Option<Service>, livenessProbe: Raw, readinessProbe: Raw, tls: Option<TLS>,
    storage: Option<Storage>, serviceAccountName: Option<string>, added: Added)
  datatype Perses = Perses(typeMeta: Raw, meta: Raw, spec: PersesSpec, conditions: Raw, provisioning: Raw)

  datatype DatasourceSpec = DatasourceSpec(config: Raw, client: Option<Client>, instanceSelector: Raw)
  datatype Datasource = Datasource(typeMeta: Raw, meta: Raw, spec: DatasourceSpec, conditions: Raw)

  datatype DashboardSpec = DashboardSpec(config: Raw, instanceSelector: Raw)
  datatype Dashboard = Dashboard(typeMeta: Raw, meta: Raw, spec: DashboardSpec, conditions: Raw)

  const NO_OAUTH := OAuth(SecretSource("", None, None), None, None, "", "", "", None)
  const NO_STORAGE := Storage(None, None)
  const NOTHING_ADDED := Added("", "", "", "", "", "", "", "", "", "", "")
  const NO_SPEC := PersesSpec(
    None, None, "", "", None, None, "", "", "", None, None, "", "", None, None, None, NOTHING_ADDED)
  const NO_PERSES := Perses("", "", NO_SPEC, "", "")
  const NO_DATASOURCE := Datasource("", "", DatasourceSpec("", None, ""), "")
  const NO_DASHBOARD := Dashboard("", "", DashboardSpec("", ""), "")
}
