/** What conversion keeps. Three views that support each other: a relation between the versions
    that does not mention the converters, exact normal forms for both round trips, and the
    conditions under which a round trip loses nothing. */
module ConversionLaws {
  import opened Wrappers
  import opened ApiCommon
  import V1alpha1
  import V1alpha2
  import opened Conversion

  // ---- Agreement: the same thing said in both versions ----

  predicate Both<A, B>(p: Option<A>, q: Option<B>, agree: (A, B) -> bool) {
    if p.Some? && q.Some? then agree(p.value, q.value) else p.None? && q.None?
  }

  predicate AgreeSource(a: V1alpha1.SecretSource, b: V1alpha2.SecretSource) {
    a.kind == b.kind && a.name == b.name.GetOr("") && a.namespace == b.namespace.GetOr("")
  }

  predicate AgreeBasicAuth(a: V1alpha1.BasicAuth, b: V1alpha2.BasicAuth) {
    AgreeSource(a.source, b.source) && a.username == b.username && a.passwordPath == b.passwordPath
  }

  predicate AgreeOAuth(a: V1alpha1.OAuth, b: V1alpha2.OAuth) {
    && AgreeSource(a.source, b.source) && a.clientIDPath == b.clientIDPath.GetOr("")
    && a.clientSecretPath == b.clientSecretPath.GetOr("") && a.tokenURL == b.tokenURL && a.scopes == b.scopes
    && a.endpointParams == b.endpointParams && a.authStyle == b.authStyle.GetOr(0)
  }

  predicate AgreeCertificate(a: V1alpha1.Certificate, b: V1alpha2.Certificate) {
    AgreeSource(a.source, b.source) && a.certPath == b.certPath && a.privateKeyPath == b.privateKeyPath.GetOr("")
  }

  predicate AgreeTLS(a: V1alpha1.TLS, b: V1alpha2.TLS) {
    && a.enable == b.enable.GetOr(false) && a.insecureSkipVerify == b.insecureSkipVerify.GetOr(false)
    && Both(a.caCert, b.caCert, AgreeCertificate) && Both(a.userCert, b.userCert, AgreeCertificate)
  }

  predicate AgreeKubernetesAuth(a: V1alpha1.KubernetesAuth, b: V1alpha2.KubernetesAuth) { a.enable == b.enable.GetOr(false) }

  predicate AgreeClient(a: V1alpha1.Client, b: V1alpha2.Client) {
    && Both(a.basicAuth, b.basicAuth, AgreeBasicAuth) && Both(a.oauth, b.oauth, AgreeOAuth)
    && Both(a.tls, b.tls, AgreeTLS) && Both(a.kubernetesAuth, b.kubernetesAuth, AgreeKubernetesAuth)
  }

  predicate AgreeService(a: V1alpha1.Service, b: V1alpha2.Service) {
    a.name == b.name.GetOr("") && a.annotations == b.annotations
  }

  // No claim reads like a claim without class and size.
  predicate AgreeStorage(a: V1alpha1.Storage, b: V1alpha2.Storage) {
    var c := b.claim.GetOr(V1alpha2.Claim(None, None, ""));
    a.storageClass == c.storageClass && a.size == c.storage.GetOr(NO_QUANTITY)
  }

  predicate AgreeSpec(a: V1alpha1.PersesSpec, b: V1alpha2.PersesSpec) {
    && a.metadata == b.metadata && Both(a.client, b.client, AgreeClient) && a.config == b.config && a.args == b.args
    && a.containerPort == b.containerPort.GetOr(0) && a.replicas == b.replicas && a.nodeSelector == b.nodeSelector
    && a.tolerations == b.tolerations && a.affinity == b.affinity && a.image == b.image.GetOr("")
    && Both(a.service, b.service, AgreeService) && a.livenessProbe == b.livenessProbe && a.readinessProbe == b.readinessProbe
    && Both(a.tls, b.tls, AgreeTLS) && Both(a.storage, b.storage, AgreeStorage)
    && a.serviceAccountName == b.serviceAccountName.GetOr("")
  }

  predicate AgreePerses(a: V1alpha1.Perses, b: V1alpha2.Perses) {
    a.meta == b.meta && AgreeSpec(a.spec, b.spec) && a.conditions == b.conditions
  }

  // A datasource going down says everything but its client, one going up says that too.
  predicate AgreeDatasource(a: V1alpha1.Datasource, b: V1alpha2.Datasource) {
    a.meta == b.meta && a.spec.config == b.spec.config && a.conditions == b.conditions
  }

  predicate AgreeDashboard(a: V1alpha1.Dashboard, b: V1alpha2.Dashboard) {
    a.meta == b.meta && a.spec == b.spec.config && a.conditions == b.conditions
  }

  // ---- What fits ----

  predicate FitsClient(c: Option<V1alpha1.Client>) {
    c.Some? && c.value.oauth.Some? ==> FitsInt32(c.value.oauth.value.authStyle)
  }

  // A size of zero is written in the one way that its absence is read back as.
  predicate PlainSize(s: Option<V1alpha1.Storage>) {
    s.Some? && s.value.size.IsZero() ==> s.value.size == NO_QUANTITY
  }

  lemma TruncateFits(x: int)
    ensures Truncate(x) == x <==> FitsInt32(x)
    ensures x == 0 ==> Truncate(x) == 0
  {
  }

  // The cast keeps the lowest 32 bits.
  lemma TruncateWraps(x: int)
    ensures Truncate(x) % 0x1_0000_0000 == x % 0x1_0000_0000
  {
  }

  // Fields that the other version does not have are not assigned, and neither is the type.
  lemma UnassignedFieldsStay(a: V1alpha1.Perses, out2: V1alpha2.Perses, b: V1alpha2.Perses, out1: V1alpha1.Perses)
    ensures var u := UpPerses(a, out2);
      u.typeMeta == out2.typeMeta && u.provisioning == out2.provisioning && u.spec.added == out2.spec.added
    ensures DownPerses(b, out1).typeMeta == out1.typeMeta
  {
  }

  // ---- Converters and agreement ----

  lemma UpClientAgrees(a: V1alpha1.Client)
    ensures AgreeClient(a, UpClient(a)) <==> FitsClient(Some(a))
  {
    if a.oauth.Some? { TruncateFits(a.oauth.value.authStyle); }
  }

  lemma UpStorageAgrees(a: V1alpha1.Storage)
    ensures AgreeStorage(a, UpStorage(a, V1alpha2.NO_STORAGE)) <==> PlainSize(Some(a))
  {
  }

  lemma UpPartsAgree(t: V1alpha1.TLS, s: V1alpha1.Service)
    ensures AgreeTLS(t, UpTLS(t)) && AgreeService(s, UpService(s))
  {
  }

  /** Going up says the same thing exactly if the OAuth style fits into 32 bits and a zero size is
      written plainly. */
  lemma UpAgrees(a: V1alpha1.Perses, out: V1alpha2.Perses)
    ensures AgreePerses(a, UpPerses(a, out)) <==> FitsClient(a.spec.client) && PlainSize(a.spec.storage)
  {
    hide AgreeClient, AgreeStorage, AgreeTLS, AgreeService, UpClient, UpStorage, UpTLS, UpService;
    var s := a.spec;
    if s.client.Some? { UpClientAgrees(s.client.value); }
    if s.storage.Some? { UpStorageAgrees(s.storage.value); }
    if s.tls.Some? { UpPartsAgree(s.tls.value, V1alpha1.Service("", "")); }
    if s.service.Some? { UpPartsAgree(V1alpha1.TLS(false, None, None, false), s.service.value); }
  }

  // Both converters of datasources and dashboards, into any out parameter.
  lemma OthersAgree(a: V1alpha1.Datasource, b: V1alpha2.Datasource, c: V1alpha1.Dashboard, d: V1alpha2.Dashboard)
    ensures AgreeDatasource(a, UpDatasource(a, b)) && AgreeDatasource(DownDatasource(b, a), b)
    ensures a.spec.client.None? <==> UpDatasource(a, b).spec.client.None?
    ensures a.spec.client.Some? ==>
      (AgreeClient(a.spec.client.value, UpDatasource(a, b).spec.client.value) <==> FitsClient(a.spec.client))
    ensures UpDatasource(a, b).spec.instanceSelector == b.spec.instanceSelector && UpDatasource(a, b).typeMeta == b.typeMeta
    ensures AgreeDashboard(c, UpDashboard(c, d)) && AgreeDashboard(DownDashboard(d, c), d)
    ensures UpDashboard(c, d).spec.instanceSelector == d.spec.instanceSelector && UpDashboard(c, d).typeMeta == d.typeMeta
  {
    hide UpClient, AgreeClient;
    if a.spec.client.Some? { UpClientAgrees(a.spec.client.value); }
  }

  lemma DownClientAgrees(b: V1alpha2.Client)
    ensures AgreeClient(DownClient(b), b)
  {
  }

  // Going down always says the same thing, as far as v1alpha1 can say it.
  lemma DownAgrees(b: V1alpha2.Perses, out: V1alpha1.Perses)
    ensures AgreePerses(DownPerses(b, out), b)
  {
    hide AgreeClient, DownClient;
    if b.spec.client.Some? { DownClientAgrees(b.spec.client.value); }
  }

  lemma ClientsAgreeing(a: V1alpha1.Client, a': V1alpha1.Client, b: V1alpha2.Client)
    requires AgreeClient(a, b) && AgreeClient(a', b)
    ensures a == a'
  {
  }

  // A v1alpha2 object has one v1alpha1 reading.
  lemma AgreementIsUnique(a: V1alpha1.Perses, a': V1alpha1.Perses, b: V1alpha2.Perses)
    requires AgreePerses(a, b) && AgreePerses(a', b)
    ensures a' == a.(typeMeta := a'.typeMeta)
  {
    hide AgreeClient;
    if b.spec.client.Some? { ClientsAgreeing(a.spec.client.value, a'.spec.client.value, b.spec.client.value); }
  }

  // ---- v1alpha1 -> v1alpha2 -> v1alpha1 ----

  // The exact result of the round trip, for every object.
  function PlainClient(c: V1alpha1.Client): V1alpha1.Client {
    c.(oauth := Lift(c.oauth, (o: V1alpha1.OAuth) => o.(authStyle := Truncate(o.authStyle))))
  }

  function PlainStorage(s: V1alpha1.Storage): V1alpha1.Storage {
    if s.size.IsZero() then s.(size := NO_QUANTITY) else s
  }

  function Plain(a: V1alpha1.Perses): V1alpha1.Perses {
    a.(spec := a.spec.(client := Lift(a.spec.client, PlainClient), storage := Lift(a.spec.storage, PlainStorage)))
  }

  lemma ClientTrip(a: V1alpha1.Client)
    ensures DownClient(UpClient(a)) == PlainClient(a)
    ensures PlainClient(a) == a <==> FitsClient(Some(a))
  {
    if a.oauth.Some? { TruncateFits(a.oauth.value.authStyle); }
  }

  lemma TlsTrip(a: V1alpha1.TLS)
    ensures DownTLS(UpTLS(a)) == a
  {
  }

  lemma PersesTrip(a: V1alpha1.Perses, out2: V1alpha2.Perses, out1: V1alpha1.Perses)
    ensures DownPerses(UpPerses(a, out2), out1) == Plain(a).(typeMeta := out1.typeMeta)
  {
    hide DownClient, UpClient, PlainClient, DownTLS, UpTLS;
    if a.spec.client.Some? { ClientTrip(a.spec.client.value); }
    if a.spec.tls.Some? { TlsTrip(a.spec.tls.value); }
  }

  /** The round trip is the identity, but for the type information, exactly on the objects whose
      OAuth style fits and whose zero size is plain; with sizes compared as amounts, the style
      alone decides. What the out parameters held before does not matter. */
  lemma PersesTripIsIdentity(a: V1alpha1.Perses, out2: V1alpha2.Perses, out1: V1alpha1.Perses)
    ensures DownPerses(UpPerses(a, out2), out1) == a.(typeMeta := out1.typeMeta) <==> FitsClient(a.spec.client) && PlainSize(a.spec.storage)
    ensures SameButForZeros(DownPerses(UpPerses(a, out2), out1), a) <==> FitsClient(a.spec.client)
  {
    hide DownPerses, UpPerses, PlainClient;
    PersesTrip(a, out2, out1);
    if a.spec.client.Some? { ClientTrip(a.spec.client.value); }
  }

  // Equal if sizes are compared as amounts.
  predicate SameButForZeros(a: V1alpha1.Perses, b: V1alpha1.Perses) {
    && Both(a.spec.storage, b.spec.storage, SameStorage)
    && a.(typeMeta := "", spec := a.spec.(storage := None)) == b.(typeMeta := "", spec := b.spec.(storage := None))
  }

  predicate SameStorage(s: V1alpha1.Storage, t: V1alpha1.Storage) {
    s.storageClass == t.storageClass && s.size.amount == t.size.amount
  }

  lemma DashboardTrip(a: V1alpha1.Dashboard, out2: V1alpha2.Dashboard, out1: V1alpha1.Dashboard)
    ensures DownDashboard(UpDashboard(a, out2), out1) == a.(typeMeta := out1.typeMeta)
  {
  }

  // A datasource loses its client, or gets the one that the out parameter happened to hold.
  lemma DatasourceTrip(a: V1alpha1.Datasource, out2: V1alpha2.Datasource, out1: V1alpha1.Datasource)
    ensures DownDatasource(UpDatasource(a, out2), out1) == a.(typeMeta := out1.typeMeta, spec := a.spec.(client := out1.spec.client))
    ensures DownDatasource(UpDatasource(a, out2), V1alpha1.NO_DATASOURCE) == a.(typeMeta := "") <==> a.spec.client.None?
  {
    hide UpClient;
  }

  // ---- v1alpha2 -> v1alpha1 -> v1alpha2 ----

  function NormalPerses(b: V1alpha2.Perses): V1alpha2.Perses {
    UpPerses(DownPerses(b, V1alpha1.NO_PERSES), V1alpha2.NO_PERSES)
  }

  lemma NormalFits(b: V1alpha2.Perses)
    ensures FitsClient(DownPerses(b, V1alpha1.NO_PERSES).spec.client)
  {
  }

  // What v1alpha2 can say and v1alpha1 cannot: absent pointers, a style of zero that is spelled
  // out, anything in a claim beyond class and size, an emptyDir, and all the added fields.
  predicate ExpressibleSource(s: V1alpha2.SecretSource) { s.name.Some? && s.namespace.Some? }

  predicate ExpressibleCertificate(c: V1alpha2.Certificate) { ExpressibleSource(c.source) && c.privateKeyPath.Some? }

  predicate ExpressibleTLS(t: V1alpha2.TLS) {
    && t.enable.Some? && t.insecureSkipVerify.Some?
    && (t.caCert.Some? ==> ExpressibleCertificate(t.caCert.value)) && (t.userCert.Some? ==> ExpressibleCertificate(t.userCert.value))
  }

  predicate ExpressibleOAuth(o: V1alpha2.OAuth) {
    ExpressibleSource(o.source) && o.clientIDPath.Some? && o.clientSecretPath.Some? && o.authStyle != Some(0)
  }

  predicate ExpressibleClient(c: V1alpha2.Client) {
    && (c.basicAuth.Some? ==> ExpressibleSource(c.basicAuth.value.source))
    && (c.oauth.Some? ==> ExpressibleOAuth(c.oauth.value))
    && (c.tls.Some? ==> ExpressibleTLS(c.tls.value))
    && (c.kubernetesAuth.Some? ==> c.kubernetesAuth.value.enable.Some?)
  }

  predicate ExpressibleStorage(s: V1alpha2.Storage) {
    && s.emptyDir.None?
    && match s.claim
       case None => true
       case Some(c) =>
         && c.rest == ""
         && (c.storage.Some? ==> !c.storage.value.IsZero())
         && (c.storage.None? ==> c.storageClass.Some?)
  }

  predicate ExpressibleSpec(s: V1alpha2.PersesSpec) {
    && (s.client.Some? ==> ExpressibleClient(s.client.value)) && s.containerPort.Some? && s.image.Some?
    && (s.service.Some? ==> s.service.value.name.Some?) && (s.tls.Some? ==> ExpressibleTLS(s.tls.value))
    && (s.storage.Some? ==> ExpressibleStorage(s.storage.value)) && s.serviceAccountName.Some? && s.added == V1alpha2.NOTHING_ADDED
  }

  predicate Expressible(b: V1alpha2.Perses) { b.typeMeta == "" && b.provisioning == "" && ExpressibleSpec(b.spec) }

  lemma NormalTLS(t: V1alpha2.TLS)
    ensures UpTLS(DownTLS(t)) == t <==> ExpressibleTLS(t)
  {
    hide UpSource, DownSource;
    if t.caCert.Some? { NormalSource(t.caCert.value.source); }
    if t.userCert.Some? { NormalSource(t.userCert.value.source); }
  }

  lemma NormalSource(s: V1alpha2.SecretSource)
    ensures UpSource(DownSource(s)) == s <==> ExpressibleSource(s)
  {
  }

  lemma NormalOAuth(o: V1alpha2.OAuth)
    ensures UpOAuth(DownOAuth(o, V1alpha1.NO_OAUTH), V1alpha2.NO_OAUTH) == o <==> ExpressibleOAuth(o)
  {
    hide UpSource, DownSource, ExpressibleSource;
    NormalSource(o.source);
    if o.authStyle.Some? { TruncateFits(o.authStyle.value); }
  }

  lemma NormalClient(c: V1alpha2.Client)
    ensures UpClient(DownClient(c)) == c <==> ExpressibleClient(c)
  {
    hide UpTLS, DownTLS, ExpressibleTLS, UpSource, DownSource, ExpressibleSource, UpOAuth, DownOAuth, ExpressibleOAuth;
    if c.tls.Some? { NormalTLS(c.tls.value); }
    if c.basicAuth.Some? { NormalSource(c.basicAuth.value.source); }
    if c.oauth.Some? { NormalOAuth(c.oauth.value); }
  }

  lemma NormalStorage(s: V1alpha2.Storage)
    ensures UpStorage(DownStorage(s, V1alpha1.NO_STORAGE), V1alpha2.NO_STORAGE) == s <==> ExpressibleStorage(s)
  {
  }

  // Nothing is lost exactly if v1alpha1 can express the object.
  lemma LosslessIffExpressible(b: V1alpha2.Perses)
    ensures NormalPerses(b) == b <==> Expressible(b)
  {
    hide UpTLS, DownTLS, ExpressibleTLS, UpClient, DownClient, ExpressibleClient, UpStorage, DownStorage, ExpressibleStorage;
    if b.spec.client.Some? { NormalClient(b.spec.client.value); }
    if b.spec.tls.Some? { NormalTLS(b.spec.tls.value); }
    if b.spec.storage.Some? { NormalStorage(b.spec.storage.value); }
  }

  lemma ZeroSizesLookAlike(a: V1alpha1.Perses, out: V1alpha2.Perses)
    ensures UpPerses(Plain(a), out) == UpPerses(a.(spec := a.spec.(client := Lift(a.spec.client, PlainClient))), out)
  {
    hide UpClient, PlainClient, UpTLS;
  }

  lemma PlainFitting(a: V1alpha1.Perses)
    requires FitsClient(a.spec.client)
    ensures Lift(a.spec.client, PlainClient) == a.spec.client
  {
    hide PlainClient;
    if a.spec.client.Some? { ClientTrip(a.spec.client.value); }
  }

  // Going down and up once more changes nothing further.
  lemma NormalIsIdempotent(b: V1alpha2.Perses)
    ensures NormalPerses(NormalPerses(b)) == NormalPerses(b)
  {
    hide UpPerses, DownPerses, Plain;
    var a := DownPerses(b, V1alpha1.NO_PERSES);
    NormalFits(b);
    PersesTrip(a, V1alpha2.NO_PERSES, V1alpha1.NO_PERSES);
    TypeOf(b);
    ZeroSizesLookAlike(a, V1alpha2.NO_PERSES);
    PlainFitting(a);
  }

  lemma TypeOf(b: V1alpha2.Perses)
    ensures var a := DownPerses(b, V1alpha1.NO_PERSES); a.typeMeta == "" && Plain(a).typeMeta == ""
  {
  }

  function NormalDashboard(b: V1alpha2.Dashboard): V1alpha2.Dashboard {
    UpDashboard(DownDashboard(b, V1alpha1.NO_DASHBOARD), V1alpha2.NO_DASHBOARD)
  }

  lemma DashboardsNormalise(b: V1alpha2.Dashboard)
    ensures NormalDashboard(NormalDashboard(b)) == NormalDashboard(b)
    ensures NormalDashboard(b) == b <==> b.typeMeta == "" && b.spec.instanceSelector == ""
  {
  }

  // ---- Lists ----

  // A round trip of a list loses what the round trips of its items lose, and nothing else.
  lemma ListTrip<A(!new), B(!new)>(a: List<A>, out2: List<B>, out1: List<A>, up: A -> B, down: B -> A, erase: A -> A, good: A -> bool)
    requires forall x :: down(up(x)) == erase(x) <==> good(x)
    ensures ConvertList(ConvertList(a, out2, up), out1, down) == List(out1.typeMeta, a.meta, Lift(a.items, (s: seq<A>) => MapSeq(s, erase))) <==>
      (a.items.Some? ==> forall i :: 0 <= i < |a.items.value| ==> good(a.items.value[i]))
  {
    if a.items.Some? {
      var s := a.items.value;
      var t, e := MapSeq(MapSeq(s, up), down), MapSeq(s, erase);
      assert ConvertList(ConvertList(a, out2, up), out1, down) == List(out1.typeMeta, a.meta, Some(t));
      assert forall i :: 0 <= i < |s| ==> t[i] == down(up(s[i]));
      if forall i :: 0 <= i < |s| ==> good(s[i]) {
        assert t == e;
      } else {
        var i :| 0 <= i < |s| && !good(s[i]);
        assert t[i] != e[i];
      }
    }
  }

  // Item by item, in the same order, with the list's own metadata.
  lemma ListsAreConverted<A, B>(a: List<A>, out: List<B>, f: A -> B)
    ensures var b := ConvertList(a, out, f);
      && b.meta == a.meta && b.typeMeta == out.typeMeta && (b.items.None? <==> a.items.None?)
      && (a.items.Some? ==> |b.items.value| == |a.items.value| && forall i :: 0 <= i < |a.items.value| ==> b.items.value[i] == f(a.items.value[i]))
  {
  }

  function Untyped(a: V1alpha1.Perses): V1alpha1.Perses { a.(typeMeta := "") }
  predicate FitsPerses(a: V1alpha1.Perses) { FitsClient(a.spec.client) && PlainSize(a.spec.storage) }

  lemma PersesListTrip(a: List<V1alpha1.Perses>, out2: List<V1alpha2.Perses>, out1: List<V1alpha1.Perses>)
    ensures ConvertList(ConvertList(a, out2, UpFreshPerses), out1, DownFreshPerses) ==
              List(out1.typeMeta, a.meta, Lift(a.items, (s: seq<V1alpha1.Perses>) => MapSeq(s, Untyped))) <==>
            (a.items.Some? ==> forall i :: 0 <= i < |a.items.value| ==> FitsPerses(a.items.value[i]))
  {
    hide UpPerses, DownPerses, FitsClient, PlainSize, ConvertList, SameButForZeros;
    forall x ensures DownFreshPerses(UpFreshPerses(x)) == Untyped(x) <==> FitsPerses(x) {
      PersesTripIsIdentity(x, V1alpha2.NO_PERSES, V1alpha1.NO_PERSES);
    }
    ListTrip(a, out2, out1, UpFreshPerses, DownFreshPerses, Untyped, FitsPerses);
  }

  lemma DashboardListTrip(a: List<V1alpha1.Dashboard>, out2: List<V1alpha2.Dashboard>, out1: List<V1alpha1.Dashboard>)
    ensures ConvertList(ConvertList(a, out2, UpFreshDashboard), out1, DownFreshDashboard) ==
      List(out1.typeMeta, a.meta, Lift(a.items, (s: seq<V1alpha1.Dashboard>) => MapSeq(s, (d: V1alpha1.Dashboard) => d.(typeMeta := ""))))
  {
    ListTrip(a, out2, out1, UpFreshDashboard, DownFreshDashboard, (d: V1alpha1.Dashboard) => d.(typeMeta := ""), (d: V1alpha1.Dashboard) => true);
  }

  lemma DatasourceListTrip(a: List<V1alpha1.Datasource>, out2: List<V1alpha2.Datasource>, out1: List<V1alpha1.Datasource>)
    ensures ConvertList(ConvertList(a, out2, UpFreshDatasource), out1, DownFreshDatasource) ==
              List(out1.typeMeta, a.meta, Lift(a.items, (s: seq<V1alpha1.Datasource>) => MapSeq(s, (d: V1alpha1.Datasource) => d.(typeMeta := "")))) <==>
            (a.items.Some? ==> forall i :: 0 <= i < |a.items.value| ==> a.items.value[i].spec.client.None?)
  {
    hide UpClient, ConvertList;
    forall x: V1alpha1.Datasource ensures DownFreshDatasource(UpFreshDatasource(x)) == x.(typeMeta := "") <==> x.spec.client.None? {
      DatasourceTrip(x, V1alpha2.NO_DATASOURCE, V1alpha1.NO_DATASOURCE);
    }
    ListTrip(a, out2, out1, UpFreshDatasource, DownFreshDatasource, (d: V1alpha1.Datasource) => d.(typeMeta := ""), (d: V1alpha1.Datasource) => d.spec.client.None?);
  }

  // ---- Out parameters that were used before ----

  // A style of zero takes over whatever style the out parameter held.
  lemma StaleStyle(a: V1alpha1.OAuth, out2: V1alpha2.OAuth, b: V1alpha2.OAuth, out1: V1alpha1.OAuth)
    ensures AgreeOAuth(a, UpOAuth(a, out2)) <==> (if a.authStyle == 0 then out2.authStyle.GetOr(0) == 0 else FitsInt32(a.authStyle))
    ensures AgreeOAuth(DownOAuth(b, out1), b) <==> b.authStyle.Some? || out1.authStyle == 0
  {
    TruncateFits(a.authStyle);
  }

  // An empty storage section keeps the claim of the out parameter, and a missing claim its class and size.
  lemma StaleStorage(a: V1alpha1.Storage, out2: V1alpha2.Storage, b: V1alpha2.Storage, out1: V1alpha1.Storage)
    requires PlainSize(Some(a))
    ensures AgreeStorage(a, UpStorage(a, out2)) <==>
      a.storageClass.Some? || !a.size.IsZero() || AgreeStorage(V1alpha1.NO_STORAGE, out2)
    ensures UpStorage(a, out2).emptyDir == out2.emptyDir
    ensures AgreeStorage(DownStorage(b, out1), b) <==>
      match b.claim
      case None => out1 == V1alpha1.NO_STORAGE
      case Some(c) => c.storage.Some? || out1.size == NO_QUANTITY
  {
  }
}
