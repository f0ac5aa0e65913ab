/** One Perses server as the operator sees it through its REST API: projects, stored
    objects and stored secrets, the requests that reach it, and the answers it may give.
    Dashboards, datasources and global datasources share one shape. */
module Backend {
  import opened Wrappers

  datatype Kind = DashboardKind | DatasourceKind | GlobalDatasourceKind {
    // Only namespaced kinds live in a project.
    predicate InProject() { this != GlobalDatasourceKind }
    // Only datasources carry client credentials.
    predicate MayNeedSecret() { this != DashboardKind }
  }

  // The part of an object that the in-sync comparison looks at.
  datatype Doc = Doc(tags: map<string, string>, spec: string)

  type Payload = string

  datatype ObjRef = ObjRef(kind: Kind, ns: string, name: string) {
    function Secret(): SecretRef { SecretRef(kind == GlobalDatasourceKind, ns, name + SECRET_SUFFIX) }
  }

  datatype SecretRef = SecretRef(global: bool, ns: string, name: string)

  const SECRET_SUFFIX := "-secret"

  datatype Server = Server(projects: set<string>, objects: map<ObjRef, Doc>, secrets: map<SecretRef, Payload>) {
    predicate Holds(ref: ObjRef, doc: Doc) { ref in objects && objects[ref] == doc }
    function Copy(ref: ObjRef): Option<Doc> { if ref in objects then Some(objects[ref]) else None }
    function SecretCopy(ref: SecretRef): Option<Payload> { if ref in secrets then Some(secrets[ref]) else None }
    predicate HoldsNothingOf(ref: ObjRef) {
      ref !in objects && (ref.kind.MayNeedSecret() ==> ref.Secret() !in secrets)
    }
  }

  const EMPTY_SERVER := Server({}, map[], map[])

  // What the operator wants stored: the object and whether its client section needs a secret.
  datatype Resource = Resource(ref: ObjRef, doc: Doc, clientHasSecret: bool) {
    predicate NeedsSecret() { ref.kind.MayNeedSecret() && clientHasSecret }
  }

  datatype Call =
    | GetProject(ns: string)
    | CreateProject(ns: string)
    | GetObject(ref: ObjRef)
    | ValidateObject(ref: ObjRef)
    | CreateObject(ref: ObjRef)
    | UpdateObject(ref: ObjRef)
    | DeleteObject(ref: ObjRef)
    | GetSecret(secret: SecretRef)
    | CreateSecret(secret: SecretRef)
    | UpdateSecret(secret: SecretRef)
    | DeleteSecret(secret: SecretRef)
  {
    predicate PutsObject() { CreateObject? || UpdateObject? }
    predicate PutsSecret() { CreateSecret? || UpdateSecret? }
    predicate Writes() { PutsObject() || PutsSecret() || CreateProject? || DeleteObject? || DeleteSecret? }
  }

  // A write may be applied, refused, or applied although the answer is an error (a lost reply).
  datatype WriteReply = Applied | Refused | LostReply {
    predicate Ok() { Applied? }
    predicate Lands() { !Refused? }
  }

  datatype Verdict = Accepted | Rejected | ValidatorDown

  /** Everything the outside world answers during one synchronisation of one instance.
      `credentials` is the secret content looked up in Kubernetes, None when that fails. */
  datatype Replies = Replies(
    client: bool,
    projectRead: bool,
    projectWrite: WriteReply,
    objectRead: bool,
    verdict: Verdict,
    credentials: Option<Payload>,
    secretRead: bool,
    secretWrite: WriteReply,
    objectWrite: WriteReply)
  {
    predicate FaultFree() {
      client && projectRead && projectWrite.Ok() && objectRead && verdict == Accepted
      && credentials.Some? && secretRead && secretWrite.Ok() && objectWrite.Ok()
    }
  }

  // Everything the outside world answers while one object is deleted from one instance.
  datatype DeleteReplies = DeleteReplies(
    client: bool, projectRead: bool, objectDelete: WriteReply, secretDelete: WriteReply)
  {
    predicate FaultFree() { client && projectRead && objectDelete.Ok() && secretDelete.Ok() }
  }

  datatype Reason = ConnectionFailed | BackendError | ValidationFailed | InvalidConfiguration

  datatype Outcome = Continue | Halt(reason: Reason)

  // What each kind comes with.
  lemma KindsAre(r: Resource)
    ensures r.ref.kind.InProject() <==> r.ref.kind == DashboardKind || r.ref.kind == DatasourceKind
    ensures r.NeedsSecret() <==> r.clientHasSecret && (r.ref.kind == DatasourceKind || r.ref.kind == GlobalDatasourceKind)
    ensures r.ref.Secret() == SecretRef(r.ref.kind == GlobalDatasourceKind, r.ref.ns, r.ref.name + "-secret")
  {
  }

  // Distinct objects never share a secret name.
  lemma SecretNamesDistinct(a: ObjRef, b: ObjRef)
    requires a.kind.MayNeedSecret() && b.kind.MayNeedSecret()
    ensures a.Secret() == b.Secret() <==> a == b
  {
    if a.Secret() == b.Secret() {
      assert (a.name + SECRET_SUFFIX)[..|a.name|] == a.name;
      assert (b.name + SECRET_SUFFIX)[..|b.name|] == b.name;
    }
  }
}
