/** Synchronising one custom resource into one Perses instance, and removing it again.
    The functions give the effect of a call for every pattern of answers; the methods of
    `Fleet` perform the same requests one after the other against mutable servers. */
module InstanceSync {
  import opened Wrappers
  import opened Backend

  datatype Effect = Effect(server: Server, calls: seq<Call>, outcome: Outcome) {
    function After(before: seq<Call>): Effect { Effect(server, before + calls, outcome) }
  }

  function Written(before: Server, after: Server, calls: seq<Call>, w: WriteReply): Effect {
    Effect(if w.Lands() then after else before, calls, if w.Ok() then Continue else Halt(BackendError))
  }

  function EnsureProject(b: Server, ns: string, a: Replies): Effect {
    if !a.projectRead then
      Effect(b, [GetProject(ns)], Halt(BackendError))
    else if ns in b.projects then
      Effect(b, [GetProject(ns)], Continue)
    else
      Written(b, b.(projects := b.projects + {ns}), [GetProject(ns), CreateProject(ns)], a.projectWrite)
  }

  function PutSecret(b: Server, ref: ObjRef, a: Replies): Effect {
    var s := ref.Secret();
    if a.credentials.None? then
      Effect(b, [], Halt(InvalidConfiguration))
    else if !a.secretRead then
      Effect(b, [GetSecret(s)], Halt(BackendError))
    else
      Written(b, b.(secrets := b.secrets[s := a.credentials.value]),
              [GetSecret(s), if s in b.secrets then UpdateSecret(s) else CreateSecret(s)], a.secretWrite)
  }

  function PutObject(b: Server, r: Resource, w: WriteReply): Effect {
    Written(b, b.(objects := b.objects[r.ref := r.doc]),
            [if r.ref in b.objects then UpdateObject(r.ref) else CreateObject(r.ref)], w)
  }

  function PutSecretThenObject(b: Server, r: Resource, a: Replies): Effect {
    if !r.NeedsSecret() then
      PutObject(b, r, a.objectWrite)
    else
      var s := PutSecret(b, r.ref, a);
      if s.outcome.Halt? then s else PutObject(s.server, r, a.objectWrite).After(s.calls)
  }

  function SyncObject(b: Server, r: Resource, a: Replies): Effect {
    if !a.objectRead then
      Effect(b, [GetObject(r.ref)], Halt(BackendError))
    else if b.Holds(r.ref, r.doc) then
      Effect(b, [GetObject(r.ref)], Continue)
    else
      var asked := [GetObject(r.ref), ValidateObject(r.ref)];
      match a.verdict
      case Rejected => Effect(b, asked, Halt(ValidationFailed))
      case ValidatorDown => Effect(b, asked, Halt(BackendError))
      case Accepted => PutSecretThenObject(b, r, a).After(asked)
  }

  function Sync(b: Server, r: Resource, a: Replies): Effect {
    if !a.client then
      Effect(b, [], Halt(ConnectionFailed))
    else if !r.ref.kind.InProject() then
      SyncObject(b, r, a)
    else
      var p := EnsureProject(b, r.ref.ns, a);
      if p.outcome.Halt? then p else SyncObject(p.server, r, a).After(p.calls)
  }

  function DropSecret(b: Server, ref: ObjRef, w: WriteReply): Effect {
    Written(b, b.(secrets := b.secrets - {ref.Secret()}), [DeleteSecret(ref.Secret())], w)
  }

  function DropObject(b: Server, ref: ObjRef, a: DeleteReplies): Effect {
    var e := Written(b, b.(objects := b.objects - {ref}), [DeleteObject(ref)], a.objectDelete);
    if e.outcome.Halt? || !ref.kind.MayNeedSecret() then e
    else DropSecret(e.server, ref, a.secretDelete).After(e.calls)
  }

  // A project that is missing is an error here, unlike in Sync.
  function Delete(b: Server, ref: ObjRef, a: DeleteReplies): Effect {
    if !a.client then
      Effect(b, [], Halt(ConnectionFailed))
    else if !ref.kind.InProject() then
      DropObject(b, ref, a)
    else if !a.projectRead || ref.ns !in b.projects then
      Effect(b, [GetProject(ref.ns)], Halt(BackendError))
    else
      DropObject(b, ref, a).After([GetProject(ref.ns)])
  }

  // ---- What one synchronisation guarantees ----

  predicate Settled(b: Server, r: Resource) {
    b.Holds(r.ref, r.doc) && (r.ref.kind.InProject() ==> r.ref.ns in b.projects)
  }

  predicate Silent(calls: seq<Call>) {
    forall j :: 0 <= j < |calls| ==> !calls[j].Writes()
  }

  lemma SyncSettles(b: Server, r: Resource, a: Replies)
    ensures Sync(b, r, a).outcome == Continue ==> Settled(Sync(b, r, a).server, r)
    ensures a.FaultFree() ==> Sync(b, r, a).outcome == Continue
  {
  }

  /** Whatever goes wrong, each of the three stores is unchanged or holds exactly the one
      new entry that belongs to the resource; dashboards never touch secrets and global
      datasources never touch projects. */
  predicate OnlyOwnEntries(b: Server, c: Server, r: Resource, a: Replies) {
    && (c.objects == b.objects || c.objects == b.objects[r.ref := r.doc])
    && (c.secrets == b.secrets
        || (r.NeedsSecret() && a.credentials.Some?
            && c.secrets == b.secrets[r.ref.Secret() := a.credentials.value]))
    && (c.projects == b.projects
        || (r.ref.kind.InProject() && c.projects == b.projects + {r.ref.ns}))
  }

  lemma SyncObjectFrame(b: Server, r: Resource, a: Replies)
    ensures var c := SyncObject(b, r, a).server; OnlyOwnEntries(b, c, r, a) && c.projects == b.projects
  {
  }

  lemma SyncFrame(b: Server, r: Resource, a: Replies)
    ensures OnlyOwnEntries(b, Sync(b, r, a).server, r, a)
  {
    SyncObjectFrame(b, r, a);
    SyncObjectFrame(EnsureProject(b, r.ref.ns, a).server, r, a);
  }

  // Two different resources never change each other's object or secret.
  lemma NonInterference(b: Server, r: Resource, a: Replies, other: ObjRef)
    requires other != r.ref
    ensures var c := Sync(b, r, a).server;
      && c.Copy(other) == b.Copy(other)
      && (other.kind.MayNeedSecret() ==> c.SecretCopy(other.Secret()) == b.SecretCopy(other.Secret()))
  {
    SyncFrame(b, r, a);
    if other.kind.MayNeedSecret() && r.NeedsSecret() { SecretNamesDistinct(other, r.ref); }
  }

  // A resource in sync is only read; in particular its secret is left alone.
  lemma SettledIsSilent(b: Server, r: Resource, a: Replies)
    requires Settled(b, r)
    ensures Sync(b, r, a).server == b && Silent(Sync(b, r, a).calls)
  {
  }

  lemma RejectedWritesNeither(b: Server, r: Resource, a: Replies)
    requires a.verdict != Accepted
    ensures var e := Sync(b, r, a);
      && e.server.objects == b.objects && e.server.secrets == b.secrets
      && (forall j :: 0 <= j < |e.calls| ==> !e.calls[j].PutsObject() && !e.calls[j].PutsSecret())
  {
    hide PutSecretThenObject;
  }

  // An object that needs credentials is sent only after its secret was stored by the same call.
  predicate SecretBeforeObject(e: Effect, r: Resource, a: Replies) {
    forall j :: 0 <= j < |e.calls| && e.calls[j].PutsObject() ==>
      && e.server.SecretCopy(r.ref.Secret()) == a.credentials
      && (exists i :: 0 <= i < j && e.calls[i].PutsSecret() && e.calls[i].secret == r.ref.Secret())
  }

  lemma SecretFirstHere(b: Server, r: Resource, a: Replies)
    requires r.NeedsSecret()
    ensures SecretBeforeObject(PutSecretThenObject(b, r, a), r, a)
  {
    var e, s := PutSecretThenObject(b, r, a), PutSecret(b, r.ref, a);
    if s.outcome == Continue {
      assert e.calls[1].PutsSecret() && e.calls[1].secret == r.ref.Secret();
    }
  }

  lemma PrefixKeepsOrder(e: Effect, before: seq<Call>, r: Resource, a: Replies)
    requires SecretBeforeObject(e, r, a)
    requires forall j :: 0 <= j < |before| ==> !before[j].PutsObject()
    ensures SecretBeforeObject(e.After(before), r, a)
  {
    var f := e.After(before);
    forall j | 0 <= j < |f.calls| && f.calls[j].PutsObject()
      ensures f.server.SecretCopy(r.ref.Secret()) == a.credentials
      ensures exists i :: 0 <= i < j && f.calls[i].PutsSecret() && f.calls[i].secret == r.ref.Secret()
    {
      assert e.calls[j - |before|].PutsObject();
      var i :| 0 <= i < j - |before| && e.calls[i].PutsSecret() && e.calls[i].secret == r.ref.Secret();
      assert f.calls[|before| + i] == e.calls[i];
    }
  }

  lemma SecretFirst(b: Server, r: Resource, a: Replies)
    requires r.NeedsSecret()
    ensures SecretBeforeObject(Sync(b, r, a), r, a)
  {
    var c := if r.ref.kind.InProject() then EnsureProject(b, r.ref.ns, a).server else b;
    var asked := [GetObject(r.ref), ValidateObject(r.ref)];
    SecretFirstHere(c, r, a);
    PrefixKeepsOrder(PutSecretThenObject(c, r, a), asked, r, a);
    PrefixKeepsOrder(SyncObject(c, r, a), EnsureProject(b, r.ref.ns, a).calls, r, a);
  }

  /** Credentials that change while the object itself stays the same are not propagated:
      after a successful call the stored secret is current exactly when the object was out
      of sync before, or the secret already was current. */
  lemma CredentialsCurrentIff(b: Server, r: Resource, a: Replies)
    requires r.NeedsSecret() && a.FaultFree()
    ensures var c := Sync(b, r, a).server;
      c.SecretCopy(r.ref.Secret()) == a.credentials
      <==> !b.Holds(r.ref, r.doc) || b.SecretCopy(r.ref.Secret()) == a.credentials
  {
  }

  // ---- Which requests are sent ----

  // Everything sent concerns the resource itself; creations go where nothing is, updates where
  // something is, and nothing is ever deleted.
  predicate Fits(c: Call, b: Server, r: Resource) {
    match c
    case GetProject(ns) => r.ref.kind.InProject() && ns == r.ref.ns
    case CreateProject(ns) => r.ref.kind.InProject() && ns == r.ref.ns && ns !in b.projects
    case GetObject(ref) => ref == r.ref
    case ValidateObject(ref) => ref == r.ref
    case CreateObject(ref) => ref == r.ref && ref !in b.objects
    case UpdateObject(ref) => ref == r.ref && ref in b.objects
    case GetSecret(secret) => r.NeedsSecret() && secret == r.ref.Secret()
    case CreateSecret(secret) => r.NeedsSecret() && secret == r.ref.Secret() && secret !in b.secrets
    case UpdateSecret(secret) => r.NeedsSecret() && secret == r.ref.Secret() && secret in b.secrets
    case DeleteObject(_) => false
    case DeleteSecret(_) => false
  }

  predicate AllFit(calls: seq<Call>, b: Server, r: Resource) { forall j :: 0 <= j < |calls| ==> Fits(calls[j], b, r) }

  lemma StoreCallsFit(b: Server, r: Resource, a: Replies)
    ensures AllFit(PutSecretThenObject(b, r, a).calls, b, r)
  {
  }

  lemma ObjectCallsFit(b: Server, r: Resource, a: Replies)
    ensures AllFit(SyncObject(b, r, a).calls, b, r)
  {
    hide PutSecretThenObject;
    StoreCallsFit(b, r, a);
  }

  // A project that was just created makes no difference to them.
  lemma FitsWithProject(c: Call, b: Server, r: Resource)
    ensures Fits(c, b.(projects := b.projects + {r.ref.ns}), r) ==> Fits(c, b, r)
  {
  }

  lemma SyncCallsFit(b: Server, r: Resource, a: Replies)
    ensures AllFit(Sync(b, r, a).calls, b, r)
  {
    hide SyncObject;
    ObjectCallsFit(b, r, a);
    if a.client && r.ref.kind.InProject() {
      var with := b.(projects := b.projects + {r.ref.ns});
      var calls := SyncObject(with, r, a).calls;
      ObjectCallsFit(with, r, a);
      forall j | 0 <= j < |calls| ensures Fits(calls[j], b, r) { FitsWithProject(calls[j], b, r); }
    }
  }

  // The requests of a synchronisation without faults, in their order.
  function ProjectCalls(b: Server, r: Resource): seq<Call> {
    if !r.ref.kind.InProject() then []
    else if r.ref.ns in b.projects then [GetProject(r.ref.ns)]
    else [GetProject(r.ref.ns), CreateProject(r.ref.ns)]
  }

  function SecretCalls(b: Server, r: Resource): seq<Call> {
    if !r.NeedsSecret() then []
    else [GetSecret(r.ref.Secret()),
          if r.ref.Secret() in b.secrets then UpdateSecret(r.ref.Secret()) else CreateSecret(r.ref.Secret())]
  }

  function ObjectCalls(b: Server, r: Resource): seq<Call> {
    [GetObject(r.ref)]
    + (if r.ref in b.objects && b.objects[r.ref] == r.doc then []
       else [ValidateObject(r.ref)] + SecretCalls(b, r) + [if r.ref in b.objects then UpdateObject(r.ref) else CreateObject(r.ref)])
  }

  lemma FaultFreeObjectCalls(b: Server, r: Resource, a: Replies)
    requires a.FaultFree()
    ensures SyncObject(b, r, a).calls == ObjectCalls(b, r)
  {
  }

  lemma FaultFreeCalls(b: Server, r: Resource, a: Replies)
    requires a.FaultFree()
    ensures Sync(b, r, a).calls == ProjectCalls(b, r) + ObjectCalls(b, r)
  {
    hide SyncObject;
    var p := if r.ref.kind.InProject() then EnsureProject(b, r.ref.ns, a).server else b;
    FaultFreeObjectCalls(p, r, a);
    assert ObjectCalls(p, r) == ObjectCalls(b, r);
  }

  // A write whose reply is lost is reported as a failure, but it is there.
  lemma LostRepliesLand(b: Server, r: Resource, a: Replies)
    requires a.(objectWrite := Applied).FaultFree() && !b.Holds(r.ref, r.doc)
    ensures a.objectWrite == LostReply ==> Sync(b, r, a).outcome == Halt(BackendError) && Sync(b, r, a).server.Holds(r.ref, r.doc)
    ensures a.objectWrite == Refused ==> Sync(b, r, a).outcome == Halt(BackendError) && Sync(b, r, a).server.objects == b.objects
  {
  }

  // ---- Which fault gives which reason ----

  predicate ProjectReady(b: Server, r: Resource, a: Replies) {
    r.ref.kind.InProject() ==> a.projectRead && (r.ref.ns in b.projects || a.projectWrite == Applied)
  }

  // The object was read, differs, and the server accepts it.
  predicate ReachesWrite(b: Server, r: Resource, a: Replies) {
    a.client && ProjectReady(b, r, a) && a.objectRead && !b.Holds(r.ref, r.doc) && a.verdict == Accepted
  }

  lemma ReasonsAre(b: Server, r: Resource, a: Replies)
    ensures Sync(b, r, a).outcome == Halt(ConnectionFailed) <==> !a.client
    ensures Sync(b, r, a).outcome == Halt(ValidationFailed) <==>
      a.client && ProjectReady(b, r, a) && a.objectRead && !b.Holds(r.ref, r.doc) && a.verdict == Rejected
    ensures Sync(b, r, a).outcome == Halt(InvalidConfiguration) <==> ReachesWrite(b, r, a) && r.NeedsSecret() && a.credentials.None?
    ensures Sync(b, r, a).outcome == Halt(BackendError) <==>
      && a.client
      && (|| !ProjectReady(b, r, a)
          || !a.objectRead
          || (!b.Holds(r.ref, r.doc) && a.verdict == ValidatorDown)
          || (ReachesWrite(b, r, a) && r.NeedsSecret() && a.credentials.Some? && (!a.secretRead || a.secretWrite != Applied))
          || (ReachesWrite(b, r, a) && (r.NeedsSecret() ==> a.credentials.Some? && a.secretRead && a.secretWrite == Applied)
              && a.objectWrite != Applied))
  {
  }

  // ---- What one deletion guarantees ----

  // A fault-free deletion succeeds exactly when the project of a namespaced object exists.
  lemma DeleteClears(b: Server, ref: ObjRef, a: DeleteReplies)
    ensures Delete(b, ref, a).outcome == Continue ==> Delete(b, ref, a).server.HoldsNothingOf(ref)
    ensures a.FaultFree() ==>
      (Delete(b, ref, a).outcome == Continue <==> (ref.kind.InProject() ==> ref.ns in b.projects))
  {
  }

  lemma DeleteFrame(b: Server, ref: ObjRef, a: DeleteReplies)
    ensures var c := Delete(b, ref, a).server;
      && c.projects == b.projects
      && (c.objects == b.objects || c.objects == b.objects - {ref})
      && (c.secrets == b.secrets || (ref.kind.MayNeedSecret() && c.secrets == b.secrets - {ref.Secret()}))
  {
  }

  // A deletion asks for the project of a namespaced object, then deletes the object and, where the
  // kind has one, the secret; any failure is a matter of the connection or the server.
  lemma DeleteCalls(b: Server, ref: ObjRef, a: DeleteReplies)
    ensures var e := Delete(b, ref, a);
      && (e.outcome == Halt(ConnectionFailed) <==> !a.client)
      && (e.outcome.Halt? && a.client ==> e.outcome == Halt(BackendError))
      && (e.outcome == Continue ==>
            e.calls == (if ref.kind.InProject() then [GetProject(ref.ns)] else [])
              + [DeleteObject(ref)] + (if ref.kind.MayNeedSecret() then [DeleteSecret(ref.Secret())] else []))
      && (forall j :: 0 <= j < |e.calls| ==>
            e.calls[j] == GetProject(ref.ns) || e.calls[j] == DeleteObject(ref) || e.calls[j] == DeleteSecret(ref.Secret()))
  {
  }

  lemma DeleteAgain(b: Server, ref: ObjRef, a: DeleteReplies, again: DeleteReplies)
    requires Delete(b, ref, a).outcome == Continue
    ensures var c := Delete(b, ref, a).server;
      Delete(c, ref, again).server == c && (again.FaultFree() ==> Delete(c, ref, again).outcome == Continue)
  {
    var c := Delete(b, ref, a).server;
    assert c.objects - {ref} == c.objects;
    assert ref.kind.MayNeedSecret() ==> c.secrets - {ref.Secret()} == c.secrets;
  }
}
