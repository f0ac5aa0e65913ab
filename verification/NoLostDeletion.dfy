/** No deletion is lost either, with an exact account of the copies that stay behind: those that an
    instance brings along or somebody else writes after the deletion has listed the instances, and
    those of custom resources removed before a restart. Every run counts, faults included. */
module NoLostDeletion {
  import opened Wrappers
  import opened Backend
  import opened InstanceSync
  import opened SyncProtocol
  import opened NoLostSyncProof

  // What one key has on one instance: its object, or its secret, or both.
  datatype Copy = Copy(key: Key, id: InstanceId)

  predicate HeldBy(server: Server, kind: Kind, k: Key) { !server.HoldsNothingOf(ObjRef(kind, k.ns, k.name)) }

  predicate Held(s: State, k: Key, id: InstanceId) { id in s.servers && HeldBy(s.servers[id], s.kind, k) }

  ghost function CopiesOn(kind: Kind, id: InstanceId, server: Server): iset<Copy> {
    iset c: Copy | c.id == id && HeldBy(server, kind, c.key)
  }

  ghost function RemovedCopies(s: State): iset<Copy> {
    iset c: Copy | Held(s, c.key, c.id) && c.key !in s.crs
  }

  // The copies that no deletion will look for.
  ghost function Strays(s: State, strays: iset<Copy>, e: Event): iset<Copy>
    requires Enabled(s, e)
  {
    match e
    case AddInstance(id, _, server) => strays + CopiesOn(s.kind, id, server)
    case ForeignWrite(id, server) => strays + (CopiesOn(s.kind, id, server) - CopiesOn(s.kind, id, s.servers[id]))
    case Restart => strays + RemovedCopies(s)
    case List(k, _) => if s.works[k].FoundGone? then iset c: Copy | c in strays && c.key != k else strays
    case _ => strays
  }

  predicate DeletionAhead(w: Work, id: InstanceId) {
    match w
    case Started => true
    case FoundGone => true
    case Deleting(left) => id in left
    case _ => false
  }

  ghost predicate Accounted(s: State, strays: iset<Copy>, k: Key, id: InstanceId) {
    Queued(s, k) || (k in s.works && DeletionAhead(s.works[k], id)) || Copy(k, id) in strays
  }

  ghost predicate NoneLost(s: State, strays: iset<Copy>) {
    forall k, id :: k !in s.crs && Held(s, k, id) ==> Accounted(s, strays, k, id)
  }

  predicate StillReading(w: Work) { w.HasCr? || w.Syncing? }

  // A reconcile that works on a removed custom resource will be followed by another one.
  predicate RemovalIsDue(s: State) {
    forall k :: k in s.works && k !in s.crs && StillReading(s.works[k]) ==> k in s.dirty || k in s.pending
  }

  ghost predicate Inv(s: State, strays: iset<Copy>) {
    s.servers.Keys == s.instances.Keys && RemovalIsDue(s) && NoneLost(s, strays)
  }

  // A step that leaves the servers alone and moves only key `k`.
  lemma StepOfKey(s: State, t: State, strays: iset<Copy>, strays': iset<Copy>, k: Key)
    requires Inv(s, strays) && t == s.(crs := t.crs, pending := t.pending, known := t.known, dirty := t.dirty, delayed := t.delayed, works := t.works)
    requires forall q :: q != k ==>
      && (q in t.crs <==> q in s.crs) && (q in t.pending <==> q in s.pending) && (q in t.dirty <==> q in s.dirty)
      && (q in t.delayed <==> q in s.delayed) && (q in t.works <==> q in s.works) && (q in s.works ==> t.works[q] == s.works[q])
    requires forall c :: c in strays && c.key != k ==> c in strays'
    requires k in t.works && k !in t.crs && StillReading(t.works[k]) ==> k in t.dirty || k in t.pending
    requires forall id :: k !in t.crs && Held(s, k, id) ==> Accounted(t, strays', k, id)
    ensures Inv(t, strays')
  {
    forall q, id | q !in t.crs && Held(t, q, id) ensures Accounted(t, strays', q, id) {
      assert Held(s, q, id);
      if q != k { assert Accounted(s, strays, q, id); }
    }
  }

  lemma KeySteps(s: State, strays: iset<Copy>, e: Event)
    requires Inv(s, strays) && Enabled(s, e)
    requires e.PutCr? || e.RemoveCr? || e.TouchCr? || e.Deliver? || e.DeliverEarly? || e.Promote? || e.Take? || e.ReadCr?
      || e.Finish? || e.Abandon? || e.StopSilently?
    ensures Inv(Apply(s, e), Strays(s, strays, e))
  {
    var t := Apply(s, e);
    forall id | e.key !in t.crs && Held(s, e.key, id) ensures Accounted(t, strays, e.key, id) {
      if e.key !in s.crs { assert Accounted(s, strays, e.key, id); }
    }
    StepOfKey(s, t, strays, strays, e.key);
  }

  // The list of a deletion names every instance there is, so no copy is a stray any longer.
  lemma ListsToDelete(s: State, strays: iset<Copy>, k: Key, order: seq<InstanceId>)
    requires Inv(s, strays) && Enabled(s, List(k, order)) && s.works[k].FoundGone?
    ensures Inv(s.At(k, Deleting(order)), iset c: Copy | c in strays && c.key != k)
  {
    hide HeldBy;
    var t, strays' := s.At(k, Deleting(order)), iset c: Copy | c in strays && c.key != k;
    forall id | k !in t.crs && Held(s, k, id) ensures Accounted(t, strays', k, id) {
      assert id in MatchingIds(s, s.works[k]);
    }
    StepOfKey(s, t, strays, strays', k);
  }

  // A reconcile of the present custom resource moves on or fails.
  lemma StillDue(s: State, strays: iset<Copy>, k: Key, w: Work)
    requires Inv(s, strays) && k in s.works && StillReading(s.works[k]) && StillReading(w)
    ensures Inv(s.At(k, w), strays) && Inv(s.Fail(k), strays)
  {
    hide HeldBy;
    StepOfKey(s, s.At(k, w), strays, strays, k);
    StepOfKey(s, s.Fail(k), strays, strays, k);
  }

  lemma Lists(s: State, strays: iset<Copy>, k: Key, order: seq<InstanceId>)
    requires Inv(s, strays) && Enabled(s, List(k, order))
    ensures Inv(Apply(s, List(k, order)), Strays(s, strays, List(k, order)))
  {
    hide Inv, Held;
    if s.works[k].FoundGone? {
      ListsToDelete(s, strays, k, order);
    } else {
      StillDue(s, strays, k, Syncing(s.works[k].cr, Snapshot(s, order)));
    }
  }

  // A step that touches one server at most in `k`'s own object and moves only `k`'s reconcile.
  lemma OneServer(s: State, t: State, strays: iset<Copy>, k: Key, id: InstanceId)
    requires Inv(s, strays) && k in s.works && id in s.servers
    requires t == s.(servers := t.servers, delayed := t.delayed, works := t.works)
    requires s.servers.Keys == t.servers.Keys && t.servers == s.servers[id := t.servers[id]]
    requires forall q :: q != k ==> (HeldBy(t.servers[id], s.kind, q) <==> HeldBy(s.servers[id], s.kind, q))
    requires forall q :: q != k ==>
      && (q in t.delayed <==> q in s.delayed) && (q in t.works <==> q in s.works)
      && (q in s.works ==> t.works[q] == s.works[q])
    requires k in t.works && k !in t.crs && StillReading(t.works[k]) ==> k in t.dirty || k in t.pending
    requires forall i :: k !in t.crs && Held(t, k, i) ==> Accounted(t, strays, k, i)
    ensures Inv(t, strays)
  {
    forall q, i | q !in t.crs && Held(t, q, i) ensures Accounted(t, strays, q, i) {
      if q != k {
        assert Held(s, q, i) && Accounted(s, strays, q, i);
      }
    }
  }

  lemma SyncLeavesOthers(b: Server, r: Resource, a: Replies, other: ObjRef)
    requires other != r.ref
    ensures Sync(b, r, a).server.HoldsNothingOf(other) <==> b.HoldsNothingOf(other)
  {
    hide Sync;
    NonInterference(b, r, a, other);
  }

  lemma DeleteLeavesOthers(b: Server, ref: ObjRef, a: DeleteReplies, other: ObjRef)
    requires other != ref
    ensures Delete(b, ref, a).server.HoldsNothingOf(other) <==> b.HoldsNothingOf(other)
  {
    hide Delete;
    DeleteFrame(b, ref, a);
    if other.kind.MayNeedSecret() && ref.kind.MayNeedSecret() { SecretNamesDistinct(other, ref); }
  }

  lemma DeleteAddsNothing(b: Server, ref: ObjRef, a: DeleteReplies)
    ensures b.HoldsNothingOf(ref) ==> Delete(b, ref, a).server.HoldsNothingOf(ref)
  {
    hide Delete;
    DeleteFrame(b, ref, a);
  }

  lemma Visits(s: State, strays: iset<Copy>, k: Key, a: Replies)
    requires Inv(s, strays) && Enabled(s, Visit(k, a))
    ensures Inv(Apply(s, Visit(k, a)), strays)
  {
    hide Sync;
    var t := Apply(s, Visit(k, a));
    var id := s.works[k].todo[0].id;
    assert k !in s.crs ==> k in t.dirty || k in t.pending;
    if !s.works[k].todo[0].available || id !in s.servers {
      StepOfKey(s, t, strays, strays, k);
    } else {
      forall q | q != k ensures HeldBy(t.servers[id], s.kind, q) <==> HeldBy(s.servers[id], s.kind, q) {
        SyncLeavesOthers(s.servers[id], s.Wanted(k, s.works[k].cr), a, s.Ref(q));
      }
      OneServer(s, t, strays, k, id);
    }
  }

  // Where a deletion has passed nothing is left.
  lemma Deletes(s: State, strays: iset<Copy>, k: Key, a: DeleteReplies)
    requires Inv(s, strays) && Enabled(s, VisitDelete(k, a))
    ensures Inv(Apply(s, VisitDelete(k, a)), strays)
  {
    hide Delete;
    var t := Apply(s, VisitDelete(k, a));
    var left := s.works[k].left;
    if left[0] !in s.servers {
      StepOfKey(s, t, strays, strays, k);
    } else {
      DeleteClears(s.servers[left[0]], s.Ref(k), a);
      DeleteAddsNothing(s.servers[left[0]], s.Ref(k), a);
      forall q | q != k ensures HeldBy(t.servers[left[0]], s.kind, q) <==> HeldBy(s.servers[left[0]], s.kind, q) {
        DeleteLeavesOthers(s.servers[left[0]], s.Ref(k), a, s.Ref(q));
      }
      forall i | k !in t.crs && Held(t, k, i) ensures Accounted(t, strays, k, i) {
        assert Held(s, k, i) && Accounted(s, strays, k, i);
      }
      OneServer(s, t, strays, k, left[0]);
    }
  }

  lemma InstanceSteps(s: State, strays: iset<Copy>, e: Event)
    requires Inv(s, strays) && Enabled(s, e)
    requires e.AddInstance? || e.UpdateInstance? || e.RemoveInstance? || e.ForeignWrite?
    ensures Inv(Apply(s, e), Strays(s, strays, e))
  {
    var t, strays' := Apply(s, e), Strays(s, strays, e);
    forall k, id | k !in t.crs && Held(t, k, id) ensures Accounted(t, strays', k, id) {
      if Held(s, k, id) && !e.AddInstance? {
        assert Accounted(s, strays, k, id);
      } else if id == e.id {
        assert Copy(k, id) in CopiesOn(s.kind, id, e.server);
      } else {
        assert Held(s, k, id) && Accounted(s, strays, k, id);
      }
    }
  }

  lemma Restarts(s: State, strays: iset<Copy>)
    requires Inv(s, strays)
    ensures Inv(Apply(s, Restart), Strays(s, strays, Restart))
  {
    var t := Apply(s, Restart);
    forall k, id | k !in t.crs && Held(t, k, id) ensures Copy(k, id) in RemovedCopies(s) { }
  }

  lemma StepKeepsInv(s: State, strays: iset<Copy>, e: Event)
    requires Inv(s, strays) && Enabled(s, e)
    ensures Inv(Apply(s, e), Strays(s, strays, e))
  {
    hide Apply, Inv;
    match e
    case AddInstance(_, _, _) => InstanceSteps(s, strays, e);
    case UpdateInstance(_, _, _) => InstanceSteps(s, strays, e);
    case RemoveInstance(_) => InstanceSteps(s, strays, e);
    case ForeignWrite(_, _) => InstanceSteps(s, strays, e);
    case Restart => Restarts(s, strays);
    case List(k, order) => Lists(s, strays, k, order);
    case Visit(k, a) => Visits(s, strays, k, a);
    case VisitDelete(k, a) => Deletes(s, strays, k, a);
    case _ => KeySteps(s, strays, e);
  }

  // ---- Over all runs ----

  ghost predicate AnyRun(s: State, run: seq<Event>)
    decreases |run|
  {
    run == [] || (Enabled(s, run[0]) && AnyRun(Apply(s, run[0]), run[1..]))
  }

  // The state at the end and the strays collected on the way.
  ghost function Outcome(s: State, strays: iset<Copy>, run: seq<Event>): (State, iset<Copy>)
    requires AnyRun(s, run)
    decreases |run|
  {
    if run == [] then (s, strays) else Outcome(Apply(s, run[0]), Strays(s, strays, run[0]), run[1..])
  }

  lemma {:induction false} RunsKeepInv(s: State, strays: iset<Copy>, run: seq<Event>)
    requires Inv(s, strays) && AnyRun(s, run)
    ensures var (t, left) := Outcome(s, strays, run); Inv(t, left)
    decreases |run|
  {
    hide Apply, Inv, Strays;
    if run != [] {
      StepKeepsInv(s, strays, run[0]);
      RunsKeepInv(Apply(s, run[0]), Strays(s, strays, run[0]), run[1..]);
    }
  }

  /** In every state of every run, a copy of a removed custom resource is a stray, or its deletion
      is due, or under way with that instance still ahead. */
  lemma NoDeletionIsLost(kind: Kind, run: seq<Event>)
    requires AnyRun(Initial(kind), run)
    ensures var (t, strays) := Outcome(Initial(kind), iset{}, run); NoneLost(t, strays)
  {
    RunsKeepInv(Initial(kind), iset{}, run);
  }

  // Once the queue has drained, only strays are left behind, and nothing will look for them.
  lemma LeftBehind(kind: Kind, run: seq<Event>, k: Key, id: InstanceId)
    requires AnyRun(Initial(kind), run)
    requires var (t, strays) := Outcome(Initial(kind), iset{}, run); AtRest(t) && k !in t.crs
    ensures var (t, strays) := Outcome(Initial(kind), iset{}, run);
      Held(t, k, id) ==> Copy(k, id) in strays && !Accounted(t, strays - iset{Copy(k, id)}, k, id)
  {
    NoDeletionIsLost(kind, run);
  }

  /** A restart forgets deletions: none of a removed custom resource is due afterwards, so what is
      there then survives it exactly if no instance holds a copy of one. */
  lemma RestartForgets(s: State)
    requires s.servers.Keys == s.instances.Keys
    ensures NoneLost(Apply(s, Restart), iset{}) <==> forall k, id :: Held(s, k, id) ==> k in s.crs
  {
    var t := Apply(s, Restart);
    forall k, id ensures Held(t, k, id) <==> Held(s, k, id) { }
    if NoneLost(t, iset{}) {
      forall k, id | Held(s, k, id) ensures k in s.crs {
        assert k !in s.crs ==> !Accounted(t, iset{}, k, id);
      }
    }
  }
}
