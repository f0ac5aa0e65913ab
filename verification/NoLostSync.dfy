/** No synchronisation is ever lost: the invariant of the controller's step system holds in
    every state of every run, and at rest everything is in sync. */
module NoLostSyncProof {
  import opened Wrappers
  import opened Backend
  import opened InstanceSync
  import opened SyncProtocol

  // A step that leaves the custom resources, the instances and the servers alone, moves only
  // key `k`, and leaves `k` due, or its reconcile fresh.
  lemma StepOnKey(s: State, t: State, k: Key)
    requires Inv(s)
    requires t == s.(pending := t.pending, known := t.known, dirty := t.dirty, delayed := t.delayed, works := t.works)
    requires forall q :: q != k ==>
      && (q in t.pending <==> q in s.pending) && (q in t.known <==> q in s.known)
      && (q in t.dirty <==> q in s.dirty) && (q in t.delayed <==> q in s.delayed)
      && (q in t.works <==> q in s.works) && (q in s.works ==> t.works[q] == s.works[q])
    requires k in t.crs ==> k in t.known || k in t.pending
    requires k in t.works && k in t.crs && Outdated(t.works[k], t.crs[k]) ==> k in t.dirty || k in t.pending
    requires forall id :: k in t.crs && id in t.instances && t.instances[id].available && t.Selects(k, id) ==> Covered(t, k, id)
    ensures Inv(t)
  {
    forall q, id | q in t.crs && id in t.instances && t.instances[id].available && t.Selects(q, id)
      ensures Covered(t, q, id)
    {
      assert s.Selects(q, id) && Covered(s, q, id);
      assert t.Ref(q) == s.Ref(q);
    }
  }

  lemma ApiAndInformer(s: State, e: Event)
    requires Inv(s) && Enabled(s, e)
    requires e.TouchCr? || e.Deliver? || e.DeliverEarly? || e.Promote? || e.Take? || e.ReadCr? || e.Abandon? || e.StopSilently?
    ensures Inv(Apply(s, e))
  {
    StepOnKey(s, Apply(s, e), e.key);
  }

  lemma CrChanges(s: State, e: Event)
    requires Inv(s) && Enabled(s, e) && (e.PutCr? || e.RemoveCr?)
    ensures Inv(Apply(s, e))
  {
    var t := Apply(s, e);
    forall q, id | q in t.crs && id in t.instances && t.instances[id].available && t.Selects(q, id)
      ensures Covered(t, q, id)
    {
      if q != e.key {
        assert s.Selects(q, id) && Covered(s, q, id);
        assert t.Ref(q) == s.Ref(q);
      }
    }
  }

  lemma InstanceChanges(s: State, e: Event)
    requires Inv(s) && Enabled(s, e) && Benign(s, e)
    requires e.AddInstance? || e.UpdateInstance? || e.RemoveInstance? || e.ForeignWrite?
    ensures Inv(Apply(s, e))
  {
    var t := Apply(s, e);
    assert t.crs == s.crs && t.works == s.works && t.pending == s.pending && t.known == s.known;
    forall q, id | q in t.crs && id in t.instances && t.instances[id].available && t.Selects(q, id)
      ensures Covered(t, q, id)
    {
      assert t.Ref(q) == s.Ref(q);
      if id != e.id || e.ForeignWrite? || (e.UpdateInstance? && s.instances[id].available) {
        assert s.Selects(q, id) && Covered(s, q, id);
        if e.ForeignWrite? { assert t.servers[e.id].Copy(s.Ref(q)) == s.servers[e.id].Copy(s.Ref(q)); }
      } else {
        assert e.UpdateInstance? && BecameAvailable(s.instances[id], e.instance);
        assert q in t.dirty || q in t.pending;
      }
    }
  }

  lemma Restarts(s: State)
    requires Inv(s)
    ensures Inv(Apply(s, Restart))
  {
  }

  lemma Lists(s: State, k: Key, order: seq<InstanceId>)
    requires Inv(s) && Enabled(s, List(k, order))
    ensures Inv(Apply(s, List(k, order)))
  {
    hide AfterVisit, AfterVisitDelete, AfterUpdate;
    var t := Apply(s, List(k, order));
    forall id | k in t.crs && id in t.instances && t.instances[id].available && t.Selects(k, id)
      ensures Covered(t, k, id)
    {
      assert s.Selects(k, id) && Covered(s, k, id);
      if Ahead(s.works[k], s.crs[k], id) && !Queued(t, k) {
        assert id in MatchingIds(s, s.works[k]);
        var i :| 0 <= i < |order| && order[i] == id;
        assert t.works[k].todo[i] == Listed(id, true);
      }
    }
    StepOnKey(s, t, k);
  }

  lemma Finishes(s: State, k: Key)
    requires Inv(s) && Enabled(s, Finish(k))
    ensures Inv(Apply(s, Finish(k)))
  {
    var t := Apply(s, Finish(k));
    forall id | k in t.crs && id in t.instances && t.instances[id].available && t.Selects(k, id)
      ensures Covered(t, k, id)
    {
      assert s.Selects(k, id) && Covered(s, k, id);
      assert !Ahead(s.works[k], s.crs[k], id);
    }
    StepOnKey(s, t, k);
  }

  // Contacting one instance for `k` leaves every other key's copy there alone.
  lemma OtherCopiesKept(s: State, t: State, k: Key, id: InstanceId, q: Key)
    requires s.servers.Keys == t.servers.Keys && id in s.servers && t.kind == s.kind
    requires t.servers == s.servers[id := t.servers[id]]
    requires forall ref :: ref != s.Ref(k) ==> t.servers[id].Copy(ref) == s.servers[id].Copy(ref)
    requires q != k
    ensures forall i, d :: i in s.servers ==> (t.servers[i].Holds(t.Ref(q), d) <==> s.servers[i].Holds(s.Ref(q), d))
  {
    assert s.Ref(q) != s.Ref(k);
    assert t.servers[id].Copy(s.Ref(q)) == s.servers[id].Copy(s.Ref(q));
  }

  /** A step of `k`'s reconcile that may have written `k`'s copy on one instance: other keys keep
      their copies, and `k` itself is fine if it is due or its reconcile has moved on correctly. */
  lemma WroteOneCopy(s: State, t: State, k: Key, id: InstanceId)
    requires Inv(s) && k in s.works && id in s.servers
    requires t == s.(servers := t.servers, delayed := t.delayed, works := t.works)
    requires s.servers.Keys == t.servers.Keys && t.servers == s.servers[id := t.servers[id]]
    requires forall ref :: ref != s.Ref(k) ==> t.servers[id].Copy(ref) == s.servers[id].Copy(ref)
    requires forall q :: q != k ==>
      && (q in t.delayed <==> q in s.delayed) && (q in t.works <==> q in s.works)
      && (q in s.works ==> t.works[q] == s.works[q])
    requires k in t.works && k in t.crs && Outdated(t.works[k], t.crs[k]) ==> k in t.dirty || k in t.pending
    requires forall i :: k in t.crs && i in t.instances && t.instances[i].available && t.Selects(k, i) ==> Covered(t, k, i)
    ensures Inv(t)
  {
    forall q, i | q in t.crs && i in t.instances && t.instances[i].available && t.Selects(q, i)
      ensures Covered(t, q, i)
    {
      assert s.Selects(q, i) && Covered(s, q, i);
      if q != k { OtherCopiesKept(s, t, k, id, q); }
    }
  }

  // A visit without faults to an available instance leaves the document that was read, under the
  // key's namespace and name, and with it the credentials if its client needs them.
  lemma VisitDelivers(s: State, k: Key, a: Replies)
    requires Enabled(s, Visit(k, a)) && a.FaultFree() && s.works[k].todo[0].available && s.works[k].todo[0].id in s.servers
    ensures var cr, id := s.works[k].cr, s.works[k].todo[0].id; var ref := ObjRef(s.kind, k.ns, k.name);
      var b, c := s.servers[id], Apply(s, Visit(k, a)).servers[id];
      && ref in c.objects && c.objects[ref] == cr.doc
      && (cr.clientHasSecret && s.kind != DashboardKind && !(ref in b.objects && b.objects[ref] == cr.doc) ==>
            var secret := SecretRef(s.kind == GlobalDatasourceKind, k.ns, k.name + "-secret");
            secret in c.secrets && Some(c.secrets[secret]) == a.credentials)
  {
    var r := s.Wanted(k, s.works[k].cr);
    SyncSettles(s.servers[s.works[k].todo[0].id], r, a);
    KindsAre(r);
    if r.NeedsSecret() { CredentialsCurrentIff(s.servers[s.works[k].todo[0].id], r, a); }
  }

  lemma Visits(s: State, k: Key, a: Replies)
    requires Inv(s) && Enabled(s, Visit(k, a))
    ensures Inv(Apply(s, Visit(k, a)))
  {
    hide Sync;
    var t := Apply(s, Visit(k, a));
    var Syncing(cr, todo) := s.works[k];
    var id := todo[0].id;
    if !todo[0].available || id !in s.servers {
      forall i | k in t.crs && i in t.instances && t.instances[i].available && t.Selects(k, i)
        ensures Covered(t, k, i)
      {
        assert s.Selects(k, i) && Covered(s, k, i);
      }
      StepOnKey(s, t, k);
    } else {
      var r := s.Wanted(k, cr);
      SyncSettles(s.servers[id], r, a);
      SyncFrame(s.servers[id], r, a);
      assert forall ref :: ref != s.Ref(k) ==> t.servers[id].Copy(ref) == s.servers[id].Copy(ref);
      forall i | k in t.crs && i in t.instances && t.instances[i].available && t.Selects(k, i)
        ensures Covered(t, k, i)
      {
        assert s.Selects(k, i) && Covered(s, k, i);
      }
      WroteOneCopy(s, t, k, id);
    }
  }

  lemma Deletes(s: State, k: Key, a: DeleteReplies)
    requires Inv(s) && Enabled(s, VisitDelete(k, a))
    ensures Inv(Apply(s, VisitDelete(k, a)))
  {
    hide Delete;
    var t := Apply(s, VisitDelete(k, a));
    var id := s.works[k].left[0];
    assert k in t.crs ==> k in t.dirty || k in t.pending;
    if id !in s.servers {
      StepOnKey(s, t, k);
    } else {
      DeleteFrame(s.servers[id], s.Ref(k), a);
      WroteOneCopy(s, t, k, id);
    }
  }

  // Every step keeps the invariant.
  lemma StepKeepsInv(s: State, e: Event)
    requires Inv(s) && Enabled(s, e) && Benign(s, e)
    ensures Inv(Apply(s, e))
  {
    hide Apply, Inv, Benign;
    match e
    case PutCr(_, _) => CrChanges(s, e);
    case RemoveCr(_) => CrChanges(s, e);
    case AddInstance(_, _, _) => InstanceChanges(s, e);
    case UpdateInstance(_, _, _) => InstanceChanges(s, e);
    case RemoveInstance(_) => InstanceChanges(s, e);
    case ForeignWrite(_, _) => InstanceChanges(s, e);
    case Restart => Restarts(s);
    case List(k, order) => Lists(s, k, order);
    case Visit(k, a) => Visits(s, k, a);
    case Finish(k) => Finishes(s, k);
    case VisitDelete(k, a) => Deletes(s, k, a);
    case _ => ApiAndInformer(s, e);
  }

  lemma {:induction false} RunKeepsInv(s: State, run: seq<Event>)
    requires Inv(s) && IsRun(s, run)
    ensures Inv(End(s, run))
    decreases |run|
  {
    if run != [] {
      StepKeepsInv(s, run[0]);
      RunKeepsInv(Apply(s, run[0]), run[1..]);
    }
  }

  // Main result: in every state that any run reaches from the empty system, no synchronisation is lost.
  lemma NothingIsLost(kind: Kind, run: seq<Event>)
    requires IsRun(Initial(kind), run)
    ensures NoLostSync(End(Initial(kind), run))
  {
    RunKeepsInv(Initial(kind), run);
  }

  predicate AtRest(s: State) {
    s.dirty == {} && s.delayed == {} && s.pending == {} && s.works == map[]
  }

  ghost predicate AllInSync(s: State) {
    forall k, id :: k in s.crs && id in s.instances && s.instances[id].available && s.Selects(k, id) ==>
      id in s.servers && s.servers[id].Holds(s.Ref(k), s.crs[k].doc)
  }

  // Whenever the queue has drained, every available selected instance holds the current copy.
  lemma RestMeansInSync(kind: Kind, run: seq<Event>)
    requires IsRun(Initial(kind), run) && AtRest(End(Initial(kind), run))
    ensures AllInSync(End(Initial(kind), run))
  {
    var s := End(Initial(kind), run);
    NothingIsLost(kind, run);
    forall k, id | k in s.crs && id in s.instances && s.instances[id].available && s.Selects(k, id)
      ensures id in s.servers && s.servers[id].Holds(s.Ref(k), s.crs[k].doc)
    {
      assert Covered(s, k, id);
    }
  }
}
