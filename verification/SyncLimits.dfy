/** Where the no-lost-sync property ends: the events that no watch
    reacts to, each with the exact condition under which the property survives it, and a run
    that shows the loss. */
module SyncLimits {
  import opened Wrappers
  import opened Backend
  import opened InstanceSync
  import opened SyncProtocol
  import opened NoLostSyncProof

  // Creation events are filtered out, so an instance first seen available is not synchronised
  // to: at rest the property survives exactly if the new server already holds every wanted copy.
  lemma FirstSeenAvailable(s: State, id: InstanceId, i: Instance, server: Server)
    requires Inv(s) && AtRest(s) && id !in s.instances && i.available
    ensures NoLostSync(Apply(s, AddInstance(id, i, server))) <==>
      forall k :: k in s.crs && s.crs[k].selector.Matches(i.labels) ==> server.Holds(s.Ref(k), s.crs[k].doc)
  {
    var t := Apply(s, AddInstance(id, i, server));
    if NoLostSync(t) {
      forall k | k in s.crs && s.crs[k].selector.Matches(i.labels)
        ensures server.Holds(s.Ref(k), s.crs[k].doc)
      {
        assert t.Selects(k, id) && Covered(t, k, id);
      }
    }
    if forall k :: k in s.crs && s.crs[k].selector.Matches(i.labels) ==> server.Holds(s.Ref(k), s.crs[k].doc) {
      forall k, j | k in t.crs && j in t.instances && t.instances[j].available && t.Selects(k, j)
        ensures Covered(t, k, j)
      {
        if j != id { assert s.Selects(k, j) && Covered(s, k, j); }
        assert t.Ref(k) == s.Ref(k);
      }
    }
  }

  // Relabelling an instance that stays available enqueues nothing, and neither does becoming
  // available when the list of custom resources fails.
  lemma InstanceUpdate(s: State, id: InstanceId, i: Instance, listOk: bool)
    requires Inv(s) && AtRest(s) && id in s.instances && i.available
    ensures NoLostSync(Apply(s, UpdateInstance(id, i, listOk))) <==>
      || (!s.instances[id].available && listOk)
      || (forall k :: k in s.crs && s.crs[k].selector.Matches(i.labels) ==>
            s.servers[id].Holds(s.Ref(k), s.crs[k].doc))
  {
    var t := Apply(s, UpdateInstance(id, i, listOk));
    var woken := !s.instances[id].available && listOk;
    if NoLostSync(t) && !woken {
      forall k | k in s.crs && s.crs[k].selector.Matches(i.labels)
        ensures s.servers[id].Holds(s.Ref(k), s.crs[k].doc)
      {
        assert t.Selects(k, id) && Covered(t, k, id);
      }
    }
    if woken || forall k :: k in s.crs && s.crs[k].selector.Matches(i.labels) ==>
                  s.servers[id].Holds(s.Ref(k), s.crs[k].doc) {
      forall k, j | k in t.crs && j in t.instances && t.instances[j].available && t.Selects(k, j)
        ensures Covered(t, k, j)
      {
        if j != id { assert s.Selects(k, j) && Covered(s, k, j); }
        assert t.Ref(k) == s.Ref(k);
      }
    }
  }

  // Somebody is still going to write the copy, or to look whether it is there.
  predicate OtherwiseCovered(s: State, k: Key, id: InstanceId)
    requires k in s.crs
  {
    Queued(s, k) || (k in s.works && Ahead(s.works[k], s.crs[k], id))
  }

  /** An outside write to a server keeps the property exactly if every wanted copy that nobody is
      about to write is still held; there is no watch on the servers that would notice. */
  lemma OutsideWrite(s: State, id: InstanceId, server: Server)
    requires NoLostSync(s) && id in s.servers
    ensures NoLostSync(Apply(s, ForeignWrite(id, server))) <==>
      forall k :: k in s.crs && id in s.instances && s.instances[id].available && s.Selects(k, id) && !OtherwiseCovered(s, k, id) ==>
        server.Holds(s.Ref(k), s.crs[k].doc)
  {
    var t := Apply(s, ForeignWrite(id, server));
    if NoLostSync(t) {
      forall k | k in s.crs && id in s.instances && s.instances[id].available && s.Selects(k, id) && !OtherwiseCovered(s, k, id)
        ensures server.Holds(s.Ref(k), s.crs[k].doc)
      {
        assert t.Selects(k, id) && Covered(t, k, id);
      }
    } else {
      var k, i :| k in t.crs && i in t.instances && t.instances[i].available && t.Selects(k, i) && !Covered(t, k, i);
      assert s.Selects(k, i) && Covered(s, k, i) && t.Ref(k) == s.Ref(k);
    }
  }

  // ---- A run that comes to rest and then loses a synchronisation ----

  const K := Key("default", "board")
  const CR := Cr(Doc(map[], "panels"), false, Where([In("team", {"blue"})]))
  const BLUE: Labels := map["team" := "blue"]
  const RED: Labels := map["team" := "red"]

  const QUIET_START: seq<Event> := [
    AddInstance("a", Instance(BLUE, false), EMPTY_SERVER),
    AddInstance("b", Instance(RED, false), EMPTY_SERVER),
    UpdateInstance("b", Instance(RED, true), true),
    PutCr(K, CR),
    Deliver(K)]

  const PASS: Replies := Replies(true, true, Applied, true, Accepted, None, true, Applied, Applied)

  const RECONCILED: seq<Event> := [Take(K), ReadCr(K), List(K, ["a"]), Visit(K, PASS), Finish(K)]

  function Resting(): State {
    State(DashboardKind, map[K := CR], {}, {K},
          map["a" := Instance(BLUE, false), "b" := Instance(RED, true)],
          map["a" := EMPTY_SERVER, "b" := EMPTY_SERVER], {}, {}, map[])
  }

  function Started(): State { Resting().(dirty := {K}) }

  lemma StartIsReached()
    ensures IsRun(Initial(DashboardKind), QUIET_START) && End(Initial(DashboardKind), QUIET_START) == Started()
  {
    hide Sync, Delete;
    var s0 := Initial(DashboardKind);
    var s1 := Apply(s0, QUIET_START[0]);
    var s2 := Apply(s1, QUIET_START[1]);
    var s3 := Apply(s2, QUIET_START[2]);
    var s4 := Apply(s3, QUIET_START[3]);
    var s5 := Apply(s4, QUIET_START[4]);
    assert s5 == Started();
    assert IsRun(s5, []) && End(s5, []) == s5;
    Extend(s4, QUIET_START[4..]);
    Extend(s3, QUIET_START[3..]);
    Extend(s2, QUIET_START[2..]);
    Extend(s1, QUIET_START[1..]);
    Extend(s0, QUIET_START);
  }

  function Working(w: Work): State { Resting().At(K, w) }

  lemma ListsOnlyA()
    ensures Enabled(Working(HasCr(CR)), List(K, ["a"]))
    ensures Apply(Working(HasCr(CR)), List(K, ["a"])) == Working(Syncing(CR, [Listed("a", false)]))
  {
    hide Sync, Delete;
    var s := Working(HasCr(CR));
    assert MatchingIds(s, HasCr(CR)) == {"a"} by {
      assert CR.selector.Matches(BLUE);
      assert !CR.selector.all[0].Matches(RED);
    }
    assert ListsExactly(["a"], {"a"});
    assert CR.selector.Valid();
    assert Snapshot(s, ["a"]) == [Listed("a", false)];
  }

  lemma EndIsReached()
    ensures var s := Working(Syncing(CR, [Listed("a", false)]));
      IsRun(s, RECONCILED[3..]) && End(s, RECONCILED[3..]) == Resting()
  {
    hide Sync, Delete;
    var s3, s4 := Working(Syncing(CR, [Listed("a", false)])), Working(Syncing(CR, []));
    assert Apply(s4, Finish(K)) == Resting();
    Extend(s4, RECONCILED[4..]);
    assert [Listed("a", false)][1..] == [];
    assert Apply(s3, Visit(K, PASS)) == s4;
    Extend(s3, RECONCILED[3..]);
  }

  lemma TakenAndRead()
    ensures Enabled(Started(), Take(K)) && Apply(Started(), Take(K)) == Working(Work.Started)
    ensures Enabled(Working(Work.Started), ReadCr(K)) && Apply(Working(Work.Started), ReadCr(K)) == Working(HasCr(CR))
  {
    hide AfterVisit, AfterVisitDelete, AfterList, AfterUpdate;
    assert Resting().dirty == {} && {K} - {K} == {};
  }

  lemma RestIsReached()
    ensures IsRun(Started(), RECONCILED) && End(Started(), RECONCILED) == Resting()
  {
    hide Apply, Resting, Enabled;
    var s1, s2 := Working(Work.Started), Working(HasCr(CR));
    EndIsReached();
    ListsOnlyA();
    TakenAndRead();
    Extend(s2, RECONCILED[2..]);
    Extend(s1, RECONCILED[1..]);
    Extend(Started(), RECONCILED);
  }

  lemma Extend(s: State, run: seq<Event>)
    requires run != [] && Enabled(s, run[0]) && Benign(s, run[0]) && IsRun(Apply(s, run[0]), run[1..])
    ensures IsRun(s, run) && End(s, run) == End(Apply(s, run[0]), run[1..])
  {
  }

  lemma {:induction false} Append(s: State, run: seq<Event>, more: seq<Event>)
    requires IsRun(s, run) && IsRun(End(s, run), more)
    ensures IsRun(s, run + more) && End(s, run + more) == End(End(s, run), more)
    decreases |run|
  {
    if run == [] {
      assert run + more == more;
    } else {
      Append(Apply(s, run[0]), run[1..], more);
      assert (run + more)[1..] == run[1..] + more;
    }
  }

  const RELABEL := UpdateInstance("b", Instance(BLUE, true), true)

  lemma RelabelledAtRest()
    ensures AtRest(Resting()) && Enabled(Resting(), RELABEL) && AtRest(Apply(Resting(), RELABEL))
    ensures K in Resting().crs && Resting().crs[K] == CR && Resting().instances["b"].available
    ensures CR.selector.Matches(BLUE) && !Resting().servers["b"].Holds(Resting().Ref(K), CR.doc)
  {
    hide AfterVisit, AfterVisitDelete, AfterList;
  }

  // Relabelling the available instance "b" so that it is selected leaves it without the dashboard for good.
  lemma RelabellingLosesASync()
    ensures IsRun(Initial(DashboardKind), QUIET_START + RECONCILED)
    ensures var s := End(Initial(DashboardKind), QUIET_START + RECONCILED);
      AtRest(s) && Enabled(s, RELABEL) && AtRest(Apply(s, RELABEL)) && !NoLostSync(Apply(s, RELABEL))
  {
    hide Apply, Resting, AtRest, NoLostSync, SyncProtocol.Inv;
    StartIsReached();
    RestIsReached();
    Append(Initial(DashboardKind), QUIET_START, RECONCILED);
    EmptyIsFine(DashboardKind);
    RunKeepsInv(Initial(DashboardKind), QUIET_START + RECONCILED);
    RelabelledAtRest();
    InstanceUpdate(Resting(), "b", Instance(BLUE, true), true);
  }

  lemma EmptyIsFine(kind: Kind)
    ensures SyncProtocol.Inv(Initial(kind))
  {
  }
}
