/** Synchronising one custom resource into every listed Perses instance, and deleting it
    from all of them: the loops of the child controllers, which stop at the first failure. */
module FleetSync {
  import opened Wrappers
  import opened Backend
  import opened InstanceSync

  type InstanceId = string
  type Servers = map<InstanceId, Server>

  // One listed instance: its availability as listed, and the answers it gives if contacted.
  datatype Visit = Visit(id: InstanceId, available: bool, replies: Replies)
  datatype DeleteVisit = DeleteVisit(id: InstanceId, replies: DeleteReplies)

  // One request as seen on the wire.
  datatype Wire = Wire(id: InstanceId, call: Call)

  // `done` counts the instances that were passed before the loop ended.
  datatype Sweep = Sweep(servers: Servers, wire: seq<Wire>, outcome: Outcome, done: nat) {
    function After(before: seq<Wire>, passed: nat): Sweep {
      Sweep(servers, before + wire, outcome, passed + done)
    }
  }

  function OnWire(id: InstanceId, calls: seq<Call>): (w: seq<Wire>)
    ensures |w| == |calls| && forall j :: 0 <= j < |w| ==> w[j] == Wire(id, calls[j])
  {
    seq(|calls|, j requires 0 <= j < |calls| => Wire(id, calls[j]))
  }

  predicate Known(visits: seq<Visit>, servers: Servers) {
    forall j :: 0 <= j < |visits| ==> visits[j].id in servers
  }

  predicate KnownDeletes(visits: seq<DeleteVisit>, servers: Servers) {
    forall j :: 0 <= j < |visits| ==> visits[j].id in servers
  }

  // A Kubernetes list names every instance once.
  predicate ListedOnce(visits: seq<Visit>) {
    forall i, j :: 0 <= i < j < |visits| ==> visits[i].id != visits[j].id
  }

  predicate DeletesListedOnce(visits: seq<DeleteVisit>) {
    forall i, j :: 0 <= i < j < |visits| ==> visits[i].id != visits[j].id
  }

  function SyncAll(servers: Servers, visits: seq<Visit>, r: Resource): Sweep
    requires Known(visits, servers)
    decreases |visits|
  {
    if visits == [] then
      Sweep(servers, [], Continue, 0)
    else if !visits[0].available then
      SyncAll(servers, visits[1..], r).After([], 1)
    else
      var v := visits[0];
      var e := Sync(servers[v.id], r, v.replies);
      var next := servers[v.id := e.server];
      if e.outcome.Halt? then Sweep(next, OnWire(v.id, e.calls), e.outcome, 0)
      else SyncAll(next, visits[1..], r).After(OnWire(v.id, e.calls), 1)
  }

  // Deletion goes to every instance, available or not.
  function DeleteAll(servers: Servers, visits: seq<DeleteVisit>, ref: ObjRef): Sweep
    requires KnownDeletes(visits, servers)
    decreases |visits|
  {
    if visits == [] then
      Sweep(servers, [], Continue, 0)
    else
      var v := visits[0];
      var e := Delete(servers[v.id], ref, v.replies);
      var next := servers[v.id := e.server];
      if e.outcome.Halt? then Sweep(next, OnWire(v.id, e.calls), e.outcome, 0)
      else DeleteAll(next, visits[1..], ref).After(OnWire(v.id, e.calls), 1)
  }

  // ---- The loop is "stop at the first failing available instance" ----

  // The instance was contacted: available and not behind the point where the loop ended.
  predicate Contacted(visits: seq<Visit>, done: nat, id: InstanceId) {
    exists j :: 0 <= j < |visits| && j <= done && visits[j].available && visits[j].id == id
  }

  /** Complete description of the loop from the initial servers alone: it passes exactly the
      instances before the first available one whose synchronisation fails. Every contacted
      instance ends as its own synchronisation leaves it, every other instance is untouched
      and receives no request at all. */
  predicate FirstFailure(servers: Servers, visits: seq<Visit>, r: Resource, s: Sweep)
    requires Known(visits, servers)
  {
    StopsThere(servers, visits, r, s) && ChangesThose(servers, visits, r, s)
  }

  predicate StopsThere(servers: Servers, visits: seq<Visit>, r: Resource, s: Sweep)
    requires Known(visits, servers)
  {
    && s.done <= |visits|
    && (s.outcome == Continue <==> s.done == |visits|)
    && (forall j :: 0 <= j < s.done && visits[j].available ==>
          Sync(servers[visits[j].id], r, visits[j].replies).outcome == Continue)
    && (s.done < |visits| ==>
          && visits[s.done].available
          && s.outcome == Sync(servers[visits[s.done].id], r, visits[s.done].replies).outcome)
  }

  predicate ChangesThose(servers: Servers, visits: seq<Visit>, r: Resource, s: Sweep)
    requires Known(visits, servers)
  {
    && s.servers.Keys == servers.Keys
    && (forall j :: 0 <= j < |visits| && j <= s.done && visits[j].available ==>
          s.servers[visits[j].id] == Sync(servers[visits[j].id], r, visits[j].replies).server)
    && (forall id :: id in servers && !Contacted(visits, s.done, id) ==> s.servers[id] == servers[id])
    && (forall w :: w in s.wire ==> Contacted(visits, s.done, w.id))
  }

  lemma {:induction false} SyncAllStopsAtFirstFailure(servers: Servers, visits: seq<Visit>, r: Resource)
    requires Known(visits, servers) && ListedOnce(visits)
    ensures FirstFailure(servers, visits, r, SyncAll(servers, visits, r))
    decreases |visits|
  {
    hide Sync, FirstFailure;
    if visits == [] {
      NoVisits(servers, r);
    } else {
      var v, rest := visits[0], visits[1..];
      var e := Sync(servers[v.id], r, v.replies);
      var next := servers[v.id := e.server];
      if !v.available {
        SyncAllStopsAtFirstFailure(servers, rest, r);
        SkippedFirst(servers, visits, r, SyncAll(servers, rest, r));
      } else if e.outcome == Continue {
        SyncAllStopsAtFirstFailure(next, rest, r);
        PassedFirst(servers, visits, r, SyncAll(next, rest, r));
      } else {
        FailedFirst(servers, visits, r);
      }
    }
  }

  lemma NoVisits(servers: Servers, r: Resource)
    ensures FirstFailure(servers, [], r, Sweep(servers, [], Continue, 0))
  {
  }

  lemma SkippedFirst(servers: Servers, visits: seq<Visit>, r: Resource, s: Sweep)
    requires visits != [] && Known(visits, servers) && !visits[0].available
    requires FirstFailure(servers, visits[1..], r, s)
    ensures FirstFailure(servers, visits, r, s.After([], 1))
  {
    hide Sync;
    ContactedTail(visits, s.done + 1);
    assert forall j :: 0 < j < |visits| ==> visits[j] == visits[1..][j - 1];
  }

  lemma PassedFirst(servers: Servers, visits: seq<Visit>, r: Resource, s: Sweep)
    requires visits != [] && Known(visits, servers) && ListedOnce(visits) && visits[0].available
    requires Sync(servers[visits[0].id], r, visits[0].replies).outcome == Continue
    requires FirstFailure(servers[visits[0].id := Sync(servers[visits[0].id], r, visits[0].replies).server], visits[1..], r, s)
    ensures FirstFailure(servers, visits, r,
              s.After(OnWire(visits[0].id, Sync(servers[visits[0].id], r, visits[0].replies).calls), 1))
  {
    hide Sync, StopsThere, ChangesThose;
    PassedAndStops(servers, visits, r, s);
    PassedAndChanges(servers, visits, r, s);
  }

  lemma PassedAndStops(servers: Servers, visits: seq<Visit>, r: Resource, s: Sweep)
    requires visits != [] && Known(visits, servers) && ListedOnce(visits) && visits[0].available
    requires Sync(servers[visits[0].id], r, visits[0].replies).outcome == Continue
    requires FirstFailure(servers[visits[0].id := Sync(servers[visits[0].id], r, visits[0].replies).server], visits[1..], r, s)
    ensures StopsThere(servers, visits, r,
              s.After(OnWire(visits[0].id, Sync(servers[visits[0].id], r, visits[0].replies).calls), 1))
  {
    hide Sync, ChangesThose;
    assert forall j :: 0 < j < |visits| ==> visits[j] == visits[1..][j - 1] && visits[j].id != visits[0].id;
  }

  lemma PassedAndChanges(servers: Servers, visits: seq<Visit>, r: Resource, s: Sweep)
    requires visits != [] && Known(visits, servers) && ListedOnce(visits) && visits[0].available
    requires Sync(servers[visits[0].id], r, visits[0].replies).outcome == Continue
    requires FirstFailure(servers[visits[0].id := Sync(servers[visits[0].id], r, visits[0].replies).server], visits[1..], r, s)
    ensures ChangesThose(servers, visits, r,
              s.After(OnWire(visits[0].id, Sync(servers[visits[0].id], r, visits[0].replies).calls), 1))
  {
    hide Sync, StopsThere;
    var v := visits[0];
    ContactedTail(visits, s.done + 1);
    assert forall j :: 0 < j < |visits| ==> visits[j] == visits[1..][j - 1] && visits[j].id != v.id;
    assert !Contacted(visits[1..], s.done, v.id);
  }

  lemma FailedFirst(servers: Servers, visits: seq<Visit>, r: Resource)
    requires visits != [] && Known(visits, servers) && ListedOnce(visits) && visits[0].available
    requires Sync(servers[visits[0].id], r, visits[0].replies).outcome.Halt?
    ensures var v := visits[0];
      var e := Sync(servers[v.id], r, v.replies);
      FirstFailure(servers, visits, r, Sweep(servers[v.id := e.server], OnWire(v.id, e.calls), e.outcome, 0))
  {
    hide Sync;
    assert Contacted(visits, 0, visits[0].id);
  }

  lemma ContactedTail(visits: seq<Visit>, done: nat)
    requires visits != [] && done > 0
    ensures forall id :: Contacted(visits, done, id) <==>
              (visits[0].available && visits[0].id == id) || Contacted(visits[1..], done - 1, id)
  {
    forall id ensures Contacted(visits, done, id) <==>
        (visits[0].available && visits[0].id == id) || Contacted(visits[1..], done - 1, id) {
      if Contacted(visits[1..], done - 1, id) {
        var j :| 0 <= j < |visits| - 1 && j <= done - 1 && visits[1..][j].available && visits[1..][j].id == id;
        assert visits[j + 1].id == id;
      }
      if Contacted(visits, done, id) && !(visits[0].available && visits[0].id == id) {
        var j :| 0 <= j < |visits| && j <= done && visits[j].available && visits[j].id == id;
        assert visits[1..][j - 1].id == id;
      }
    }
  }

  // The promise of the controllers, read off the description above.
  lemma SyncAllInSync(servers: Servers, visits: seq<Visit>, r: Resource)
    requires Known(visits, servers) && ListedOnce(visits)
    ensures var s := SyncAll(servers, visits, r);
      && s.servers.Keys == servers.Keys
      && (s.outcome == Continue ==>
            forall j :: 0 <= j < |visits| && visits[j].available ==> Settled(s.servers[visits[j].id], r))
      && (forall j :: 0 <= j < |visits| && j < s.done && visits[j].available ==> Settled(s.servers[visits[j].id], r))
      && (forall j :: s.done < j < |visits| ==> s.servers[visits[j].id] == servers[visits[j].id])
      && (forall j :: 0 <= j < |visits| && !visits[j].available ==>
            s.servers[visits[j].id] == servers[visits[j].id] && forall w :: w in s.wire ==> w.id != visits[j].id)
  {
    var s := SyncAll(servers, visits, r);
    SyncAllStopsAtFirstFailure(servers, visits, r);
    forall j | 0 <= j < |visits| && j < s.done && visits[j].available
      ensures Settled(s.servers[visits[j].id], r)
    {
      SyncSettles(servers[visits[j].id], r, visits[j].replies);
    }
    assert forall j :: 0 <= j < |visits| && (j > s.done || !visits[j].available) ==>
                         !Contacted(visits, s.done, visits[j].id);
  }

  // Instances that are not listed keep whatever they hold: narrowing a selector deletes nothing.
  lemma UnlistedUntouched(servers: Servers, visits: seq<Visit>, r: Resource, id: InstanceId)
    requires Known(visits, servers) && ListedOnce(visits) && id in servers
    requires forall j :: 0 <= j < |visits| ==> visits[j].id != id
    ensures var s := SyncAll(servers, visits, r); id in s.servers && s.servers[id] == servers[id]
  {
    SyncAllStopsAtFirstFailure(servers, visits, r);
    assert !Contacted(visits, SyncAll(servers, visits, r).done, id);
  }

  // ---- Quiescence ----

  predicate SilentWire(wire: seq<Wire>) {
    forall j :: 0 <= j < |wire| ==> !wire[j].call.Writes()
  }

  lemma {:induction false} SettledSweepIsSilent(servers: Servers, visits: seq<Visit>, r: Resource)
    requires Known(visits, servers)
    requires forall j :: 0 <= j < |visits| && visits[j].available ==> Settled(servers[visits[j].id], r)
    ensures var s := SyncAll(servers, visits, r); s.servers == servers && SilentWire(s.wire)
    decreases |visits|
  {
    if visits != [] {
      var v := visits[0];
      if v.available {
        SettledIsSilent(servers[v.id], r, v.replies);
        assert servers[v.id := servers[v.id]] == servers;
      }
      SettledSweepIsSilent(servers, visits[1..], r);
    }
  }

  // A second pass over the same instances, whatever they answer, writes nothing anywhere.
  lemma SecondPassWritesNothing(servers: Servers, visits: seq<Visit>, r: Resource, again: seq<Visit>)
    requires Known(visits, servers) && ListedOnce(visits) && |again| == |visits|
    requires forall j :: 0 <= j < |visits| ==> again[j].id == visits[j].id && again[j].available == visits[j].available
    requires SyncAll(servers, visits, r).outcome == Continue
    ensures var s := SyncAll(servers, visits, r);
      && Known(again, s.servers)
      && SyncAll(s.servers, again, r).servers == s.servers
      && SilentWire(SyncAll(s.servers, again, r).wire)
  {
    SyncAllInSync(servers, visits, r);
    SettledSweepIsSilent(SyncAll(servers, visits, r).servers, again, r);
  }

  // ---- Deletion ----

  lemma {:induction false} DeleteAllClears(servers: Servers, visits: seq<DeleteVisit>, ref: ObjRef)
    requires KnownDeletes(visits, servers) && DeletesListedOnce(visits)
    ensures var s := DeleteAll(servers, visits, ref);
      && s.servers.Keys == servers.Keys && s.done <= |visits|
      && (s.outcome == Continue <==> s.done == |visits|)
      && (forall j :: 0 <= j < s.done ==>
            && s.servers[visits[j].id].HoldsNothingOf(ref)
            && s.servers[visits[j].id] == Delete(servers[visits[j].id], ref, visits[j].replies).server
            && Delete(servers[visits[j].id], ref, visits[j].replies).outcome == Continue)
      && (s.done < |visits| ==>
            s.outcome == Delete(servers[visits[s.done].id], ref, visits[s.done].replies).outcome)
      && (forall id :: id in servers && (forall j :: 0 <= j < |visits| && j <= s.done ==> visits[j].id != id)
            ==> s.servers[id] == servers[id])
    decreases |visits|
  {
    hide Delete;
    if visits != [] {
      var v, rest := visits[0], visits[1..];
      var e := Delete(servers[v.id], ref, v.replies);
      DeleteClears(servers[v.id], ref, v.replies);
      var next := servers[v.id := e.server];
      if e.outcome == Continue {
        var s := DeleteAll(servers, visits, ref);
        DeleteAllClears(next, rest, ref);
        assert forall j :: 0 <= j < |rest| ==> rest[j] == visits[j + 1] && rest[j].id != v.id;
        forall j | 0 <= j < s.done
          ensures && s.servers[visits[j].id].HoldsNothingOf(ref)
                  && s.servers[visits[j].id] == Delete(servers[visits[j].id], ref, visits[j].replies).server
                  && Delete(servers[visits[j].id], ref, visits[j].replies).outcome == Continue
        {
          if j > 0 { assert visits[j] == rest[j - 1]; }
        }
      }
    }
  }

  // Once deletion went through everywhere, repeating it without faults succeeds and changes nothing.
  lemma {:induction false} DeleteAllAgain(servers: Servers, ref: ObjRef, again: seq<DeleteVisit>)
    requires KnownDeletes(again, servers)
    requires forall j :: 0 <= j < |again| ==>
      && again[j].replies.FaultFree()
      && servers[again[j].id].HoldsNothingOf(ref)
      && (ref.kind.InProject() ==> ref.ns in servers[again[j].id].projects)
    ensures var s := DeleteAll(servers, again, ref); s.outcome == Continue && s.servers == servers
    decreases |again|
  {
    if again != [] {
      var b := servers[again[0].id];
      assert b.objects - {ref} == b.objects;
      assert ref.kind.MayNeedSecret() ==> b.secrets - {ref.Secret()} == b.secrets;
      assert servers[again[0].id := b] == servers;
      DeleteAllAgain(servers, ref, again[1..]);
    }
  }

  lemma RepeatedDeletionIsIdle(servers: Servers, visits: seq<DeleteVisit>, ref: ObjRef, again: seq<DeleteVisit>)
    requires KnownDeletes(visits, servers) && DeletesListedOnce(visits) && |again| == |visits|
    requires forall j :: 0 <= j < |visits| ==> again[j].id == visits[j].id && again[j].replies.FaultFree()
    requires DeleteAll(servers, visits, ref).outcome == Continue
    ensures var s := DeleteAll(servers, visits, ref);
      && KnownDeletes(again, s.servers)
      && DeleteAll(s.servers, again, ref).outcome == Continue
      && DeleteAll(s.servers, again, ref).servers == s.servers
  {
    var s := DeleteAll(servers, visits, ref);
    DeleteAllClears(servers, visits, ref);
    forall j | 0 <= j < |again|
      ensures again[j].id in s.servers && s.servers[again[j].id].HoldsNothingOf(ref)
      ensures ref.kind.InProject() ==> ref.ns in s.servers[again[j].id].projects
    {
      DeleteFrame(servers[visits[j].id], ref, visits[j].replies);
      assert Delete(servers[visits[j].id], ref, visits[j].replies).outcome == Continue;
    }
    DeleteAllAgain(s.servers, ref, again);
  }
}
