/** The child controllers' synchronisation as it runs: requests go out one by one, each
    server changes in place, and every early return leaves what was done so far. */
module Fleet {
  import opened Wrappers
  import opened Backend
  import opened InstanceSync
  import opened FleetSync

  lemma WireAppend(id: InstanceId, a: seq<Call>, b: seq<Call>)
    ensures OnWire(id, a + b) == OnWire(id, a) + OnWire(id, b)
  {
  }

  lemma AfterTwice(s: Sweep, a: seq<Wire>, b: seq<Wire>, m: nat, n: nat)
    ensures s.After(b, n).After(a, m) == s.After(a + b, m + n)
  {
    assert a + (b + s.wire) == (a + b) + s.wire;
  }

  // One round of each loop, seen from the instances still to be visited.
  lemma SyncRound(servers: Servers, visits: seq<Visit>, i: nat, r: Resource, sent: seq<Wire>)
    requires Known(visits, servers) && i < |visits|
    ensures var v := visits[i];
      var e := Sync(servers[v.id], r, v.replies);
      var next := servers[v.id := e.server];
      SyncAll(servers, visits[i..], r).After(sent, i) ==
        if !v.available then SyncAll(servers, visits[i + 1..], r).After(sent, i + 1)
        else if e.outcome.Halt? then Sweep(next, sent + OnWire(v.id, e.calls), e.outcome, i)
        else SyncAll(next, visits[i + 1..], r).After(sent + OnWire(v.id, e.calls), i + 1)
  {
    hide Sync;
    var v := visits[i];
    var e := Sync(servers[v.id], r, v.replies);
    assert visits[i..][0] == v && visits[i..][1..] == visits[i + 1..];
    if !v.available {
      AfterTwice(SyncAll(servers, visits[i + 1..], r), sent, [], i, 1);
      assert sent + [] == sent;
    } else if e.outcome == Continue {
      AfterTwice(SyncAll(servers[v.id := e.server], visits[i + 1..], r), sent, OnWire(v.id, e.calls), i, 1);
    }
  }

  lemma DeleteRound(servers: Servers, visits: seq<DeleteVisit>, i: nat, ref: ObjRef, sent: seq<Wire>)
    requires KnownDeletes(visits, servers) && i < |visits|
    ensures var v := visits[i];
      var e := Delete(servers[v.id], ref, v.replies);
      var next := servers[v.id := e.server];
      DeleteAll(servers, visits[i..], ref).After(sent, i) ==
        if e.outcome.Halt? then Sweep(next, sent + OnWire(v.id, e.calls), e.outcome, i)
        else DeleteAll(next, visits[i + 1..], ref).After(sent + OnWire(v.id, e.calls), i + 1)
  {
    var v := visits[i];
    var e := Delete(servers[v.id], ref, v.replies);
    assert visits[i..][0] == v && visits[i..][1..] == visits[i + 1..];
    var rest := DeleteAll(servers[v.id := e.server], visits[i + 1..], ref).wire;
    assert sent + (OnWire(v.id, e.calls) + rest) == sent + OnWire(v.id, e.calls) + rest;
  }

  lemma SyncEnds(servers: Servers, visits: seq<Visit>, r: Resource)
    requires Known(visits, servers)
    ensures SyncAll(servers, visits[|visits|..], r) == Sweep(servers, [], Continue, 0)
    ensures visits[0..] == visits && SyncAll(servers, visits, r).After([], 0) == SyncAll(servers, visits, r)
  {
    hide Sync;
    assert [] + SyncAll(servers, visits, r).wire == SyncAll(servers, visits, r).wire;
  }

  lemma DeleteEnds(servers: Servers, visits: seq<DeleteVisit>, ref: ObjRef)
    requires KnownDeletes(visits, servers)
    ensures DeleteAll(servers, visits[|visits|..], ref) == Sweep(servers, [], Continue, 0)
    ensures visits[0..] == visits && DeleteAll(servers, visits, ref).After([], 0) == DeleteAll(servers, visits, ref)
  {
    hide Delete;
    assert [] + DeleteAll(servers, visits, ref).wire == DeleteAll(servers, visits, ref).wire;
  }

  class PersesFleet {
    var servers: Servers
    var wire: seq<Wire>

    constructor (initial: Servers)
      ensures servers == initial && wire == []
    {
      servers, wire := initial, [];
    }

    // The state after instance `id` went through `e`.
    twostate predicate Went(id: InstanceId, e: Effect)
      requires id in old(servers)
      reads this
    {
      && servers == old(servers)[id := e.server]
      && wire == old(wire) + OnWire(id, e.calls)
    }

    method Ask(id: InstanceId, c: Call)
      modifies this`wire
      ensures wire == old(wire) + OnWire(id, [c])
    {
      wire := wire + [Wire(id, c)];
    }

    method Send(id: InstanceId, c: Call, after: Server, w: WriteReply) returns (ok: bool)
      requires id in servers
      modifies this
      ensures Went(id, Written(old(servers[id]), after, [c], w)) && ok == w.Ok()
    {
      wire := wire + [Wire(id, c)];
      servers := servers[id := if w.Lands() then after else servers[id]];
      ok := w.Ok();
    }

    method SyncProject(id: InstanceId, ns: string, a: Replies) returns (o: Outcome)
      requires id in servers
      modifies this
      ensures Went(id, EnsureProject(old(servers[id]), ns, a))
      ensures o == EnsureProject(old(servers[id]), ns, a).outcome
    {
      Ask(id, GetProject(ns));
      o := Continue;
      if !a.projectRead {
        o := Halt(BackendError);
      } else if ns !in servers[id].projects {
        WireAppend(id, [GetProject(ns)], [CreateProject(ns)]);
        var ok := Send(id, CreateProject(ns), servers[id].(projects := servers[id].projects + {ns}), a.projectWrite);
        if !ok { o := Halt(BackendError); }
      }
    }

    method SyncSecret(id: InstanceId, ref: ObjRef, a: Replies) returns (o: Outcome)
      requires id in servers
      modifies this
      ensures Went(id, PutSecret(old(servers[id]), ref, a))
      ensures o == PutSecret(old(servers[id]), ref, a).outcome
    {
      if a.credentials.None? { return Halt(InvalidConfiguration); }
      var s := ref.Secret();
      Ask(id, GetSecret(s));
      if !a.secretRead { return Halt(BackendError); }
      var put := if s in servers[id].secrets then UpdateSecret(s) else CreateSecret(s);
      WireAppend(id, [GetSecret(s)], [put]);
      var ok := Send(id, put, servers[id].(secrets := servers[id].secrets[s := a.credentials.value]), a.secretWrite);
      o := if ok then Continue else Halt(BackendError);
    }

    method StoreObject(id: InstanceId, r: Resource, a: Replies) returns (o: Outcome)
      requires id in servers
      modifies this
      ensures Went(id, PutSecretThenObject(old(servers[id]), r, a))
      ensures o == PutSecretThenObject(old(servers[id]), r, a).outcome
    {
      ghost var before := [];
      if r.NeedsSecret() {
        o := SyncSecret(id, r.ref, a);
        if o.Halt? { return; }
        before := PutSecret(old(servers[id]), r.ref, a).calls;
      }
      var put := if r.ref in servers[id].objects then UpdateObject(r.ref) else CreateObject(r.ref);
      WireAppend(id, before, [put]);
      var ok := Send(id, put, servers[id].(objects := servers[id].objects[r.ref := r.doc]), a.objectWrite);
      o := if ok then Continue else Halt(BackendError);
    }

    method SyncStored(id: InstanceId, r: Resource, a: Replies) returns (o: Outcome)
      requires id in servers
      modifies this
      ensures Went(id, SyncObject(old(servers[id]), r, a))
      ensures o == SyncObject(old(servers[id]), r, a).outcome
    {
      Ask(id, GetObject(r.ref));
      if !a.objectRead { return Halt(BackendError); }
      if servers[id].Holds(r.ref, r.doc) { return Continue; }
      Ask(id, ValidateObject(r.ref));
      WireAppend(id, [GetObject(r.ref)], [ValidateObject(r.ref)]);
      match a.verdict
      case Rejected => return Halt(ValidationFailed);
      case ValidatorDown => return Halt(BackendError);
      case Accepted =>
        WireAppend(id, [GetObject(r.ref), ValidateObject(r.ref)], PutSecretThenObject(servers[id], r, a).calls);
        o := StoreObject(id, r, a);
    }

    method SyncInstance(id: InstanceId, r: Resource, a: Replies) returns (o: Outcome)
      requires id in servers
      modifies this
      ensures Went(id, Sync(old(servers[id]), r, a))
      ensures o == Sync(old(servers[id]), r, a).outcome
    {
      hide SyncObject, EnsureProject;
      if !a.client { return Halt(ConnectionFailed); }
      ghost var before := [];
      if r.ref.kind.InProject() {
        o := SyncProject(id, r.ref.ns, a);
        if o.Halt? { return; }
        before := EnsureProject(old(servers[id]), r.ref.ns, a).calls;
      }
      WireAppend(id, before, SyncObject(servers[id], r, a).calls);
      o := SyncStored(id, r, a);
    }

    // One round of the loop over the listed instances.
    method SyncVisit(visits: seq<Visit>, i: nat, r: Resource, ghost sent: seq<Wire>) returns (o: Outcome, ghost now: seq<Wire>)
      requires Known(visits, servers) && i < |visits|
      modifies this
      ensures Known(visits, servers)
      ensures forall base :: old(wire) == base + sent ==> wire == base + now
      ensures SyncAll(old(servers), visits[i..], r).After(sent, i) ==
        if o == Continue then SyncAll(servers, visits[i + 1..], r).After(now, i + 1)
        else Sweep(servers, now, o, i)
    {
      hide Sync, SyncAll;
      var v := visits[i];
      SyncRound(servers, visits, i, r, sent);
      o, now := Continue, sent;
      if v.available {
        now := sent + OnWire(v.id, Sync(servers[v.id], r, v.replies).calls);
        o := SyncInstance(v.id, r, v.replies);
      }
    }

    method SyncInAllInstances(visits: seq<Visit>, r: Resource) returns (o: Outcome)
      requires Known(visits, servers)
      modifies this
      ensures var s := SyncAll(old(servers), visits, r);
        o == s.outcome && servers == s.servers && wire == old(wire) + s.wire
    {
      hide Sync, SyncAll;
      ghost var sent: seq<Wire>, all := [], SyncAll(servers, visits, r);
      SyncEnds(servers, visits, r);
      var i := 0;
      while i < |visits|
        invariant 0 <= i <= |visits| && Known(visits, servers) && wire == old(wire) + sent
        invariant all == SyncAll(servers, visits[i..], r).After(sent, i)
      {
        o, sent := SyncVisit(visits, i, r, sent);
        if o.Halt? { return; }
        i := i + 1;
      }
      SyncEnds(servers, visits, r);
      o := Continue;
    }

    method DeleteFromInstance(id: InstanceId, ref: ObjRef, a: DeleteReplies) returns (o: Outcome)
      requires id in servers
      modifies this
      ensures Went(id, Delete(old(servers[id]), ref, a))
      ensures o == Delete(old(servers[id]), ref, a).outcome
    {
      hide DropObject;
      if !a.client { return Halt(ConnectionFailed); }
      ghost var before := [];
      if ref.kind.InProject() {
        Ask(id, GetProject(ref.ns));
        before := [GetProject(ref.ns)];
        if !a.projectRead || ref.ns !in servers[id].projects { return Halt(BackendError); }
      }
      WireAppend(id, before, DropObject(servers[id], ref, a).calls);
      o := DropFromInstance(id, ref, a);
    }

    // The secret goes whether the object was there or not.
    method DropFromInstance(id: InstanceId, ref: ObjRef, a: DeleteReplies) returns (o: Outcome)
      requires id in servers
      modifies this
      ensures Went(id, DropObject(old(servers[id]), ref, a))
      ensures o == DropObject(old(servers[id]), ref, a).outcome
    {
      var ok := Send(id, DeleteObject(ref), servers[id].(objects := servers[id].objects - {ref}), a.objectDelete);
      if !ok { return Halt(BackendError); }
      if ref.kind.MayNeedSecret() {
        WireAppend(id, [DeleteObject(ref)], [DeleteSecret(ref.Secret())]);
        ok := Send(id, DeleteSecret(ref.Secret()), servers[id].(secrets := servers[id].secrets - {ref.Secret()}), a.secretDelete);
        if !ok { return Halt(BackendError); }
      }
      o := Continue;
    }

    method DeleteVisitOf(visits: seq<DeleteVisit>, i: nat, ref: ObjRef, ghost sent: seq<Wire>) returns (o: Outcome, ghost now: seq<Wire>)
      requires KnownDeletes(visits, servers) && i < |visits|
      modifies this
      ensures KnownDeletes(visits, servers)
      ensures forall base :: old(wire) == base + sent ==> wire == base + now
      ensures DeleteAll(old(servers), visits[i..], ref).After(sent, i) ==
        if o == Continue then DeleteAll(servers, visits[i + 1..], ref).After(now, i + 1)
        else Sweep(servers, now, o, i)
    {
      hide Delete, DeleteAll;
      var v := visits[i];
      DeleteRound(servers, visits, i, ref, sent);
      now := sent + OnWire(v.id, Delete(servers[v.id], ref, v.replies).calls);
      o := DeleteFromInstance(v.id, ref, v.replies);
    }

    method DeleteInAllInstances(visits: seq<DeleteVisit>, ref: ObjRef) returns (o: Outcome)
      requires KnownDeletes(visits, servers)
      modifies this
      ensures var s := DeleteAll(old(servers), visits, ref);
        o == s.outcome && servers == s.servers && wire == old(wire) + s.wire
    {
      hide Delete, DeleteAll;
      ghost var sent: seq<Wire>, all := [], DeleteAll(servers, visits, ref);
      DeleteEnds(servers, visits, ref);
      var i := 0;
      while i < |visits|
        invariant 0 <= i <= |visits| && KnownDeletes(visits, servers) && wire == old(wire) + sent
        invariant all == DeleteAll(servers, visits[i..], ref).After(sent, i)
      {
        o, sent := DeleteVisitOf(visits, i, ref, sent);
        if o.Halt? { return; }
        i := i + 1;
      }
      DeleteEnds(servers, visits, ref);
      o := Continue;
    }
  }
}
