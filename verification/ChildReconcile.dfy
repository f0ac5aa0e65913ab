/** One whole reconciliation of a dashboard, datasource or global datasource: the status is set to
    unknown if there is none, the resource goes to all matching instances, and the status says how
    that went. What the status then means, and when a further reconciliation does nothing. */
module ChildReconcile {
  import opened Wrappers
  import opened Subreconciler
  import Conditions
  import opened Backend
  import opened InstanceSync
  import opened FleetSync
  import opened Fleet

  type Conds = seq<Conditions.Condition>

  // A custom resource under reconciliation: what is wanted, and how its kind is called in messages.
  datatype Child = Child(resource: Resource, noun: string)

  // What becomes of a status update: it goes through, the object has vanished, or it fails, in
  // which case it may have landed all the same. `StatusLinks` says how `StatusRetry` comes to that.
  datatype StatusReply = Through | Vanished | Failed(error: Error, landed: bool)

  // The surroundings of one reconciliation: whether the selector is well formed, the matching
  // instances (None if they cannot be listed), the text of the error if there is one, the time,
  // and what becomes of the status updates at the beginning and at the end.
  datatype Round = Round(
    selectorOk: bool, listed: Option<seq<Visit>>, text: string, now: Conditions.Time, begin: StatusReply, end: StatusReply)
  {
    predicate StatusGoesThrough() { begin.Through? && end.Through? }
  }

  const MISSING_PERSES := "PersesMissing"
  const NO_INSTANCES := "no Perses instances found matching the label selector"

  function ReasonText(r: Reason): string {
    match r
    case ConnectionFailed => "PersesConnectionFailed"
    case BackendError => "PersesBackendError"
    case ValidationFailed => "ValidationFailed"
    case InvalidConfiguration => "InvalidConfiguration"
  }

  // `writes` counts the status writes.
  datatype Done = Done(servers: Servers, wire: seq<Wire>, conditions: Conds, writes: nat, error: Option<Error>)

  predicate KnownRound(round: Round, servers: Servers) {
    round.listed.Some? ==> Known(round.listed.value, servers)
  }

  function Cost(before: Conds, after: Conds): nat { if before == after then 0 else 1 }

  function Complete(c: Child): Conditions.Update { Conditions.ToComplete(c.noun, c.resource.ref.name) }

  function UpdateStatus(d: Done, u: Conditions.Update, now: Conditions.Time, reply: StatusReply): Done {
    var cs := Conditions.Apply(d.conditions, u, now);
    var written := d.(conditions := cs, writes := d.writes + Cost(d.conditions, cs));
    match reply
    case Through => written
    case Vanished => d
    case Failed(e, landed) => (if landed then written else d).(error := Some(e))
  }

  // The error of the status update comes first; that the object has vanished does not matter.
  function Degrade(d: Done, reason: string, text: string, round: Round): Done {
    UpdateStatus(d.(error := Some(text)), Conditions.ToDegraded(reason, text), round.now, round.end)
  }

  // The step in the middle, which reports its own failures.
  function InAllInstances(servers: Servers, cs: Conds, c: Child, round: Round): Done
    requires KnownRound(round, servers)
  {
    var d := Done(servers, [], cs, 0, None);
    if !round.selectorOk then d.(error := Some(round.text))
    else if round.listed.None? then Degrade(d, MISSING_PERSES, round.text, round)
    else if round.listed.value == [] then Degrade(d, MISSING_PERSES, NO_INSTANCES, round)
    else
      var s := SyncAll(servers, round.listed.value, c.resource);
      var e := d.(servers := s.servers, wire := s.wire);
      if s.outcome.Halt? then Degrade(e, ReasonText(s.outcome.reason), round.text, round) else e
  }

  function Reconciled(servers: Servers, cs: Conds, c: Child, round: Round): Done
    requires KnownRound(round, servers)
  {
    var begun := UpdateStatus(Done(servers, [], cs, 0, None), Conditions.ToUnknown, round.now, round.begin);
    if !round.begin.Through? then begun
    else
      var d := InAllInstances(servers, begun.conditions, c, round);
      var e := d.(writes := begun.writes + d.writes);
      if d.error.None? then UpdateStatus(e, Complete(c), round.now, round.end) else e
  }

  // ---- The custom resource is gone ----

  datatype GoneRound = GoneRound(listed: Option<seq<DeleteVisit>>, text: string)

  predicate KnownGone(round: GoneRound, servers: Servers) {
    round.listed.Some? ==> KnownDeletes(round.listed.value, servers)
  }

  function Removed(servers: Servers, ref: ObjRef, round: GoneRound): Sweep
    requires KnownGone(round, servers)
  {
    match round.listed
    case None => Sweep(servers, [], Halt(BackendError), 0)
    case Some(visits) => DeleteAll(servers, visits, ref)
  }

  // If the instances cannot be listed nothing is deleted, and that is a failure; otherwise each is visited.
  lemma RemovedIs(servers: Servers, ref: ObjRef, round: GoneRound)
    requires KnownGone(round, servers)
    ensures round.listed.None? ==> Removed(servers, ref, round).outcome.Halt? && Removed(servers, ref, round).servers == servers
    ensures round.listed == Some([]) ==> Removed(servers, ref, round).outcome == Continue && Removed(servers, ref, round).servers == servers
    ensures round.listed.Some? && DeletesListedOnce(round.listed.value) && Removed(servers, ref, round).outcome == Continue ==>
      forall j :: 0 <= j < |round.listed.value| ==>
        var id := round.listed.value[j].id; id in Removed(servers, ref, round).servers && Removed(servers, ref, round).servers[id].HoldsNothingOf(ref)
  {
    if round.listed.Some? && DeletesListedOnce(round.listed.value) { DeleteAllClears(servers, round.listed.value, ref); }
  }

  // What reading the custom resource gives.
  datatype Reading = Present(child: Child) | Absent(ref: ObjRef) | Unreadable(error: Error)

  // ---- As it runs ----

  class ChildController {
    var fleet: PersesFleet
    var conditions: Conds
    var writes: nat

    constructor (fleet: PersesFleet, conditions: Conds)
      ensures this.fleet == fleet && this.conditions == conditions && writes == 0
    {
      this.fleet, this.conditions, writes := fleet, conditions, 0;
    }

    // Compares before it writes.
    method Report(u: Conditions.Update, now: Conditions.Time, reply: StatusReply) returns (error: Option<Error>)
      modifies this`conditions, this`writes
      ensures var d := UpdateStatus(Done(map[], [], old(conditions), 0, None), u, now, reply);
        conditions == d.conditions && writes == old(writes) + d.writes && error == d.error
    {
      if reply.Through? || (reply.Failed? && reply.landed) {
        var before := conditions;
        conditions := Conditions.Apply(conditions, u, now);
        if before != conditions { writes := writes + 1; }
      }
      return if reply.Failed? then Some(reply.error) else None;
    }

    method SetToDegraded(reason: string, text: string, round: Round) returns (error: Option<Error>)
      modifies this`conditions, this`writes
      ensures var d := Degrade(Done(map[], [], old(conditions), 0, None), reason, text, round);
        conditions == d.conditions && writes == old(writes) + d.writes && error == d.error
    {
      error := Report(Conditions.ToDegraded(reason, text), round.now, round.end);
      if error.None? { error := Some(text); }
    }

    method ReconcileInAllInstances(c: Child, round: Round) returns (error: Option<Error>)
      requires KnownRound(round, fleet.servers)
      modifies this`conditions, this`writes, fleet
      ensures fleet == old(fleet)
      ensures var d := InAllInstances(old(fleet.servers), old(conditions), c, round);
        && fleet.servers == d.servers && fleet.wire == old(fleet.wire) + d.wire
        && conditions == d.conditions && writes == old(writes) + d.writes && error == d.error
    {
      hide SyncAll, Conditions.Apply;
      if !round.selectorOk { return Some(round.text); }
      if round.listed.None? {
        error := SetToDegraded(MISSING_PERSES, round.text, round);
        return;
      }
      if |round.listed.value| == 0 {
        error := SetToDegraded(MISSING_PERSES, NO_INSTANCES, round);
        return;
      }
      var o := fleet.SyncInAllInstances(round.listed.value, c.resource);
      if o.Halt? {
        error := SetToDegraded(ReasonText(o.reason), round.text, round);
        return;
      }
      return None;
    }

    method ReconcilePresent(c: Child, round: Round) returns (error: Option<Error>)
      requires KnownRound(round, fleet.servers)
      modifies this`conditions, this`writes, fleet
      ensures fleet == old(fleet)
      ensures var d := Reconciled(old(fleet.servers), old(conditions), c, round);
        && fleet.servers == d.servers && fleet.wire == old(fleet.wire) + d.wire
        && conditions == d.conditions && writes == old(writes) + d.writes && error == d.error
    {
      hide SyncAll, Conditions.Apply;
      error := Report(Conditions.ToUnknown, round.now, round.begin);
      if !round.begin.Through? { return; }
      error := ReconcileInAllInstances(c, round);
      if error.None? {
        error := Report(Complete(c), round.now, round.end);
      }
    }

    method ReconcileAbsent(ref: ObjRef, round: GoneRound) returns (error: Option<Error>)
      requires KnownGone(round, fleet.servers)
      modifies fleet
      ensures var s := Removed(old(fleet.servers), ref, round);
        && fleet.servers == s.servers && fleet.wire == old(fleet.wire) + s.wire
        && error == (if s.outcome.Halt? then Some(round.text) else None)
    {
      hide DeleteAll;
      if round.listed.None? { return Some(round.text); }
      var o := fleet.DeleteInAllInstances(round.listed.value, ref);
      return if o.Halt? then Some(round.text) else None;
    }

    // The result is always there to be evaluated, and never asks for a delay.
    method Reconcile(reading: Reading, round: Round, gone: GoneRound) returns (requeue: Requeue, error: Option<Error>)
      requires KnownRound(round, fleet.servers) && KnownGone(gone, fleet.servers)
      modifies this`conditions, this`writes, fleet
      ensures fleet == old(fleet) && requeue == Requeue(0)
      ensures reading.Present? ==>
        var d := Reconciled(old(fleet.servers), old(conditions), reading.child, round);
        && fleet.servers == d.servers && fleet.wire == old(fleet.wire) + d.wire
        && conditions == d.conditions && writes == old(writes) + d.writes && error == d.error
      ensures reading.Absent? ==>
        var s := Removed(old(fleet.servers), reading.ref, gone);
        && fleet.servers == s.servers && fleet.wire == old(fleet.wire) + s.wire && conditions == old(conditions) && writes == old(writes)
        && error == (if s.outcome.Halt? then Some(gone.text) else None)
      ensures reading.Unreadable? ==>
        && fleet.servers == old(fleet.servers) && fleet.wire == old(fleet.wire) && conditions == old(conditions) && writes == old(writes)
        && error == Some(reading.error)
    {
      hide Reconciled, DeleteAll;
      match reading {
        case Present(c) => error := ReconcilePresent(c, round);
        case Absent(ref) => error := ReconcileAbsent(ref, gone);
        case Unreadable(e) => error := Some(e);
      }
      var (r, e) := Evaluate(if error.Some? then RequeueWithError(error.value) else DoNotRequeue());
      requeue, error := r, e;
    }
  }

  // ---- What the status means ----

  lemma UpdateShows(cs: Conds, u: Conditions.Update, now: Conditions.Time)
    requires !u.ToUnknown?
    ensures var ds := Conditions.Apply(cs, u, now);
      && Conditions.Is(ds, Conditions.AVAILABLE, if u.ToComplete? then Conditions.Yes else Conditions.No)
      && Conditions.Is(ds, Conditions.DEGRADED, if u.ToComplete? then Conditions.No else Conditions.Yes)
  {
    assert Conditions.AVAILABLE != Conditions.DEGRADED by { assert Conditions.AVAILABLE[0] != Conditions.DEGRADED[0]; }
    match u
    case ToComplete(noun, name) =>
      var m := noun + " (" + name + ") reconciled successfully";
      Conditions.SetMeans(cs, Conditions.DEGRADED, Conditions.No, "Reconciled", m, now);
      Conditions.SetMeans(Conditions.Set(cs, Conditions.DEGRADED, Conditions.No, "Reconciled", m, now), Conditions.AVAILABLE, Conditions.Yes,
        "Reconciled", noun + " (" + name + ") created successfully", now);
    case ToDegraded(reason, message) =>
      Conditions.SetMeans(cs, Conditions.AVAILABLE, Conditions.No, reason, message, now);
      Conditions.SetMeans(Conditions.Set(cs, Conditions.AVAILABLE, Conditions.No, reason, message, now), Conditions.DEGRADED, Conditions.Yes,
        reason, message, now);
  }

  predicate TellsOutcome(d: Done) {
    && (d.error.None? <==> Conditions.Is(d.conditions, Conditions.AVAILABLE, Conditions.Yes))
    && (d.error.Some? <==> Conditions.Is(d.conditions, Conditions.DEGRADED, Conditions.Yes))
  }

  /** The status after a reconciliation with a well-formed selector says exactly whether it
      succeeded, and Available means: some instance matches, and every available matching one has
      the current copy. */
  lemma StatusIsTrue(servers: Servers, cs: Conds, c: Child, round: Round)
    requires KnownRound(round, servers) && round.selectorOk && round.StatusGoesThrough()
    requires round.listed.Some? ==> ListedOnce(round.listed.value)
    ensures var d := Reconciled(servers, cs, c, round);
      && TellsOutcome(d)
      && (d.error.None? ==>
            && round.listed.Some? && round.listed.value != []
            && forall j :: 0 <= j < |round.listed.value| && round.listed.value[j].available ==>
                 round.listed.value[j].id in d.servers && Settled(d.servers[round.listed.value[j].id], c.resource))
  {
    hide SyncAll, Conditions.Apply, Settled;
    var ds := Conditions.Apply(cs, Conditions.ToUnknown, round.now);
    UpdateShows(ds, Complete(c), round.now);
    if round.listed.None? {
      UpdateShows(ds, Conditions.ToDegraded(MISSING_PERSES, round.text), round.now);
    } else if round.listed.value == [] {
      UpdateShows(ds, Conditions.ToDegraded(MISSING_PERSES, NO_INSTANCES), round.now);
    } else {
      var s := SyncAll(servers, round.listed.value, c.resource);
      SyncAllInSync(servers, round.listed.value, c.resource);
      if s.outcome.Halt? {
        UpdateShows(ds, Conditions.ToDegraded(ReasonText(s.outcome.reason), round.text), round.now);
      }
    }
  }

  // A selector that cannot be parsed is not reported: the status stays, or is begun, and no request is sent.
  lemma BadSelectorIsNotReported(servers: Servers, cs: Conds, c: Child, round: Round)
    requires KnownRound(round, servers) && !round.selectorOk && round.begin.Through?
    ensures var d := Reconciled(servers, cs, c, round);
      && d.error == Some(round.text) && d.servers == servers && d.wire == []
      && (if cs != [] then d.conditions == cs && d.writes == 0
          else !Conditions.Is(d.conditions, Conditions.AVAILABLE, Conditions.Yes)
               && !Conditions.Is(d.conditions, Conditions.DEGRADED, Conditions.Yes))
  {
    Conditions.SetMeans([], Conditions.AVAILABLE, Conditions.Unknown, "Reconciling", "Starting reconciliation", round.now);
    assert Conditions.AVAILABLE != Conditions.DEGRADED by { assert Conditions.AVAILABLE[0] != Conditions.DEGRADED[0]; }
  }

  /** The status tells the outcome exactly if the selector is well formed, or the failure that it
      then is happens to be what the old status says already. */
  lemma StatusTellsIff(servers: Servers, cs: Conds, c: Child, round: Round)
    requires KnownRound(round, servers) && round.StatusGoesThrough()
    requires round.listed.Some? ==> ListedOnce(round.listed.value)
    ensures TellsOutcome(Reconciled(servers, cs, c, round)) <==>
      || round.selectorOk
      || (Conditions.Is(cs, Conditions.DEGRADED, Conditions.Yes) && !Conditions.Is(cs, Conditions.AVAILABLE, Conditions.Yes))
  {
    hide Reconciled;
    if round.selectorOk { StatusIsTrue(servers, cs, c, round); } else { BadSelectorIsNotReported(servers, cs, c, round); }
  }

  // If the first status does not go through nothing else happens, and only its own failure is reported.
  lemma UnwrittenStatus(servers: Servers, cs: Conds, c: Child, round: Round)
    requires KnownRound(round, servers) && !round.begin.Through?
    ensures var d := Reconciled(servers, cs, c, round);
      && d.servers == servers && d.wire == [] && (d.error.Some? <==> round.begin.Failed?)
      && (round.begin.Vanished? || !round.begin.landed ==> d.conditions == cs && d.writes == 0)
  {
  }

  // Both conditions say why it failed.
  predicate SaysFailed(d: Done, reason: string, text: string) {
    && d.error == Some(text)
    && Conditions.Shows(d.conditions, "Available", Conditions.No, reason, text)
    && Conditions.Shows(d.conditions, "Degraded", Conditions.Yes, reason, text)
  }

  /** What the status says after each way a reconciliation can end, word for word. */
  lemma StatusSays(servers: Servers, cs: Conds, c: Child, round: Round)
    requires KnownRound(round, servers) && round.StatusGoesThrough()
    ensures var d := Reconciled(servers, cs, c, round);
      && (!round.selectorOk ==> d.conditions == Conditions.BegunAt(cs, round.now))
      && (round.selectorOk && round.listed.None? ==> SaysFailed(d, "PersesMissing", round.text))
      && (round.selectorOk && round.listed == Some([]) ==>
            SaysFailed(d, "PersesMissing", "no Perses instances found matching the label selector"))
      && (round.selectorOk && round.listed.Some? && round.listed.value != [] ==>
            match SyncAll(servers, round.listed.value, c.resource).outcome
            case Halt(ConnectionFailed) => SaysFailed(d, "PersesConnectionFailed", round.text)
            case Halt(BackendError) => SaysFailed(d, "PersesBackendError", round.text)
            case Halt(ValidationFailed) => SaysFailed(d, "ValidationFailed", round.text)
            case Halt(InvalidConfiguration) => SaysFailed(d, "InvalidConfiguration", round.text)
            case Continue =>
              && d.error == None
              && Conditions.Shows(d.conditions, "Available", Conditions.Yes, "Reconciled", c.noun + " (" + c.resource.ref.name + ") created successfully")
              && Conditions.Shows(d.conditions, "Degraded", Conditions.No, "Reconciled", c.noun + " (" + c.resource.ref.name + ") reconciled successfully"))
  {
    hide SyncAll, Conditions.Apply;
    Conditions.UnknownShows(cs, round.now);
    var ds := Conditions.Apply(cs, Conditions.ToUnknown, round.now);
    if round.selectorOk {
      if round.listed.None? {
        Conditions.DegradedShows(ds, MISSING_PERSES, round.text, round.now);
      } else if round.listed.value == [] {
        Conditions.DegradedShows(ds, MISSING_PERSES, NO_INSTANCES, round.now);
      } else {
        var o := SyncAll(servers, round.listed.value, c.resource).outcome;
        if o.Halt? { Conditions.DegradedShows(ds, ReasonText(o.reason), round.text, round.now); }
        Conditions.CompleteShows(ds, c.noun, c.resource.ref.name, round.now);
      }
    }
  }

  // ---- Quiescence ----

  // The same instances, as available as before, that answer every read.
  predicate SameInstances(visits: seq<Visit>, again: seq<Visit>) {
    && |again| == |visits|
    && forall j :: 0 <= j < |visits| ==>
         && again[j].id == visits[j].id && again[j].available == visits[j].available
         && again[j].replies.client && again[j].replies.projectRead && again[j].replies.objectRead
  }

  lemma SettledReadsContinue(b: Server, r: Resource, a: Replies)
    requires Settled(b, r) && a.client && a.projectRead && a.objectRead
    ensures Sync(b, r, a).outcome == Continue
  {
  }

  lemma {:induction false} SettledSweepContinues(servers: Servers, visits: seq<Visit>, r: Resource)
    requires Known(visits, servers)
    requires forall j :: 0 <= j < |visits| && visits[j].available ==>
      Settled(servers[visits[j].id], r) && visits[j].replies.client && visits[j].replies.projectRead && visits[j].replies.objectRead
    ensures SyncAll(servers, visits, r).outcome == Continue
    decreases |visits|
  {
    hide Sync, Settled;
    if visits != [] {
      var v := visits[0];
      if v.available {
        SettledReadsContinue(servers[v.id], r, v.replies);
        SettledIsSilent(servers[v.id], r, v.replies);
        assert servers[v.id := servers[v.id]] == servers;
      }
      SettledSweepContinues(servers, visits[1..], r);
    }
  }

  /** A reconciliation that follows a successful one, with nothing changed, succeeds, sends reads
      only, and writes no status: so it cannot trigger itself. */
  lemma Quiescence(servers: Servers, cs: Conds, c: Child, round: Round, again: Round)
    requires KnownRound(round, servers) && round.listed.Some? && ListedOnce(round.listed.value) && round.StatusGoesThrough()
    requires Reconciled(servers, cs, c, round).error.None?
    requires again.StatusGoesThrough() && again.selectorOk && again.listed.Some? && SameInstances(round.listed.value, again.listed.value)
    ensures var d := Reconciled(servers, cs, c, round);
      && KnownRound(again, d.servers)
      && var e := Reconciled(d.servers, d.conditions, c, again);
         e.error.None? && e.servers == d.servers && SilentWire(e.wire) && e.conditions == d.conditions && e.writes == 0
  {
    hide SyncAll, Conditions.Apply, Settled, SilentWire;
    var d, visits := Reconciled(servers, cs, c, round), round.listed.value;
    var ds := Conditions.Apply(cs, Conditions.ToUnknown, round.now);
    SyncAllInSync(servers, visits, c.resource);
    SecondPassWritesNothing(servers, visits, c.resource, again.listed.value);
    SettledSweepContinues(d.servers, again.listed.value, c.resource);
    Conditions.RepeatedUpdateIsIdle(ds, Complete(c), round.now, again.now);
  }

  // Failing again for the same reason writes no status either, however the failure comes about.
  lemma RepeatedFailureIsQuiet(servers: Servers, cs: Conds, c: Child, round: Round, servers': Servers, again: Round)
    requires KnownRound(round, servers) && KnownRound(again, servers')
    requires var d := Reconciled(servers, cs, c, round); d.error.Some? && round.selectorOk && again.selectorOk
    requires round.StatusGoesThrough() && again.StatusGoesThrough()
    requires Told(servers, c, round) == Told(servers', c, again)
    ensures Reconciled(servers', Reconciled(servers, cs, c, round).conditions, c, again).writes == 0
  {
    hide SyncAll, Conditions.Apply;
    var ds := Conditions.Apply(cs, Conditions.ToUnknown, round.now);
    Conditions.RepeatedUpdateIsIdle(ds, Told(servers, c, round), round.now, again.now);
  }

  // The status update a reconciliation ends with.
  function Told(servers: Servers, c: Child, round: Round): Conditions.Update
    requires KnownRound(round, servers)
  {
    if round.listed.None? then Conditions.ToDegraded(MISSING_PERSES, round.text)
    else if round.listed.value == [] then Conditions.ToDegraded(MISSING_PERSES, NO_INSTANCES)
    else
      var o := SyncAll(servers, round.listed.value, c.resource).outcome;
      if o.Halt? then Conditions.ToDegraded(ReasonText(o.reason), round.text) else Complete(c)
  }
}
