/** Status conditions: how one condition is set, the three status updates of the child
    controllers, and what every history of such updates leaves behind. */
module Conditions {
  import opened Wrappers

  type Time = int

  datatype Truth = Yes | No | Unknown

  datatype Condition = Condition(kind: string, status: Truth, reason: string, message: string, since: Time)

  const AVAILABLE := "Available"
  const DEGRADED := "Degraded"

  function Find(cs: seq<Condition>, kind: string): (i: nat)
    ensures i <= |cs| && (i < |cs| ==> cs[i].kind == kind)
    ensures forall j :: 0 <= j < i ==> cs[j].kind != kind
  {
    if cs == [] then 0
    else if cs[0].kind == kind then 0
    else 1 + Find(cs[1..], kind)
  }

  function Updated(before: Condition, status: Truth, reason: string, message: string, now: Time): Condition {
    Condition(before.kind, status, reason, message, if before.status != status then now else before.since)
  }

  // Sets the condition of the given kind; the transition time moves only with the status.
  function Set(cs: seq<Condition>, kind: string, status: Truth, reason: string, message: string, now: Time): seq<Condition> {
    var i := Find(cs, kind);
    if i == |cs| then cs + [Condition(kind, status, reason, message, now)]
    else cs[i := Updated(cs[i], status, reason, message, now)]
  }

  // Whether the condition of this kind is present and has this status.
  predicate Is(cs: seq<Condition>, kind: string, status: Truth) {
    var i := Find(cs, kind); i < |cs| && cs[i].status == status
  }

  predicate UniqueKinds(cs: seq<Condition>) {
    forall i, j :: 0 <= i < j < |cs| ==> cs[i].kind != cs[j].kind
  }

  lemma SetMeans(cs: seq<Condition>, kind: string, status: Truth, reason: string, message: string, now: Time)
    ensures var ds := Set(cs, kind, status, reason, message, now);
      && Find(ds, kind) < |ds| && ds[Find(ds, kind)].status == status
      && ds[Find(ds, kind)].reason == reason && ds[Find(ds, kind)].message == message
      && (forall other :: other != kind ==> (Find(ds, other) < |ds| <==> Find(cs, other) < |cs|))
      && (forall other :: other != kind && Find(cs, other) < |cs| ==> ds[Find(ds, other)] == cs[Find(cs, other)])
      && (UniqueKinds(cs) ==> UniqueKinds(ds))
  {
    var ds := Set(cs, kind, status, reason, message, now);
    FindIsFirst(ds, kind, Find(cs, kind));
    forall other | other != kind
      ensures Find(ds, other) < |ds| <==> Find(cs, other) < |cs|
      ensures Find(cs, other) < |cs| ==> ds[Find(ds, other)] == cs[Find(cs, other)]
    {
      if Find(cs, other) < |cs| { FindIsFirst(ds, other, Find(cs, other)); }
    }
  }

  lemma FindIsFirst(cs: seq<Condition>, kind: string, i: nat)
    requires i < |cs| && cs[i].kind == kind && forall j :: 0 <= j < i ==> cs[j].kind != kind
    ensures Find(cs, kind) == i
  {
  }

  // Setting what is already set changes nothing, at any time.
  lemma SetAgain(cs: seq<Condition>, kind: string, status: Truth, reason: string, message: string, now: Time)
    requires Find(cs, kind) < |cs|
    requires var c := cs[Find(cs, kind)]; c.status == status && c.reason == reason && c.message == message
    ensures Set(cs, kind, status, reason, message, now) == cs
  {
  }

  // ---- The child controllers' updates ----

  datatype Update =
    | ToUnknown
    | ToComplete(noun: string, name: string)
    | ToDegraded(reason: string, message: string)

  function Apply(cs: seq<Condition>, u: Update, now: Time): seq<Condition> {
    match u
    case ToUnknown =>
      if cs == [] then Set(cs, AVAILABLE, Unknown, "Reconciling", "Starting reconciliation", now) else cs
    case ToComplete(noun, name) =>
      Set(Set(cs, DEGRADED, No, "Reconciled", noun + " (" + name + ") reconciled successfully", now),
          AVAILABLE, Yes, "Reconciled", noun + " (" + name + ") created successfully", now)
    case ToDegraded(reason, message) =>
      Set(Set(cs, AVAILABLE, No, reason, message, now), DEGRADED, Yes, reason, message, now)
  }

  datatype Dated = Dated(update: Update, at: Time)

  function History(cs: seq<Condition>, updates: seq<Dated>): seq<Condition>
    decreases |updates|
  {
    if updates == [] then cs else History(Apply(cs, updates[0].update, updates[0].at), updates[1..])
  }

  predicate Sound(cs: seq<Condition>) {
    && UniqueKinds(cs)
    && (Is(cs, AVAILABLE, Yes) <==> Is(cs, DEGRADED, No))
    && !(Is(cs, AVAILABLE, Yes) && Is(cs, DEGRADED, Yes))
    && (Find(cs, DEGRADED) < |cs| ==> Find(cs, AVAILABLE) < |cs|)
  }

  lemma ApplyKeepsSound(cs: seq<Condition>, u: Update, now: Time)
    requires Sound(cs)
    ensures Sound(Apply(cs, u, now))
  {
    assert AVAILABLE != DEGRADED by { assert AVAILABLE[0] != DEGRADED[0]; }
    match u
    case ToUnknown =>
      SetMeans(cs, AVAILABLE, Unknown, "Reconciling", "Starting reconciliation", now);
    case ToComplete(noun, name) =>
      var m := noun + " (" + name + ") reconciled successfully";
      SetMeans(cs, DEGRADED, No, "Reconciled", m, now);
      SetMeans(Set(cs, DEGRADED, No, "Reconciled", m, now), AVAILABLE, Yes, "Reconciled", noun + " (" + name + ") created successfully", now);
    case ToDegraded(reason, message) =>
      SetMeans(cs, AVAILABLE, No, reason, message, now);
      SetMeans(Set(cs, AVAILABLE, No, reason, message, now), DEGRADED, Yes, reason, message, now);
  }

  // After any history of updates from empty conditions.
  lemma {:induction false} HistoriesAreSound(cs: seq<Condition>, updates: seq<Dated>)
    requires Sound(cs)
    ensures Sound(History(cs, updates))
    decreases |updates|
  {
    if updates != [] {
      ApplyKeepsSound(cs, updates[0].update, updates[0].at);
      HistoriesAreSound(Apply(cs, updates[0].update, updates[0].at), updates[1..]);
    }
  }

  lemma ReachableConditions(updates: seq<Dated>)
    ensures Sound(History([], updates))
  {
    HistoriesAreSound([], updates);
  }

  lemma SetMovesTime(cs: seq<Condition>, kind: string, status: Truth, reason: string, message: string, now: Time, i: nat)
    requires i < |cs|
    ensures var ds := Set(cs, kind, status, reason, message, now);
      && i < |ds| && ds[i].kind == cs[i].kind
      && ds[i].since == (if ds[i].status == cs[i].status then cs[i].since else now)
  {
  }

  // A transition time moves exactly when that condition's status changes, and then to the present.
  lemma TransitionTimes(cs: seq<Condition>, u: Update, now: Time, i: nat)
    requires UniqueKinds(cs) && i < |cs|
    ensures var ds := Apply(cs, u, now);
      && i < |ds| && ds[i].kind == cs[i].kind
      && ds[i].since == (if ds[i].status == cs[i].status then cs[i].since else now)
  {
    assert AVAILABLE != DEGRADED by { assert AVAILABLE[0] != DEGRADED[0]; }
    match u
    case ToUnknown =>
    case ToComplete(noun, name) =>
      var m := noun + " (" + name + ") reconciled successfully";
      SetMovesTime(cs, DEGRADED, No, "Reconciled", m, now, i);
      SetMovesTime(Set(cs, DEGRADED, No, "Reconciled", m, now), AVAILABLE, Yes, "Reconciled", noun + " (" + name + ") created successfully", now, i);
    case ToDegraded(reason, message) =>
      SetMovesTime(cs, AVAILABLE, No, reason, message, now, i);
      SetMovesTime(Set(cs, AVAILABLE, No, reason, message, now), DEGRADED, Yes, reason, message, now, i);
  }

  /** Repeating an update changes nothing, however much later. So a reconcile that ends like the
      one before it, well or badly, leaves the status as it is and cannot trigger itself. */
  lemma RepeatedUpdateIsIdle(cs: seq<Condition>, u: Update, t1: Time, t2: Time)
    ensures Apply(Apply(cs, u, t1), u, t2) == Apply(cs, u, t1)
    ensures Apply(cs, u, t1) != [] && Apply(Apply(cs, u, t1), ToUnknown, t2) == Apply(cs, u, t1)
  {
    assert AVAILABLE != DEGRADED by { assert AVAILABLE[0] != DEGRADED[0]; }
    var ds := Apply(cs, u, t1);
    match u
    case ToUnknown =>
    case ToComplete(noun, name) =>
      var m, m' := noun + " (" + name + ") reconciled successfully", noun + " (" + name + ") created successfully";
      var es := Set(cs, DEGRADED, No, "Reconciled", m, t1);
      SetMeans(cs, DEGRADED, No, "Reconciled", m, t1);
      SetMeans(es, AVAILABLE, Yes, "Reconciled", m', t1);
      SetAgain(ds, DEGRADED, No, "Reconciled", m, t2);
      SetAgain(ds, AVAILABLE, Yes, "Reconciled", m', t2);
    case ToDegraded(reason, message) =>
      var es := Set(cs, AVAILABLE, No, reason, message, t1);
      SetMeans(cs, AVAILABLE, No, reason, message, t1);
      SetMeans(es, DEGRADED, Yes, reason, message, t1);
      SetAgain(ds, AVAILABLE, No, reason, message, t2);
      SetAgain(ds, DEGRADED, Yes, reason, message, t2);
  }

  // ---- What each update shows ----

  // The condition of this kind is there with this status, reason and message.
  predicate Shows(cs: seq<Condition>, kind: string, status: Truth, reason: string, message: string) {
    && Find(cs, kind) < |cs|
    && var c := cs[Find(cs, kind)]; c.status == status && c.reason == reason && c.message == message
  }

  // The first update begins a status that is empty and touches no other.
  function BegunAt(cs: seq<Condition>, now: Time): seq<Condition> {
    if cs == [] then [Condition("Available", Unknown, "Reconciling", "Starting reconciliation", now)] else cs
  }

  lemma UnknownShows(cs: seq<Condition>, now: Time)
    ensures Apply(cs, ToUnknown, now) == BegunAt(cs, now)
  {
  }

  lemma CompleteShows(cs: seq<Condition>, noun: string, name: string, now: Time)
    ensures var ds := Apply(cs, ToComplete(noun, name), now);
      && Shows(ds, "Available", Yes, "Reconciled", noun + " (" + name + ") created successfully")
      && Shows(ds, "Degraded", No, "Reconciled", noun + " (" + name + ") reconciled successfully")
  {
    assert AVAILABLE != DEGRADED by { assert AVAILABLE[0] != DEGRADED[0]; }
    var m := noun + " (" + name + ") reconciled successfully";
    SetMeans(cs, DEGRADED, No, "Reconciled", m, now);
    SetMeans(Set(cs, DEGRADED, No, "Reconciled", m, now), AVAILABLE, Yes, "Reconciled", noun + " (" + name + ") created successfully", now);
  }

  lemma DegradedShows(cs: seq<Condition>, reason: string, message: string, now: Time)
    ensures var ds := Apply(cs, ToDegraded(reason, message), now);
      Shows(ds, "Available", No, reason, message) && Shows(ds, "Degraded", Yes, reason, message)
  {
    assert AVAILABLE != DEGRADED by { assert AVAILABLE[0] != DEGRADED[0]; }
    SetMeans(cs, AVAILABLE, No, reason, message, now);
    SetMeans(Set(cs, AVAILABLE, No, reason, message, now), DEGRADED, Yes, reason, message, now);
  }

  // No update touches a condition of another kind.
  lemma OthersStay(cs: seq<Condition>, u: Update, now: Time, kind: string)
    requires kind != "Available" && kind != "Degraded"
    ensures var ds := Apply(cs, u, now);
      && (Find(ds, kind) < |ds| <==> Find(cs, kind) < |cs|)
      && (Find(cs, kind) < |cs| ==> ds[Find(ds, kind)] == cs[Find(cs, kind)])
  {
    match u
    case ToUnknown =>
    case ToComplete(noun, name) =>
      var m := noun + " (" + name + ") reconciled successfully";
      SetMeans(cs, DEGRADED, No, "Reconciled", m, now);
      SetMeans(Set(cs, DEGRADED, No, "Reconciled", m, now), AVAILABLE, Yes, "Reconciled", noun + " (" + name + ") created successfully", now);
    case ToDegraded(reason, message) =>
      SetMeans(cs, AVAILABLE, No, reason, message, now);
      SetMeans(Set(cs, AVAILABLE, No, reason, message, now), DEGRADED, Yes, reason, message, now);
  }

  // ---- The Perses controller's volume check ----

  // It sets Degraded alone, so a Perses that was available is then both available and degraded.
  function MarkInvalidVolumes(cs: seq<Condition>, message: string, now: Time): seq<Condition> {
    Set(cs, DEGRADED, Yes, "InvalidConfiguration", message, now)
  }

  lemma AvailableAndDegraded(cs: seq<Condition>, message: string, now: Time)
    ensures var ds := MarkInvalidVolumes(cs, message, now);
      && (Is(ds, AVAILABLE, Yes) && Is(ds, DEGRADED, Yes) <==> Is(cs, AVAILABLE, Yes))
      && Shows(ds, "Degraded", Yes, "InvalidConfiguration", message)
  {
    assert AVAILABLE != DEGRADED by { assert AVAILABLE[0] != DEGRADED[0]; }
    SetMeans(cs, DEGRADED, Yes, "InvalidConfiguration", message, now);
  }

  // ---- Snapshot and comparison ----

  // A copy in fresh storage, so that later in-place changes do not show in it.
  method SnapshotConditions(conditions: array<Condition>) returns (snapshot: array<Condition>)
    ensures fresh(snapshot) && snapshot[..] == conditions[..]
  {
    snapshot := new Condition[conditions.Length](i requires 0 <= i < conditions.Length reads conditions => conditions[i]);
  }

  // Sets a condition that is already present, in place, as the library does.
  method SetInPlace(conditions: array<Condition>, kind: string, status: Truth, reason: string, message: string, now: Time)
    requires Find(conditions[..], kind) < conditions.Length
    modifies conditions
    ensures conditions[..] == Set(old(conditions[..]), kind, status, reason, message, now)
  {
    var i := 0;
    while conditions[i].kind != kind
      invariant 0 <= i <= Find(conditions[..], kind)
      invariant conditions[..] == old(conditions[..])
      decreases conditions.Length - i
    {
      i := i + 1;
    }
    FindIsFirst(conditions[..], kind, Find(conditions[..], kind));
    assert i == Find(conditions[..], kind);
    conditions[i] := Updated(conditions[i], status, reason, message, now);
  }

  // A condition of a new kind is appended, which moves all of them to fresh storage.
  method SetCondition(conditions: array<Condition>, kind: string, status: Truth, reason: string, message: string, now: Time)
    returns (after: array<Condition>)
    modifies conditions
    ensures after[..] == Set(old(conditions[..]), kind, status, reason, message, now)
    ensures if Find(old(conditions[..]), kind) < conditions.Length then after == conditions
            else fresh(after) && conditions[..] == old(conditions[..])
  {
    var n := Find(conditions[..], kind);
    if n < conditions.Length {
      SetInPlace(conditions, kind, status, reason, message, now);
      after := conditions;
    } else {
      after := new Condition[n + 1](i requires 0 <= i <= n && n == conditions.Length reads conditions =>
        if i < n then conditions[i] else Condition(kind, status, reason, message, now));
      assert after[..] == conditions[..] + [Condition(kind, status, reason, message, now)];
    }
  }

  // Snapshot, change, compare: the change is seen exactly when there is one.
  method SetAndCompare(conditions: array<Condition>, kind: string, status: Truth, reason: string, message: string, now: Time)
    returns (after: array<Condition>, changed: bool)
    modifies conditions
    ensures after[..] == Set(old(conditions[..]), kind, status, reason, message, now)
    ensures changed <==> after[..] != old(conditions[..])
  {
    var before := SnapshotConditions(conditions);
    after := SetCondition(conditions, kind, status, reason, message, now);
    changed := before[..] != after[..];
  }
}
