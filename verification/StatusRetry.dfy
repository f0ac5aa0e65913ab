/** Status updates under optimistic concurrency: read, change, compare, write, and again on
    conflict, while other writers change, remove or re-create the object between any two steps. */
module StatusRetry {
  import opened Wrappers
  import opened Subreconciler
  import Conditions

  type Time = int

  datatype Obj<S(==)> = Obj(rest: string, status: S)

  // One change of the object: who made it, and what it left; None is a removal.
  datatype Change<S(==)> = Change(mine: bool, after: Option<Obj<S>>)

  // The object's whole history; its length serves as the resource version.
  type Log<S(==)> = seq<Change<S>>

  function Current<S(==)>(log: Log<S>): Option<Obj<S>> {
    if log == [] then None else log[|log| - 1].after
  }

  // What other clients of the API server do.
  function Foreign<S(==)>(moves: seq<Option<Obj<S>>>): (log: Log<S>)
    ensures |log| == |moves| && forall i :: 0 <= i < |log| ==> !log[i].mine
  {
    seq(|moves|, i requires 0 <= i < |moves| => Change(false, moves[i]))
  }

  datatype Reply = Answered | Refused | LostReply

  // The surroundings of one attempt: what others do before the read and before the write, how
  // many versions the read lags behind (none if it bypasses the cache), the clock, and whether
  // the two requests get through.
  datatype Turn<S(==)> = Turn(
    before: seq<Option<Obj<S>>>, lag: nat, readOk: bool, now: Time, between: seq<Option<Obj<S>>>, write: Reply)

  datatype Result = Wrote | Unchanged | Conflict | NotFound | OtherError

  const ATTEMPTS := 5

  // `inputs` are the versions the update function was applied to, oldest first; `readAt` is the
  // version that the last attempt read.
  datatype Outcome<S(==)> = Outcome(log: Log<S>, result: Result, inputs: seq<Obj<S>>, readAt: nat)

  function VersionRead(length: nat, lag: nat): (at: nat)
    ensures at <= length && (lag <= length ==> at + lag == length)
  {
    if lag <= length then length - lag else 0
  }

  function Attempt<S(==)>(log: Log<S>, t: Turn<S>, f: (Obj<S>, Time) -> S): Outcome<S> {
    var seen := log + Foreign(t.before);
    var at := VersionRead(|seen|, t.lag);
    if !t.readOk then Outcome(seen, OtherError, [], at)
    else match Current(seen[..at])
      case None => Outcome(seen, NotFound, [], at)
      case Some(o) =>
        if f(o, t.now) == o.status then Outcome(seen, Unchanged, [o], at)
        else Submit(seen + Foreign(t.between), at, o, f(o, t.now), t.write)
  }

  // A write carries the version it was computed from and lands only on that one.
  function Submit<S(==)>(present: Log<S>, at: nat, o: Obj<S>, status: S, write: Reply): Outcome<S> {
    var lands := |present| == at && write != Refused;
    Outcome(if lands then present + [Change(true, Some(o.(status := status)))] else present,
            if write != Answered then OtherError
            else if lands then Wrote
            else if Current(present).None? then NotFound
            else Conflict,
            [o], at)
  }

  // Up to `|turns|` attempts; only a conflict leads to another one.
  function Retry<S(==)>(log: Log<S>, turns: seq<Turn<S>>, f: (Obj<S>, Time) -> S): Outcome<S>
    requires turns != []
    decreases |turns|
  {
    var a := Attempt(log, turns[0], f);
    if a.result != Conflict || |turns| == 1 then a
    else
      var b := Retry(a.log, turns[1..], f);
      Outcome(b.log, b.result, a.inputs + b.inputs, b.readAt)
  }

  function UpdateStatus<S(==)>(log: Log<S>, turns: seq<Turn<S>>, f: (Obj<S>, Time) -> S): Outcome<S>
    requires |turns| == ATTEMPTS
  {
    Retry(log, turns, f)
  }

  function AsStep(r: Result): Step {
    match r
    case Wrote => ContinueReconciling()
    case Unchanged => ContinueReconciling()
    case NotFound => DoNotRequeue()
    case Conflict => RequeueWithError("conflict")
    case OtherError => RequeueWithError("request failed")
  }

  // ---- Refinement of one atomic update ----

  ghost predicate IsUpdate<S>(o: Obj<S>, after: Option<Obj<S>>, f: (Obj<S>, Time) -> S, now: Time) {
    after == Some(o.(status := f(o, now))) && f(o, now) != o.status
  }

  ghost predicate Keeps<S>(o: Option<Obj<S>>, f: (Obj<S>, Time) -> S, now: Time) {
    o.Some? && f(o.value, now) == o.value.status
  }

  // The change is this call's update function applied to exactly the version it replaces.
  ghost predicate IsAtomic<S(!new)>(replaced: Option<Obj<S>>, c: Change<S>, f: (Obj<S>, Time) -> S) {
    replaced.Some? && exists now :: IsUpdate(replaced.value, c.after, f, now)
  }

  ghost predicate Atomic<S(!new)>(log: Log<S>, i: nat, f: (Obj<S>, Time) -> S) {
    0 < i < |log| && IsAtomic(log[i - 1].after, log[i], f)
  }

  predicate NoOwnChange<S(==)>(log: Log<S>, from: nat, to: int) {
    forall i :: from <= i < to <= |log| ==> !log[i].mine
  }

  // The last version read, at the place in the history where it was read.
  ghost predicate LastReadKept<S(!new)>(o: Outcome<S>, f: (Obj<S>, Time) -> S) {
    && o.inputs != [] && o.readAt <= |o.log|
    && Current(o.log[..o.readAt]) == Some(o.inputs[|o.inputs| - 1])
    && exists now :: Keeps(Current(o.log[..o.readAt]), f, now)
  }

  predicate FoundGone<S(==)>(o: Outcome<S>) {
    (o.readAt <= |o.log| && Current(o.log[..o.readAt]).None?) || Current(o.log).None?
  }

  /** What a call adds to the history: at most one change of its own, and that one the last,
      atomic, and made only if the version it replaces really changes. Success without a change
      means that the update leaves the version last read as it is. */
  ghost predicate Refines<S(!new)>(log: Log<S>, o: Outcome<S>, f: (Obj<S>, Time) -> S) {
    var n := |o.log|;
    && |log| <= n && o.log[..|log|] == log
    && NoOwnChange(o.log, |log|, n - 1)
    && (n > |log| && o.log[n - 1].mine ==> Atomic(o.log, n - 1, f))
    && (o.result == Wrote ==> n > |log| && o.log[n - 1].mine)
    && (o.result == Unchanged || o.result == Conflict || o.result == NotFound ==> NoOwnChange(o.log, |log|, n))
    && (o.result == Unchanged ==> LastReadKept(o, f))
    && (o.result == NotFound ==> FoundGone(o))
  }

  // A write based on a version that is no longer the present one is refused: as a conflict if there
  // is an object, as not found if there is none.
  lemma StaleWrites<S>(present: Log<S>, at: nat, o: Obj<S>, status: S)
    ensures var a := Submit(present, at, o, status, Answered);
      if |present| == at then a.result == Wrote && a.log == present + [Change(true, Some(Obj(o.rest, status)))]
      else a.log == present && a.result == (if present == [] || present[|present| - 1].after == None then NotFound else Conflict)
  {
  }

  // A submission of a version that the update does change.
  lemma SubmitRefines<S(!new)>(log: Log<S>, present: Log<S>, at: nat, o: Obj<S>, now: Time, write: Reply, f: (Obj<S>, Time) -> S)
    requires |log| <= |present| && present[..|log|] == log && NoOwnChange(present, |log|, |present|)
    requires at <= |present| && Current(present[..at]) == Some(o) && f(o, now) != o.status
    ensures Refines(log, Submit(present, at, o, f(o, now), write), f)
  {
    var a := Submit(present, at, o, f(o, now), write);
    if |a.log| > |present| {
      assert present[..at] == present && a.log[..|log|] == log;
      assert a.log[|present| - 1] == present[|present| - 1];
      assert IsUpdate(o, a.log[|present|].after, f, now);
    }
  }

  lemma AttemptRefines<S(!new)>(log: Log<S>, t: Turn<S>, f: (Obj<S>, Time) -> S)
    ensures Refines(log, Attempt(log, t, f), f)
  {
    hide Submit;
    var seen := log + Foreign(t.before);
    var at := VersionRead(|seen|, t.lag);
    var present := seen + Foreign(t.between);
    assert seen[..|log|] == log && present[..|log|] == log && present[..at] == seen[..at];
    if t.readOk && Current(seen[..at]).Some? {
      var o := Current(seen[..at]).value;
      if f(o, t.now) != o.status {
        SubmitRefines(log, present, at, o, t.now, t.write, f);
      } else {
        assert Keeps(Current(seen[..at]), f, t.now);
      }
    }
  }

  lemma {:induction false} RetryRefines<S(!new)>(log: Log<S>, turns: seq<Turn<S>>, f: (Obj<S>, Time) -> S)
    requires turns != []
    ensures Refines(log, Retry(log, turns, f), f)
    decreases |turns|
  {
    hide Attempt, Refines;
    var a := Attempt(log, turns[0], f);
    AttemptRefines(log, turns[0], f);
    if a.result == Conflict && |turns| > 1 {
      var b := Retry(a.log, turns[1..], f);
      RetryRefines(a.log, turns[1..], f);
      LaterRefines(log, a, b, f);
    }
  }

  lemma LaterRefines<S(!new)>(log: Log<S>, a: Outcome<S>, b: Outcome<S>, f: (Obj<S>, Time) -> S)
    requires Refines(log, a, f) && a.result == Conflict && Refines(a.log, b, f)
    ensures Refines(log, Outcome(b.log, b.result, a.inputs + b.inputs, b.readAt), f)
  {
    assert b.log[..|log|] == a.log[..|log|];
    assert forall i :: |log| <= i < |a.log| ==> b.log[i] == a.log[i];
    if b.result == Unchanged {
      assert (a.inputs + b.inputs)[|a.inputs + b.inputs| - 1] == b.inputs[|b.inputs| - 1];
    }
  }

  predicate Uncached<S(==)>(turns: seq<Turn<S>>) { forall i :: 0 <= i < |turns| ==> turns[i].lag == 0 }

  lemma UncachedAttempt<S>(log: Log<S>, t: Turn<S>, f: (Obj<S>, Time) -> S)
    requires t.lag == 0
    ensures var a := Attempt(log, t, f);
      && |log| <= |a.log|
      && (a.result == Unchanged ==> a.inputs != [] && Current(a.log) == Some(a.inputs[|a.inputs| - 1]))
      && (a.result == Conflict ==> |a.log| > |log|)
  {
    var seen := log + Foreign(t.before);
    assert seen[..|seen|] == seen;
  }

  lemma {:induction false} UncachedRetry<S>(log: Log<S>, turns: seq<Turn<S>>, f: (Obj<S>, Time) -> S)
    requires turns != [] && Uncached(turns)
    ensures var o := Retry(log, turns, f);
      && |log| <= |o.log|
      && (o.result == Unchanged ==> o.inputs != [] && Current(o.log) == Some(o.inputs[|o.inputs| - 1]))
      && (o.result == Conflict ==> |o.log| >= |log| + |turns|)
    decreases |turns|
  {
    hide Attempt;
    UncachedAttempt(log, turns[0], f);
    var a := Attempt(log, turns[0], f);
    if a.result == Conflict && |turns| > 1 {
      assert Uncached(turns[1..]);
      UncachedRetry(a.log, turns[1..], f);
    }
  }

  /** Main result, over all interleavings: the call refines one atomic update. With reads that
      bypass the cache a skipped write means that the present version, which was read last, is
      left as it is, and conflicts make the call give up only after at least as many foreign
      changes as it made attempts. */
  lemma UpdateIsAtomic<S(!new)>(log: Log<S>, turns: seq<Turn<S>>, f: (Obj<S>, Time) -> S)
    requires |turns| == ATTEMPTS
    ensures var o := UpdateStatus(log, turns, f);
      && Refines(log, o, f)
      && (Uncached(turns) && o.result == Unchanged ==>
            && o.inputs != [] && Current(o.log) == Some(o.inputs[|o.inputs| - 1])
            && exists now :: Keeps(Current(o.log), f, now))
      && (Uncached(turns) && o.result == Conflict ==> |o.log| >= |log| + 5)
  {
    hide Retry;
    var o := UpdateStatus(log, turns, f);
    RetryRefines(log, turns, f);
    if Uncached(turns) {
      UncachedRetry(log, turns, f);
      if o.result == Unchanged {
        var now :| Keeps(Current(o.log[..o.readAt]), f, now);
        assert Keeps(Current(o.log), f, now);
      }
    }
  }

  // ---- The loop as it runs ----

  class ApiServer<S(==)> {
    var log: Log<S>

    constructor (log: Log<S>)
      ensures this.log == log
    {
      this.log := log;
    }

    method Interfere(moves: seq<Option<Obj<S>>>)
      modifies this
      ensures log == old(log) + Foreign(moves)
    {
      log := log + Foreign(moves);
    }

    // A write carries the version it was computed from.
    method PutStatus(o: Obj<S>, version: nat, reply: Reply) returns (r: Result)
      modifies this
      ensures var lands := |old(log)| == version && reply != Refused;
        && log == (if lands then old(log) + [Change(true, Some(o))] else old(log))
        && r == (if reply != Answered then OtherError else if lands then Wrote
                 else if Current(old(log)).None? then NotFound else Conflict)
    {
      r := if reply != Answered then OtherError
           else if |log| == version then Wrote
           else if Current(log).None? then NotFound
           else Conflict;
      if |log| == version && reply != Refused {
        log := log + [Change(true, Some(o))];
      }
    }

    method TryOnce(t: Turn<S>, f: (Obj<S>, Time) -> S) returns (r: Result, inputs: seq<Obj<S>>, version: nat)
      modifies this
      ensures Outcome(log, r, inputs, version) == Attempt(old(log), t, f)
    {
      Interfere(t.before);
      version := VersionRead(|log|, t.lag);
      if !t.readOk { return OtherError, [], version; }
      var seen := Current(log[..version]);
      if seen.None? { return NotFound, [], version; }
      var o := seen.value;
      var changed := o.(status := f(o, t.now));
      inputs := [o];
      if changed.status == o.status { return Unchanged, inputs, version; }
      Interfere(t.between);
      r := PutStatus(changed, version, t.write);
    }

    method UpdateOnConflict(turns: seq<Turn<S>>, f: (Obj<S>, Time) -> S) returns (r: Result, inputs: seq<Obj<S>>, version: nat)
      requires turns != []
      modifies this
      ensures Outcome(log, r, inputs, version) == Retry(old(log), turns, f)
    {
      hide Attempt;
      r, inputs, version := Conflict, [], 0;
      var i := 0;
      while i < |turns|
        invariant 0 <= i <= |turns|
        invariant i < |turns| ==>
          var rest := Retry(log, turns[i..], f);
          Retry(old(log), turns, f) == Outcome(rest.log, rest.result, inputs + rest.inputs, rest.readAt)
        invariant i == |turns| ==> Retry(old(log), turns, f) == Outcome(log, r, inputs, version)
      {
        assert turns[i..][0] == turns[i] && turns[i..][1..] == turns[i + 1..];
        ghost var before := inputs;
        var more: seq<Obj<S>>;
        r, more, version := TryOnce(turns[i], f);
        inputs := inputs + more;
        if r != Conflict { return; }
        i := i + 1;
        if i < |turns| {
          assert inputs + Retry(log, turns[i..], f).inputs == before + (more + Retry(log, turns[i..], f).inputs);
        }
      }
    }
  }

  // ---- The first status of a Perses object ----

  type Conds = seq<Conditions.Condition>

  function Begin(): (Obj<Conds>, Time) -> Conds {
    (o: Obj<Conds>, now: Time) => Conditions.Apply(o.status, Conditions.ToUnknown, now)
  }

  // The flag that the update function leaves behind: some version it saw had no conditions.
  predicate SawNoConditions(o: Outcome<Conds>) {
    exists i :: 0 <= i < |o.inputs| && o.inputs[i].status == []
  }

  // The result of the update itself is dropped unless it is an error.
  function BeginStep(o: Outcome<Conds>): Step {
    if AsStep(o.result).error.Some? then AsStep(o.result)
    else if SawNoConditions(o) then RequeueWithDelay(5)
    else ContinueReconciling()
  }

  /** Only a version without conditions is submitted, so every version read before the last one
      had none; and the last one had some exactly if it was left as it is. */
  lemma {:induction false} WhatWasRead(log: Log<Conds>, turns: seq<Turn<Conds>>)
    requires turns != []
    ensures var o := Retry(log, turns, Begin());
      && (forall i :: 0 <= i < |o.inputs| - 1 ==> o.inputs[i].status == [])
      && (o.result == Unchanged ==> o.inputs != [])
      && (o.inputs != [] ==> (o.inputs[|o.inputs| - 1].status != [] <==> o.result == Unchanged))
      && (o.result == Wrote ==> o.inputs != [])
    decreases |turns|
  {
    hide Attempt;
    ReadOnce(log, turns[0]);
    var a := Attempt(log, turns[0], Begin());
    if a.result == Conflict && |turns| > 1 {
      WhatWasRead(a.log, turns[1..]);
    }
  }

  lemma ReadOnce(log: Log<Conds>, t: Turn<Conds>)
    ensures var a := Attempt(log, t, Begin());
      && |a.inputs| <= 1
      && (a.result == Unchanged || a.result == Wrote || a.result == Conflict ==> a.inputs != [])
      && (a.inputs != [] ==> (a.inputs[0].status != [] <==> a.result == Unchanged))
  {
    hide Conditions.Set;
    var seen := log + Foreign(t.before);
    var now := Current(seen[..VersionRead(|seen|, t.lag)]);
    if now.Some? { BeginsOnlyEmpty(now.value, t.now); }
  }

  lemma BeginsOnlyEmpty(o: Obj<Conds>, now: Time)
    ensures Begin()(o, now) == o.status <==> o.status != []
  {
    Conditions.RepeatedUpdateIsIdle(o.status, Conditions.ToUnknown, now, now);
  }

  /** A run without an error is put off although nothing was written exactly if the last version
      read has conditions and there was an earlier one, which then had none; or if the object
      vanished after a version without conditions was read. */
  lemma PutOffWithoutWritingIff(log: Log<Conds>, turns: seq<Turn<Conds>>)
    requires |turns| == ATTEMPTS
    requires AsStep(UpdateStatus(log, turns, Begin()).result).error.None?
    ensures var o := UpdateStatus(log, turns, Begin());
      && (forall i :: 0 <= i < |o.inputs| - 1 ==> o.inputs[i].status == [])
      && (BeginStep(o).Halts() && o.result != Wrote <==>
            || (|o.inputs| > 1 && o.inputs[|o.inputs| - 1].status != [])
            || (o.inputs != [] && o.result == NotFound))
  {
    hide Retry;
    WhatWasRead(log, turns);
    var o := UpdateStatus(log, turns, Begin());
    if |o.inputs| > 1 { assert o.inputs[0].status == []; }
    if o.inputs != [] && o.result != Unchanged { assert o.inputs[|o.inputs| - 1].status == []; }
  }

  predicate Undisturbed(turns: seq<Turn<Conds>>) {
    Uncached(turns) && forall i :: 0 <= i < |turns| ==> turns[i].between == []
  }

  // Without interference and without a cache the run is put off exactly when the first status was written.
  lemma PutOffIffWritten(log: Log<Conds>, turns: seq<Turn<Conds>>)
    requires |turns| == ATTEMPTS && Undisturbed(turns)
    requires AsStep(UpdateStatus(log, turns, Begin()).result).error.None?
    ensures BeginStep(UpdateStatus(log, turns, Begin())).Halts() <==> UpdateStatus(log, turns, Begin()).result == Wrote
  {
    hide Attempt, BeginStep;
    var a, o := Attempt(log, turns[0], Begin()), UpdateStatus(log, turns, Begin());
    Unhindered(log, turns[0]);
    assert o == a;
    ReadOnce(log, turns[0]);
    PutOffWithoutWritingIff(log, turns);
    if o.result == Wrote { WroteIsPutOff(o); }
  }

  lemma Unhindered(log: Log<Conds>, t: Turn<Conds>)
    requires t.lag == 0 && t.between == []
    ensures var a := Attempt(log, t, Begin()); a.result != Conflict && (a.result == NotFound ==> a.inputs == [])
  {
    var seen := log + Foreign(t.before);
    assert seen + Foreign(t.between) == seen;
  }

  lemma WroteIsPutOff(o: Outcome<Conds>)
    requires o.result == Wrote && o.inputs != [] && o.inputs[|o.inputs| - 1].status == []
    ensures BeginStep(o).Halts()
  {
  }

  // With interference it does happen: the flag survives the conflict.
  lemma PutOffWithoutWriting(c: Conditions.Condition, calm: Turn<Conds>)
    requires calm == Turn([], 0, true, 0, [], Answered)
    ensures var log := [Change(false, Some(Obj("", [])))];
      var turns := [calm.(between := [Some(Obj("", [c]))]), calm, calm, calm, calm];
      var o := UpdateStatus(log, turns, Begin());
      o.result == Unchanged && BeginStep(o) == RequeueWithDelay(5)
  {
    var log: Log<Conds> := [Change(false, Some(Obj("", [])))];
    var turns := [calm.(between := [Some(Obj("", [c]))]), calm, calm, calm, calm];
    var a := Attempt(log, turns[0], Begin());
    assert Conditions.Apply([], Conditions.ToUnknown, 0) != [];
    assert log + Foreign([]) == log && log[..1] == log;
    assert a.result == Conflict && a.inputs == [Obj("", [])];
    assert a.log[|a.log| - 1].after == Some(Obj("", [c]));
    assert turns[1..][0] == calm;
    assert a.log + Foreign([]) == a.log && a.log[..|a.log|] == a.log;
    var b := Attempt(a.log, calm, Begin());
    assert b.result == Unchanged;
    assert Retry(a.log, turns[1..], Begin()) == b;
    var o := UpdateStatus(log, turns, Begin());
    assert o == Outcome(b.log, b.result, a.inputs + b.inputs, b.readAt);
    assert o.inputs[0].status == [];
  }
}
