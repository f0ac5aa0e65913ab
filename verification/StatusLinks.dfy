/** The controllers treat a status update as one step. Here that step is tied to the retry loop
    which performs it, for every interleaving. */
module StatusLinks {
  import opened Wrappers
  import opened Subreconciler
  import opened StatusRetry
  import Conditions
  import ChildReconcile
  import PersesChain

  // ---- Child controllers ----

  function Updating(u: Conditions.Update): (Obj<Conds>, Time) -> Conds {
    (o: Obj<Conds>, now: Time) => Conditions.Apply(o.status, u, now)
  }

  // Whether the last change of the history is the call's own.
  predicate Landed(log: Log<Conds>, o: Outcome<Conds>) {
    |o.log| > |log| && o.log[|o.log| - 1].mine
  }

  function ReplyOf(log: Log<Conds>, o: Outcome<Conds>): ChildReconcile.StatusReply {
    match o.result
    case Wrote => ChildReconcile.Through
    case Unchanged => ChildReconcile.Through
    case NotFound => ChildReconcile.Vanished
    case Conflict => ChildReconcile.Failed("conflict", Landed(log, o))
    case OtherError => ChildReconcile.Failed("request failed", Landed(log, o))
  }

  // The conditions after the one-step update of a version with these conditions.
  function After(cs: Conds, u: Conditions.Update, now: Time, reply: ChildReconcile.StatusReply): Conds {
    ChildReconcile.UpdateStatus(ChildReconcile.Done(map[], [], cs, 0, None), u, now, reply).conditions
  }

  // The present version is what the one-step update makes of the version that was there before.
  ghost predicate HappenedAtOnce(o: Outcome<Conds>, before: Option<Obj<Conds>>, u: Conditions.Update, now: Time, reply: ChildReconcile.StatusReply) {
    before.Some? && Current(o.log) == Some(before.value.(status := After(before.value.status, u, now, reply)))
  }

  ghost predicate AppliedTo(o: Outcome<Conds>, before: Option<Obj<Conds>>, u: Conditions.Update, reply: ChildReconcile.StatusReply) {
    exists now :: HappenedAtOnce(o, before, u, now, reply)
  }

  /** The retry loop with direct reads is the one-step update of the child controllers. It replies
      as the step does; if it goes through or lands, the object is what the step makes of the
      version replaced, or of the present one if nothing needed to be written; otherwise the call
      has changed nothing. */
  lemma ChildStatusIsOneStep(log: Log<Conds>, turns: seq<Turn<Conds>>, u: Conditions.Update)
    requires |turns| == ATTEMPTS && Uncached(turns)
    ensures var o := UpdateStatus(log, turns, Updating(u)); var reply := ReplyOf(log, o);
      && AsStep(o.result) == (match reply
                              case Through => ContinueReconciling()
                              case Vanished => DoNotRequeue()
                              case Failed(e, _) => RequeueWithError(e))
      && (Landed(log, o) ==> AppliedTo(o, Current(o.log[..|o.log| - 1]), u, reply))
      && (o.result == Unchanged ==> AppliedTo(o, Current(o.log), u, reply))
      && (!Landed(log, o) ==> NoOwnChange(o.log, |log|, |o.log|))
      && (reply.Through? ==> Landed(log, o) || o.result == Unchanged)
      && (reply.Vanished? ==> !Landed(log, o))
  {
    hide UpdateStatus, Conditions.Apply;
    var f, o := Updating(u), UpdateStatus(log, turns, Updating(u));
    var reply, n := ReplyOf(log, o), |o.log|;
    UpdateIsAtomic(log, turns, f);
    if Landed(log, o) {
      assert Atomic(o.log, n - 1, f);
      var before := o.log[n - 2].after;
      assert o.log[..n - 1][n - 2] == o.log[n - 2] && Current(o.log[..n - 1]) == before;
      var now :| IsUpdate(before.value, o.log[n - 1].after, f, now);
      assert HappenedAtOnce(o, before, u, now, reply);
    }
    if o.result == Unchanged {
      var now :| Keeps(Current(o.log), f, now);
      assert HappenedAtOnce(o, Current(o.log), u, now, reply);
    }
  }

  // ---- The Perses controller, undisturbed ----

  function Changing(change: PersesChain.StatusChange): (Obj<PersesChain.Perses>, Time) -> PersesChain.Perses {
    (o: Obj<PersesChain.Perses>, now: Time) => PersesChain.Changed(o.status, change, now)
  }

  // The object with the length of its history for a version.
  function View(log: Log<PersesChain.Perses>): Option<PersesChain.Perses> {
    match Current(log)
    case None => None
    case Some(o) => Some(o.status.(version := |log|))
  }

  predicate Alone(turns: seq<Turn<PersesChain.Perses>>) {
    forall i :: 0 <= i < |turns| ==> turns[i].before == [] && turns[i].between == [] && turns[i].lag == 0
  }

  // The faults of the one-step update that stand for what happens to the requests of the first attempt.
  predicate SameFaults(t: Turn<PersesChain.Perses>, which: PersesChain.SubReconciler, env: PersesChain.Env) {
    && t.now == env.now
    && env.faults(which, PersesChain.Get) == (if t.readOk then None else Some("request failed"))
    && env.faults(which, PersesChain.Write) == (if t.write == Answered then None else Some("request failed"))
    && env.lands(which, PersesChain.Write) == (t.write == LostReply)
  }

  lemma VersionsDoNotMatter(p: PersesChain.Perses, change: PersesChain.StatusChange, now: Time, version: nat)
    ensures PersesChain.Changed(p.(version := version), change, now) == PersesChain.Changed(p, change, now).(version := version)
    ensures PersesChain.Changed(p, change, now).version == p.version
  {
    hide Conditions.Apply, Conditions.MarkInvalidVolumes;
  }

  lemma AttemptIsOneStep(log: Log<PersesChain.Perses>, t: Turn<PersesChain.Perses>, which: PersesChain.SubReconciler,
                         change: PersesChain.StatusChange, env: PersesChain.Env)
    requires t.before == [] && t.between == [] && t.lag == 0 && SameFaults(t, which, env)
    requires Current(log).Some? ==> Current(log).value.status.version == 0
    ensures var a := Attempt(log, t, Changing(change)); var q := PersesChain.UpdateStatus(View(log), which, change, env);
      a.result != Conflict && AsStep(a.result) == q.step && View(a.log) == q.perses && (a.inputs != [] <==> q.ran)
  {
    hide PersesChain.Changed;
    if Current(log).Some? { VersionsDoNotMatter(Current(log).value.status, change, t.now, |log|); }
    assert log + Foreign([]) == log && log[..|log|] == log;
    assert "request failed" != PersesChain.NOT_FOUND by { assert |"request failed"| == 14 && |PersesChain.NOT_FOUND| == 9; }
  }

  // With nobody else about, the retry loop of the Perses controller is its one-step update.
  lemma PersesStatusIsOneStep(log: Log<PersesChain.Perses>, turns: seq<Turn<PersesChain.Perses>>, which: PersesChain.SubReconciler,
                              change: PersesChain.StatusChange, env: PersesChain.Env)
    requires |turns| == ATTEMPTS && Alone(turns) && SameFaults(turns[0], which, env)
    requires Current(log).Some? ==> Current(log).value.status.version == 0
    ensures var o := UpdateStatus(log, turns, Changing(change)); var q := PersesChain.UpdateStatus(View(log), which, change, env);
      AsStep(o.result) == q.step && View(o.log) == q.perses && (o.inputs != [] <==> q.ran)
  {
    hide Attempt, PersesChain.UpdateStatus;
    AttemptIsOneStep(log, turns[0], which, change, env);
  }
}
