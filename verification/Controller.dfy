/** A child controller with its status. Every status write of the operator changes the watched
    object, so the informer delivers it back and the key becomes due again: the controller triggers
    itself. What the status says at rest, and that the self-triggering comes to an end. */
module Controller {
  import opened Wrappers
  import opened Backend
  import opened InstanceSync
  import opened SyncProtocol
  import opened NoLostSyncProof
  import opened Convergence
  import opened MapSums
  import Conditions
  import ChildReconcile

  type Conds = seq<Conditions.Condition>

  // The step system together with the conditions of every custom resource there is.
  datatype System = System(noun: string, base: State, conds: map<Key, Conds>) {
    function Status(k: Key): Conds { if k in conds then conds[k] else [] }
    function Complete(k: Key): Conditions.Update { Conditions.ToComplete(noun, k.name) }
  }

  function Start(noun: string, kind: Kind): System { System(noun, Initial(kind), map[]) }

  // An event with what its surroundings add: the time, the text of the error if there is one,
  // whether an abandoned reconcile could not list the instances, and the conditions another
  // client leaves when it touches the object.
  datatype Move = Move(event: Event, now: Conditions.Time, text: string, listFailed: bool, foreign: Conds)

  // The status update that goes with a step.
  function Tells(sys: System, m: Move): Option<Conditions.Update>
    requires Enabled(sys.base, m.event)
  {
    var s := sys.base;
    match m.event
    case ReadCr(k) => if k in s.crs then Some(Conditions.ToUnknown) else None
    case List(k, order) =>
      if s.works[k].HasCr? && s.works[k].cr.selector.Valid() && order == [] then
        Some(Conditions.ToDegraded(ChildReconcile.MISSING_PERSES, ChildReconcile.NO_INSTANCES))
      else None
    case Visit(k, a) => TellsVisit(sys, k, a, m.text)
    case Finish(k) => if s.works[k].Syncing? then Some(sys.Complete(k)) else None
    case Abandon(k) =>
      if m.listFailed && s.works[k].HasCr? then Some(Conditions.ToDegraded(ChildReconcile.MISSING_PERSES, m.text)) else None
    case _ => None
  }

  function TellsVisit(sys: System, k: Key, a: Replies, text: string): Option<Conditions.Update>
    requires Enabled(sys.base, Visit(k, a))
  {
    var Syncing(cr, todo) := sys.base.works[k];
    if !todo[0].available then None
    else if todo[0].id !in sys.base.servers then
      Some(Conditions.ToDegraded(ChildReconcile.ReasonText(ConnectionFailed), text))
    else
      match Sync(sys.base.servers[todo[0].id], sys.base.Wanted(k, cr), a).outcome
      case Continue => None
      case Halt(reason) => Some(Conditions.ToDegraded(ChildReconcile.ReasonText(reason), text))
  }

  // The conditions a step writes; none if the object is gone or would stay as it is.
  function Writes(sys: System, m: Move): Option<Conds>
    requires Enabled(sys.base, m.event)
  {
    match Tells(sys, m)
    case None => None
    case Some(u) =>
      var k := m.event.key;
      var cs := Conditions.Apply(sys.Status(k), u, m.now);
      if k !in sys.base.crs || cs == sys.Status(k) then None else Some(cs)
  }

  // What other clients do to the conditions: a new object has none.
  function Foreign(sys: System, m: Move): map<Key, Conds> {
    match m.event
    case PutCr(k, _) => if k in sys.base.crs then sys.conds else sys.conds[k := []]
    case RemoveCr(k) => sys.conds - {k}
    case TouchCr(k) => sys.conds[k := m.foreign]
    case _ => sys.conds
  }

  function Next(sys: System, m: Move): System
    requires Enabled(sys.base, m.event)
  {
    var t := Apply(sys.base, m.event);
    match Writes(sys, m)
    case None => sys.(base := t, conds := Foreign(sys, m))
    case Some(cs) => sys.(base := t.(pending := t.pending + {m.event.key}), conds := sys.conds[m.event.key := cs])
  }

  ghost predicate IsRun(sys: System, run: seq<Move>)
    decreases |run|
  {
    run == [] || (Enabled(sys.base, run[0].event) && Benign(sys.base, run[0].event) && IsRun(Next(sys, run[0]), run[1..]))
  }

  ghost function End(sys: System, run: seq<Move>): System
    requires IsRun(sys, run)
    decreases |run|
  {
    if run == [] then sys else End(Next(sys, run[0]), run[1..])
  }

  // ---- A status write is a change like any other ----

  lemma WriterStays(sys: System, m: Move)
    requires Enabled(sys.base, m.event) && Writes(sys, m).Some?
    ensures var k := m.event.key;
      && (m.event.ReadCr? || m.event.List? || m.event.Visit? || m.event.Finish? || m.event.Abandon?)
      && k in sys.base.works && k in sys.base.crs && Apply(sys.base, m.event).crs == sys.base.crs
      && Apply(sys.base, m.event).instances == sys.base.instances
  {
    hide TellsVisit, Sync, Delete, Conditions.Apply;
  }

  lemma NextIsTouch(sys: System, m: Move)
    requires Enabled(sys.base, m.event)
    ensures var t := Apply(sys.base, m.event);
      Next(sys, m).base == if Writes(sys, m).Some? then Apply(t, TouchCr(m.event.key)) else t
    ensures Writes(sys, m).Some? ==> Enabled(Apply(sys.base, m.event), TouchCr(m.event.key))
  {
    hide Apply, Writes;
    if Writes(sys, m).Some? {
      WriterStays(sys, m);
      TouchIs(Apply(sys.base, m.event), m.event.key);
    }
  }

  lemma TouchIs(s: State, k: Key)
    requires k in s.crs
    ensures Enabled(s, TouchCr(k)) && Benign(s, TouchCr(k)) && Apply(s, TouchCr(k)) == s.(pending := s.pending + {k})
  {
  }

  // ---- What each step tells ----

  predicate SaysFailed(cs: Conds, reason: string, text: string) {
    Conditions.Shows(cs, "Available", Conditions.No, reason, text) && Conditions.Shows(cs, "Degraded", Conditions.Yes, reason, text)
  }

  // Reading begins a status, and going through the last instance completes it.
  lemma BeginAndEndAreTold(sys: System, m: Move, k: Key)
    requires Enabled(sys.base, m.event) && k in sys.base.crs
    ensures m.event == ReadCr(k) ==> Next(sys, m).Status(k) == Conditions.BegunAt(sys.Status(k), m.now)
    ensures m.event == Finish(k) && sys.base.works[k].Syncing? ==>
      && Conditions.Shows(Next(sys, m).Status(k), "Available", Conditions.Yes, "Reconciled", sys.noun + " (" + k.name + ") created successfully")
      && Conditions.Shows(Next(sys, m).Status(k), "Degraded", Conditions.No, "Reconciled", sys.noun + " (" + k.name + ") reconciled successfully")
  {
    hide Conditions.Apply, Apply;
    Conditions.UnknownShows(sys.Status(k), m.now);
    Conditions.CompleteShows(sys.Status(k), sys.noun, k.name, m.now);
  }

  // Instances that cannot be listed, and one that is gone, are told as well.
  lemma MissingInstancesAreTold(sys: System, m: Move, k: Key)
    requires Enabled(sys.base, m.event) && k in sys.base.crs
    ensures m.event == Abandon(k) && m.listFailed && sys.base.works[k].HasCr? ==> SaysFailed(Next(sys, m).Status(k), "PersesMissing", m.text)
    ensures m.event.Visit? && m.event.key == k ==>
      var v := sys.base.works[k].todo[0]; v.available && v.id !in sys.base.servers ==> SaysFailed(Next(sys, m).Status(k), "PersesConnectionFailed", m.text)
  {
    hide Conditions.Apply, Apply, Sync;
    Conditions.DegradedShows(sys.Status(k), ChildReconcile.MISSING_PERSES, m.text, m.now);
    Conditions.DegradedShows(sys.Status(k), ChildReconcile.ReasonText(ConnectionFailed), m.text, m.now);
  }

  // A removed object has no status, and neither has a new one; a changed spec leaves it alone.
  lemma NewObjectsHaveNoStatus(sys: System, m: Move, k: Key)
    requires Enabled(sys.base, m.event)
    ensures m.event == RemoveCr(k) || (m.event.PutCr? && m.event.key == k && k !in sys.base.crs) ==> Next(sys, m).Status(k) == []
    ensures m.event.PutCr? && m.event.key == k && k in sys.base.crs ==> Next(sys, m).Status(k) == sys.Status(k)
  {
    hide Apply, TellsVisit;
  }

  // An empty list and a failing instance are told with their reason.
  lemma FailuresAreTold(sys: System, m: Move, k: Key)
    requires Enabled(sys.base, m.event) && k in sys.base.crs
    ensures m.event == List(k, []) && sys.base.works[k].HasCr? && sys.base.works[k].cr.selector == Everything ==>
      SaysFailed(Next(sys, m).Status(k), "PersesMissing", "no Perses instances found matching the label selector")
    ensures m.event.Visit? && m.event.key == k ==>
      var v := sys.base.works[k].todo[0];
      v.available && v.id in sys.base.servers ==>
        match Sync(sys.base.servers[v.id], sys.base.Wanted(k, sys.base.works[k].cr), m.event.replies).outcome
        case Continue => Next(sys, m).Status(k) == sys.Status(k)
        case Halt(ConnectionFailed) => SaysFailed(Next(sys, m).Status(k), "PersesConnectionFailed", m.text)
        case Halt(BackendError) => SaysFailed(Next(sys, m).Status(k), "PersesBackendError", m.text)
        case Halt(ValidationFailed) => SaysFailed(Next(sys, m).Status(k), "ValidationFailed", m.text)
        case Halt(InvalidConfiguration) => SaysFailed(Next(sys, m).Status(k), "InvalidConfiguration", m.text)
  {
    hide Conditions.Apply, Apply, Sync;
    Conditions.DegradedShows(sys.Status(k), ChildReconcile.MISSING_PERSES, ChildReconcile.NO_INSTANCES, m.now);
    if m.event.Visit? && m.event.key == k {
      var v := sys.base.works[k].todo[0];
      if v.available && v.id in sys.base.servers {
        var o := Sync(sys.base.servers[v.id], sys.base.Wanted(k, sys.base.works[k].cr), m.event.replies).outcome;
        if o.Halt? { Conditions.DegradedShows(sys.Status(k), ChildReconcile.ReasonText(o.reason), m.text, m.now); }
      }
    }
  }

  // ---- The status is settled, or a reconcile is due or in process ----

  predicate Settled(cs: Conds, u: Conditions.Update) { Conditions.Apply(cs, u, 0) == cs }

  // Once it changes nothing at one time, it changes nothing at any time; and so after it was made.
  lemma SettledAtAnyTime(cs: Conds, u: Conditions.Update, t: Conditions.Time)
    ensures Settled(cs, u) <==> Conditions.Apply(cs, u, t) == cs
    ensures Settled(Conditions.Apply(cs, u, t), u)
  {
    hide Conditions.Apply;
    Conditions.RepeatedUpdateIsIdle(cs, u, 0, t);
    Conditions.RepeatedUpdateIsIdle(cs, u, t, 0);
  }

  predicate Reported(sys: System, k: Key) {
    Queued(sys.base, k) || k in sys.base.works || Settled(sys.Status(k), sys.Complete(k))
  }

  predicate AllReported(sys: System) { forall k :: k in sys.base.crs ==> Reported(sys, k) }

  ghost predicate Inv(sys: System) { SyncProtocol.Inv(sys.base) && AllReported(sys) }

  lemma FinishReports(sys: System, m: Move)
    requires Inv(sys) && Enabled(sys.base, m.event) && m.event.Finish? && m.event.key in sys.base.crs
    ensures Reported(Next(sys, m), m.event.key)
  {
    hide Conditions.Apply;
    var k := m.event.key;
    if sys.base.works[k].Syncing? {
      SettledAtAnyTime(sys.Status(k), sys.Complete(k), m.now);
    } else {
      assert Outdated(sys.base.works[k], sys.base.crs[k]);
    }
  }

  lemma StatusOfOthers(sys: System, m: Move, k: Key)
    requires Enabled(sys.base, m.event) && !ConcernsKey(m.event, k)
    ensures Next(sys, m).Status(k) == sys.Status(k)
  {
    hide Writes, Apply;
    if Writes(sys, m).Some? { WriterStays(sys, m); }
  }

  // Every other step of a key leaves it due or in process, or takes it away.
  lemma OwnStepStaysDue(s: State, e: Event, k: Key)
    requires Enabled(s, e) && ConcernsKey(e, k) && !e.Finish? && k in Apply(s, e).crs
    ensures Queued(Apply(s, e), k) || k in Apply(s, e).works
  {
    hide AfterVisit, AfterVisitDelete, SameSetting;
    if e.Visit? { VisitStaysDue(s, k, e.replies); }
    if e.VisitDelete? { PassedOrFailed(s, k, e.answers); }
  }

  lemma VisitStaysDue(s: State, k: Key, a: Replies)
    requires Enabled(s, Visit(k, a))
    ensures k in AfterVisit(s, k, a).works || k in AfterVisit(s, k, a).delayed
  {
    hide Sync;
  }

  lemma CrsOfOthers(s: State, e: Event, k: Key)
    requires Enabled(s, e) && !ConcernsKey(e, k)
    ensures k in Apply(s, e).crs <==> k in s.crs
  {
    hide AfterVisit, AfterVisitDelete;
    if e.Visit? { VisitFrame(s, e.key, e.replies); }
    if e.VisitDelete? { VisitDeleteFrame(s, e.key, e.answers); }
  }

  lemma StepReports(sys: System, m: Move, k: Key)
    requires Inv(sys) && Enabled(sys.base, m.event) && k in Next(sys, m).base.crs
    ensures Reported(Next(sys, m), k)
  {
    hide Apply, Writes, Foreign, Conditions.Apply, SyncProtocol.Inv;
    NextIsTouch(sys, m);
    var t := Apply(sys.base, m.event);
    if Writes(sys, m).Some? {
      WriterStays(sys, m);
      TouchIs(t, m.event.key);
    }
    if m.event.Finish? && m.event.key == k {
      FinishCrs(sys.base, k);
      FinishReports(sys, m);
    } else if ConcernsKey(m.event, k) {
      OwnStepStaysDue(sys.base, m.event, k);
    } else {
      CrsOfOthers(sys.base, m.event, k);
      OtherKeys(sys.base, m.event, k);
      StatusOfOthers(sys, m, k);
    }
  }

  lemma FinishCrs(s: State, k: Key)
    requires Enabled(s, Finish(k))
    ensures Apply(s, Finish(k)).crs == s.crs
  {
  }

  lemma StepKeepsInv(sys: System, m: Move)
    requires Inv(sys) && Enabled(sys.base, m.event) && Benign(sys.base, m.event)
    ensures Inv(Next(sys, m))
  {
    hide Apply, Writes, Foreign, SyncProtocol.Inv, Reported, Next;
    NoLostSyncProof.StepKeepsInv(sys.base, m.event);
    NextIsTouch(sys, m);
    if Writes(sys, m).Some? {
      WriterStays(sys, m);
      TouchIs(Apply(sys.base, m.event), m.event.key);
      NoLostSyncProof.StepKeepsInv(Apply(sys.base, m.event), TouchCr(m.event.key));
    }
    forall k | k in Next(sys, m).base.crs ensures Reported(Next(sys, m), k) {
      StepReports(sys, m, k);
    }
  }

  lemma {:induction false} RunKeepsInv(sys: System, run: seq<Move>)
    requires Inv(sys) && IsRun(sys, run)
    ensures Inv(End(sys, run)) && End(sys, run).noun == sys.noun
    decreases |run|
  {
    hide Inv, Apply, Writes, Foreign;
    if run != [] {
      StepKeepsInv(sys, run[0]);
      RunKeepsInv(Next(sys, run[0]), run[1..]);
    }
  }

  // Available, not degraded, and so says the status.
  predicate SaysReconciled(cs: Conds) {
    Conditions.Is(cs, Conditions.AVAILABLE, Conditions.Yes) && Conditions.Is(cs, Conditions.DEGRADED, Conditions.No)
  }

  /** Whenever the queue has drained, after any faults and any history: every custom resource says
      that it is reconciled, and it is, on every available instance it selects. */
  lemma RestMeansReconciled(noun: string, kind: Kind, run: seq<Move>)
    requires IsRun(Start(noun, kind), run) && AtRest(End(Start(noun, kind), run).base)
    ensures RestsReconciled(End(Start(noun, kind), run))
  {
    hide Inv, RestsReconciled;
    EmptyIsFine(noun, kind);
    RunKeepsInv(Start(noun, kind), run);
    AtRestReconciled(End(Start(noun, kind), run));
  }

  lemma EmptyIsFine(noun: string, kind: Kind)
    ensures Inv(Start(noun, kind))
  {
  }

  lemma SettledSays(cs: Conds, noun: string, name: string)
    requires Settled(cs, Conditions.ToComplete(noun, name))
    ensures SaysReconciled(cs)
  {
    hide Conditions.Apply;
    ChildReconcile.UpdateShows(cs, Conditions.ToComplete(noun, name), 0);
  }

  // ---- How many status writes are still to come ----

  // In good runs: one to begin the status if there is none, one to complete it.
  function Budget(cs: Conds, u: Conditions.Update): nat {
    if Settled(cs, u) then 0 else if cs == [] then 2 else 1
  }

  function Budgets(sys: System): map<Key, int> {
    map k | k in sys.base.crs :: Budget(sys.Status(k), sys.Complete(k))
  }

  // A status write makes its key pending again, which costs at most one whole pass.
  function Pass(s: State): nat { |s.instances| + 7 }

  ghost function Rank(sys: System): int {
    Convergence.Rank(sys.base) + Pass(sys.base) * Sum(Budgets(sys))
  }

  ghost predicate Quiet(sys: System, m: Move) { Enabled(sys.base, m.event) && Convergence.Quiet(sys.base, m.event) }

  lemma RankNonNegative(sys: System)
    ensures Rank(sys) >= 0
  {
    hide Budget, Convergence.Rank, Sum;
    Convergence.RankNonNegative(sys.base);
    SumNonNegative(Budgets(sys));
    Times(Pass(sys.base), Sum(Budgets(sys)));
  }

  lemma Times(p: nat, a: int)
    requires a >= 0
    ensures p * a >= 0
  {
  }

  // In a good run only the beginning and the end of a reconcile tell anything.
  lemma QuietTells(sys: System, m: Move)
    requires Quiet(sys, m)
    ensures Tells(sys, m).Some? ==>
      || (m.event.ReadCr? && Tells(sys, m) == Some(Conditions.ToUnknown))
      || (m.event.Finish? && Tells(sys, m) == Some(sys.Complete(m.event.key)))
  {
    hide Sync;
    if m.event.Visit? && sys.base.works[m.event.key].todo[0].available {
      var k := m.event.key;
      SyncSettles(sys.base.servers[sys.base.works[k].todo[0].id], sys.base.Wanted(k, sys.base.works[k].cr), m.event.replies);
    }
  }

  lemma BudgetDrops(cs: Conds, u: Conditions.Update, told: Conditions.Update, now: Conditions.Time)
    requires told == Conditions.ToUnknown || told == u
    requires Conditions.Apply(cs, told, now) != cs
    ensures Budget(Conditions.Apply(cs, told, now), u) < Budget(cs, u)
  {
    hide Conditions.Set;
    SettledAtAnyTime(cs, u, now);
    if told == u {
      Conditions.RepeatedUpdateIsIdle(cs, u, now, now);
    } else {
      assert cs == [];
      Conditions.RepeatedUpdateIsIdle(cs, told, now, now);
      NeverSettledEmpty(u, now);
    }
  }

  lemma NeverSettledEmpty(u: Conditions.Update, now: Conditions.Time)
    ensures !Settled([], u)
  {
    hide Conditions.Apply;
    Conditions.RepeatedUpdateIsIdle([], u, 0, now);
  }

  lemma QuietWriteSpends(sys: System, m: Move)
    requires Quiet(sys, m) && Writes(sys, m).Some?
    ensures Sum(Budgets(Next(sys, m))) <= Sum(Budgets(sys)) - 1
  {
    hide Conditions.Apply, Apply, Budget, Sum, Tells;
    var k, next := m.event.key, Next(sys, m);
    WriterStays(sys, m);
    QuietTells(sys, m);
    BudgetDrops(sys.Status(k), sys.Complete(k), Tells(sys, m).value, m.now);
    assert Budgets(next) == Budgets(sys)[k := Budget(next.Status(k), sys.Complete(k))];
    SumUpdate(Budgets(sys), k, Budget(next.Status(k), sys.Complete(k)));
  }

  lemma QuietLeavesOthers(sys: System, m: Move)
    requires Quiet(sys, m) && Writes(sys, m).None?
    ensures Budgets(Next(sys, m)) == Budgets(sys)
  {
    hide Apply, Budget;
    QuietFrame(sys.base, m.event);
  }

  lemma PendingCosts(s: State, k: Key)
    ensures Convergence.Rank(s.(pending := s.pending + {k})) <= Convergence.Rank(s) + Pass(s)
  {
    hide Sum, Load;
    AddOne(s.pending, k);
    var n := |s.instances|;
    OneMorePending(n, |s.pending|, |s.pending + {k}|, |s.delayed|, |s.dirty|, Sum(Weights(s.works, n)));
  }

  lemma OneMorePending(n: nat, p: nat, p': nat, d: nat, q: nat, w: int)
    requires p' <= p + 1
    ensures Load(n, p', d, q, w) <= Load(n, p, d, q, w) + (n + 7)
  {
    Monotone(p', p + 1, n + 7);
  }

  lemma Monotone(a: nat, b: nat, c: nat)
    requires a <= b
    ensures a * c <= b * c
  {
  }

  /** Each good step of informer and operator, with the status writes it makes and the deliveries
      they will cause, brings the controller strictly closer to rest. */
  lemma QuietMovesDescend(sys: System, m: Move)
    requires Quiet(sys, m)
    ensures 0 <= Rank(Next(sys, m)) < Rank(sys)
  {
    hide Apply, Writes, Foreign, Convergence.Rank, Budgets, Sum;
    var t, next := Apply(sys.base, m.event), Next(sys, m);
    RankNonNegative(next);
    QuietStepsDescend(sys.base, m.event);
    QuietFrame(sys.base, m.event);
    if Writes(sys, m).Some? {
      QuietWriteSpends(sys, m);
      PendingCosts(t, m.event.key);
      OneLess(Pass(sys.base), Sum(Budgets(sys)), Sum(Budgets(next)));
    } else {
      QuietLeavesOthers(sys, m);
    }
  }

  lemma OneLess(p: nat, a: int, b: int)
    requires b <= a - 1
    ensures p * b + p <= p * a
  {
    assert p * (b + 1) <= p * a;
  }

  ghost predicate QuietRun(sys: System, run: seq<Move>)
    decreases |run|
  {
    run == [] || (Quiet(sys, run[0]) && QuietRun(Next(sys, run[0]), run[1..]))
  }

  // No good run is longer than the rank: neither retries nor the operator's own status writes go on for ever.
  lemma {:induction false} QuietRunsAreBounded(sys: System, run: seq<Move>)
    requires QuietRun(sys, run)
    ensures |run| <= Rank(sys)
    decreases |run|
  {
    hide Rank, Next, Convergence.Quiet;
    if run == [] { RankNonNegative(sys); } else {
      QuietMovesDescend(sys, run[0]);
      QuietRunsAreBounded(Next(sys, run[0]), run[1..]);
    }
  }

  // ---- Good runs lead to rest ----

  lemma QuietKeepsCalm(sys: System, m: Move)
    requires Quiet(sys, m) && Calm(sys.base)
    ensures Calm(Next(sys, m).base)
  {
    hide Apply, Writes, Foreign, Convergence.Quiet, CalmWork, Removable, Placeable;
    Convergence.QuietKeepsCalm(sys.base, m.event);
    if Writes(sys, m).Some? {
      WriterStays(sys, m);
      var k, t := m.event.key, Apply(sys.base, m.event);
      assert Placeable(sys.base, sys.base.crs[k]);
      SamePlaces(sys.base, t, sys.base.crs[k]);
      CalmTouch(t, k);
    }
  }

  lemma SamePlaces(s: State, t: State, cr: Cr)
    requires t.instances == s.instances
    ensures Placeable(t, cr) <==> Placeable(s, cr)
  {
  }

  lemma CalmTouch(s: State, k: Key)
    requires Calm(s) && k in s.crs && Placeable(s, s.crs[k])
    ensures Calm(s.(pending := s.pending + {k}))
  {
    var t := s.(pending := s.pending + {k});
    forall q | q in t.crs && (Queued(t, q) || q in t.works) ensures Placeable(t, t.crs[q]) {
      if q != k { assert Placeable(s, s.crs[q]); }
      SamePlaces(s, t, t.crs[q]);
    }
    forall q | q in t.works ensures CalmWork(t, q, t.works[q]) {
      assert CalmWork(s, q, s.works[q]);
      if t.works[q].HasCr? { SamePlaces(s, t, t.works[q].cr); }
    }
  }

  lemma {:induction false} QuietRunKeeps(sys: System, run: seq<Move>)
    requires Inv(sys) && Calm(sys.base) && QuietRun(sys, run)
    ensures IsRun(sys, run) && Inv(End(sys, run)) && Calm(End(sys, run).base)
    decreases |run|
  {
    hide Calm, Inv, Next, Convergence.Quiet;
    if run != [] {
      QuietIsBenign(sys.base, run[0].event);
      QuietKeepsCalm(sys, run[0]);
      StepKeepsInv(sys, run[0]);
      QuietRunKeeps(Next(sys, run[0]), run[1..]);
    }
  }

  ghost predicate RestsReconciled(sys: System) {
    AtRest(sys.base) && AllInSync(sys.base) && forall k :: k in sys.base.crs ==> SaysReconciled(sys.Status(k))
  }

  lemma AtRestReconciled(sys: System)
    requires Inv(sys) && AtRest(sys.base)
    ensures RestsReconciled(sys)
  {
    hide SyncProtocol.Inv, AllInSync, SaysReconciled, Conditions.Apply;
    RestInSync(sys.base);
    forall k | k in sys.base.crs ensures SaysReconciled(sys.Status(k)) {
      assert Reported(sys, k);
      SettledSays(sys.Status(k), sys.noun, k.name);
    }
  }

  lemma AsMove(sys: System, e: Event)
    requires Convergence.Quiet(sys.base, e)
    ensures Quiet(sys, Move(e, 0, "", false, []))
  {
  }

  /** Every good run that cannot be continued by another good step has come to rest, with everything
      in sync and every status saying so: no choice of good steps avoids it. */
  lemma MaximalRunsRest(sys: System, run: seq<Move>)
    requires Inv(sys) && Calm(sys.base) && QuietRun(sys, run)
    requires IsRun(sys, run) ==> forall m :: !Quiet(End(sys, run), m)
    ensures IsRun(sys, run) && RestsReconciled(End(sys, run))
  {
    hide Calm, Inv, Convergence.Quiet, RestsReconciled;
    QuietRunKeeps(sys, run);
    var last := End(sys, run);
    if !AtRest(last.base) {
      var e := QuietStepExists(last.base);
      AsMove(last, e);
      assert false;
    }
    AtRestReconciled(last);
  }

  // Such runs exist from every calm state.
  lemma {:induction false} Converges(sys: System) returns (run: seq<Move>)
    requires Inv(sys) && Calm(sys.base)
    ensures QuietRun(sys, run) && IsRun(sys, run) && |run| <= Rank(sys) && RestsReconciled(End(sys, run))
    decreases Rank(sys)
  {
    hide Calm, Inv, Next, Convergence.Quiet, RestsReconciled, Rank;
    RankNonNegative(sys);
    if AtRest(sys.base) {
      run := [];
      AtRestReconciled(sys);
    } else {
      var e := QuietStepExists(sys.base);
      var m := Move(e, 0, "", false, []);
      QuietIsBenign(sys.base, e);
      QuietMovesDescend(sys, m);
      QuietKeepsCalm(sys, m);
      StepKeepsInv(sys, m);
      var rest := Converges(Next(sys, m));
      run := [m] + rest;
      assert run[1..] == rest;
    }
  }

  // ---- Exactly when the queue drains ----

  lemma UnplaceableMove(sys: System, m: Move, k: Key, cr: Cr)
    requires Quiet(sys, m) && DueToFail(sys.base, k, cr) && Unplaceable(k, cr)(sys.base)
    ensures DueToFail(Next(sys, m).base, k, cr) && Unplaceable(k, cr)(Next(sys, m).base)
  {
    hide Apply, Writes, Foreign, Placeable;
    var t := Apply(sys.base, m.event);
    QuietIsBenign(sys.base, m.event);
    QuietFrame(sys.base, m.event);
    SamePlaces(sys.base, t, cr);
    SamePlaces(sys.base, Next(sys, m).base, cr);
    UnplaceableStep(sys.base, m.event, k, cr);
  }

  lemma {:induction false} QuietRunsStayUnplaceable(sys: System, run: seq<Move>, k: Key, cr: Cr)
    requires QuietRun(sys, run) && IsRun(sys, run) && DueToFail(sys.base, k, cr) && Unplaceable(k, cr)(sys.base)
    ensures !AtRest(End(sys, run).base)
    decreases |run|
  {
    hide Next, Convergence.Quiet, Placeable;
    if run != [] {
      UnplaceableMove(sys, run[0], k, cr);
      QuietRunsStayUnplaceable(Next(sys, run[0]), run[1..], k, cr);
    }
  }

  ghost predicate DrainedBy(sys: System, run: seq<Move>) {
    QuietRun(sys, run) && IsRun(sys, run) && AtRest(End(sys, run).base)
  }

  ghost predicate DueArePlaceable(s: State) {
    forall k :: k in s.crs && Queued(s, k) ==> Placeable(s, s.crs[k])
  }

  /** Good steps drain the queue, with nothing in flight and every due deletion possible, exactly
      if each due custom resource has an instance that can take it. */
  lemma DrainsIff(sys: System)
    requires Inv(sys) && sys.base.works == map[] && forall k :: Queued(sys.base, k) && k !in sys.base.crs ==> Removable(sys.base, k)
    ensures (exists run :: DrainedBy(sys, run)) <==> DueArePlaceable(sys.base)
  {
    hide Placeable, Removable, Next;
    var s := sys.base;
    if DueArePlaceable(s) {
      var run := Converges(sys);
      assert DrainedBy(sys, run);
    } else {
      var k :| k in s.crs && Queued(s, k) && !Placeable(s, s.crs[k]);
      forall run | QuietRun(sys, run) ensures !DrainedBy(sys, run) {
        if IsRun(sys, run) { QuietRunsStayUnplaceable(sys, run, k, s.crs[k]); }
      }
    }
  }
}
