/** Progress of the step system, status writes aside: each step of the informer or the operator that
    goes well brings the controller closer to rest, such a step exists until it rests, and what keeps
    it from ever resting. `Controller` adds the status writes and draws the conclusions. */
module Convergence {
  import opened Wrappers
  import opened Backend
  import opened InstanceSync
  import opened SyncProtocol
  import opened NoLostSyncProof
  import opened MapSums

  // A step of the informer or the operator that goes well.
  predicate Quiet(s: State, e: Event) {
    && Enabled(s, e)
    && match e
       case Deliver(k) => true
       case Promote(k) => true
       case Take(k) => true
       case ReadCr(k) => true
       case Finish(k) => true
       case List(k, order) => s.works[k].HasCr? ==> s.works[k].cr.selector.Valid() && order != []
       case Visit(k, a) => s.works[k].todo[0].available ==> s.works[k].todo[0].id in s.servers && a.FaultFree()
       case VisitDelete(k, a) =>
         s.works[k].left[0] in s.servers && Delete(s.servers[s.works[k].left[0]], s.Ref(k), a).outcome == Continue
       case _ => false
  }

  // ---- How much work is left ----

  function Weight(w: Work, n: nat): nat {
    match w
    case Started => n + 4
    case HasCr(_) => n + 3
    case FoundGone => n + 3
    case Syncing(_, todo) => |todo| + 1
    case Deleting(left) => |left| + 1
  }

  function Weights(works: map<Key, Work>, n: nat): map<Key, int> {
    map k | k in works :: Weight(works[k], n)
  }

  ghost function Load(n: nat, pending: nat, delayed: nat, dirty: nat, works: int): int {
    pending * (n + 7) + delayed * (n + 6) + dirty * (n + 5) + works
  }

  ghost function Rank(s: State): int {
    Load(|s.instances|, |s.pending|, |s.delayed|, |s.dirty|, Sum(Weights(s.works, |s.instances|)))
  }

  lemma RankNonNegative(s: State)
    ensures Rank(s) >= 0
  {
    SumNonNegative(Weights(s.works, |s.instances|));
  }

  lemma WorkMoves(s: State, k: Key, w: Work)
    ensures var n := |s.instances|;
      Sum(Weights(s.works[k := w], n)) ==
        Sum(Weights(s.works, n)) + Weight(w, n) - (if k in s.works then Weight(s.works[k], n) else 0)
  {
    var n := |s.instances|;
    assert Weights(s.works[k := w], n) == Weights(s.works, n)[k := Weight(w, n)];
    SumUpdate(Weights(s.works, n), k, Weight(w, n));
  }

  lemma WorkEnds(s: State, k: Key)
    requires k in s.works
    ensures var n := |s.instances|;
      Sum(Weights(s.works - {k}, n)) == Sum(Weights(s.works, n)) - Weight(s.works[k], n)
  {
    var n := |s.instances|;
    assert Weights(s.works - {k}, n) == Weights(s.works, n) - {k};
    SumRemove(Weights(s.works, n), k);
  }

  lemma {:induction false} DistinctFits(order: seq<InstanceId>, ids: set<InstanceId>)
    requires forall i, j :: 0 <= i < j < |order| ==> order[i] != order[j]
    requires forall i :: 0 <= i < |order| ==> order[i] in ids
    ensures |order| <= |ids|
    decreases |order|
  {
    if order != [] { DistinctFits(order[1..], ids - {order[0]}); }
  }

  // Moving one key down the queue makes the load smaller.
  lemma LoadDrops(n: nat, p: nat, d: nat, q: nat, w: int, q': nat)
    requires q' <= q + 1
    ensures p > 0 ==> Load(n, p - 1, d, q', w) < Load(n, p, d, q, w)
    ensures d > 0 ==> Load(n, p, d - 1, q', w) < Load(n, p, d, q, w)
    ensures q > 0 ==> Load(n, p, d, q - 1, w + n + 4) < Load(n, p, d, q, w)
  {
    assert q' * (n + 5) <= (q + 1) * (n + 5);
  }

  lemma AddOne<T>(a: set<T>, x: T)
    ensures |a + {x}| <= |a| + 1
  {
    if x in a { assert a + {x} == a; }
  }

  lemma DeliverStep(s: State, k: Key)
    requires k in s.pending
    ensures Rank(Apply(s, Deliver(k))) < Rank(s)
  {
    hide Load, Sum;
    AddOne(s.dirty, k);
    LoadDrops(|s.instances|, |s.pending|, |s.delayed|, |s.dirty|, Sum(Weights(s.works, |s.instances|)), |s.dirty + {k}|);
    assert |s.pending - {k}| == |s.pending| - 1;
  }

  lemma PromoteStep(s: State, k: Key)
    requires k in s.delayed
    ensures Rank(Apply(s, Promote(k))) < Rank(s)
  {
    hide Load, Sum;
    AddOne(s.dirty, k);
    LoadDrops(|s.instances|, |s.pending|, |s.delayed|, |s.dirty|, Sum(Weights(s.works, |s.instances|)), |s.dirty + {k}|);
    assert |s.delayed - {k}| == |s.delayed| - 1;
  }

  lemma TakeStep(s: State, k: Key)
    requires k in s.dirty && k !in s.works
    ensures Rank(Apply(s, Take(k))) < Rank(s)
  {
    hide Load, Sum;
    WorkMoves(s, k, Started);
    LoadDrops(|s.instances|, |s.pending|, |s.delayed|, |s.dirty|, Sum(Weights(s.works, |s.instances|)), 0);
    assert |s.dirty - {k}| == |s.dirty| - 1;
  }

  lemma MoveDrops(s: State, t: State, k: Key)
    requires t == s.(servers := t.servers, works := t.works) && k in s.works && k in t.works
    requires t.works == s.works[k := t.works[k]]
    requires Weight(t.works[k], |s.instances|) < Weight(s.works[k], |s.instances|)
    ensures Rank(t) < Rank(s)
  {
    hide Sum, Load;
    WorkMoves(s, k, t.works[k]);
    var n := |s.instances|;
    LighterWork(n, |s.pending|, |s.delayed|, |s.dirty|, Sum(Weights(s.works, n)), Sum(Weights(t.works, n)));
  }

  lemma ListStep(s: State, k: Key, order: seq<InstanceId>)
    requires Quiet(s, List(k, order))
    ensures Rank(Apply(s, List(k, order))) < Rank(s)
  {
    hide Rank;
    DistinctFits(order, MatchingIds(s, s.works[k]));
    MatchingFew(s, s.works[k]);
    MoveDrops(s, Apply(s, List(k, order)), k);
  }

  lemma VisitStep(s: State, k: Key, a: Replies)
    requires Quiet(s, Visit(k, a))
    ensures Rank(Apply(s, Visit(k, a))) < Rank(s)
  {
    hide Rank, Sync;
    var todo := s.works[k].todo;
    if todo[0].available { SyncSettles(s.servers[todo[0].id], s.Wanted(k, s.works[k].cr), a); }
    MoveDrops(s, Apply(s, Visit(k, a)), k);
  }

  lemma LighterWork(n: nat, p: nat, d: nat, q: nat, w: int, w': int)
    requires w' < w
    ensures Load(n, p, d, q, w') < Load(n, p, d, q, w)
  {
  }

  lemma FinishStep(s: State, k: Key)
    requires Quiet(s, Finish(k))
    ensures Rank(Apply(s, Finish(k))) < Rank(s)
  {
    hide Sum, Load;
    WorkEnds(s, k);
    var n := |s.instances|;
    assert Apply(s, Finish(k)) == s.Done(k);
    LighterWork(n, |s.pending|, |s.delayed|, |s.dirty|, Sum(Weights(s.works, n)), Sum(Weights(s.works - {k}, n)));
  }

  lemma ReadStep(s: State, k: Key)
    requires Quiet(s, ReadCr(k))
    ensures Rank(Apply(s, ReadCr(k))) < Rank(s)
  {
    hide Rank;
    MoveDrops(s, Apply(s, ReadCr(k)), k);
  }

  lemma VisitDeleteStep(s: State, k: Key, a: DeleteReplies)
    requires Quiet(s, VisitDelete(k, a))
    ensures Rank(Apply(s, VisitDelete(k, a))) < Rank(s)
  {
    hide Rank, Delete;
    MoveDrops(s, Apply(s, VisitDelete(k, a)), k);
  }

  lemma MatchingFew(s: State, w: Work)
    ensures |MatchingIds(s, w)| <= |s.instances|
  {
    SubsetCard(MatchingIds(s, w), s.instances.Keys);
  }

  lemma {:induction false} SubsetCard<T>(a: set<T>, b: set<T>)
    requires a <= b
    ensures |a| <= |b|
    decreases |a|
  {
    if a != {} {
      var x :| x in a;
      SubsetCard(a - {x}, b - {x});
    }
  }

  // Each good step brings the controller strictly closer to rest.
  lemma QuietStepsDescend(s: State, e: Event)
    requires Quiet(s, e)
    ensures 0 <= Rank(Apply(s, e)) < Rank(s)
  {
    hide Apply, Rank;
    RankNonNegative(Apply(s, e));
    match e
    case Deliver(k) => DeliverStep(s, k);
    case Promote(k) => PromoteStep(s, k);
    case Take(k) => TakeStep(s, k);
    case List(k, order) => ListStep(s, k, order);
    case Visit(k, a) => VisitStep(s, k, a);
    case ReadCr(k) => ReadStep(s, k);
    case VisitDelete(k, a) => VisitDeleteStep(s, k, a);
    case Finish(k) => FinishStep(s, k);
    case _ => assert false;
  }

  // ---- A good step exists until the controller rests ----

  // The selector is well formed and selects some instance; otherwise the retry never ends.
  ghost predicate Placeable(s: State, cr: Cr) {
    cr.selector.Valid() && exists id :: id in s.instances && cr.selector.Matches(s.instances[id].labels)
  }

  // The project is there on every instance; otherwise deletion never goes through.
  predicate Removable(s: State, k: Key) {
    s.kind.InProject() ==> forall id :: id in s.servers ==> k.ns in s.servers[id].projects
  }

  ghost predicate CalmWork(s: State, k: Key, w: Work) {
    match w
    case Started => true
    case HasCr(cr) => Placeable(s, cr)
    case FoundGone => Removable(s, k)
    case Syncing(_, todo) => forall j :: 0 <= j < |todo| ==> todo[j].id in s.servers
    case Deleting(left) => Removable(s, k) && forall j :: 0 <= j < |left| ==> left[j] in s.servers
  }

  ghost predicate Calm(s: State) {
    && s.servers.Keys == s.instances.Keys
    && (forall k :: k in s.crs && (Queued(s, k) || k in s.works) ==> Placeable(s, s.crs[k]))
    && (forall k :: k in s.works ==> CalmWork(s, k, s.works[k]))
    && (forall k :: k !in s.crs && (Queued(s, k) || k in s.works) ==> Removable(s, k))
  }

  predicate SameSetting(s: State, t: State) {
    t.instances == s.instances && t.crs == s.crs && t.kind == s.kind && t.servers.Keys == s.servers.Keys
  }

  // The step moves nothing but the reconcile of one key, and perhaps that key into the delayed ones.
  ghost predicate MovesOnly(s: State, t: State, k: Key) {
    && t.dirty == s.dirty && t.pending == s.pending && (t.delayed == s.delayed || t.delayed == s.delayed + {k})
    && forall q :: q != k ==> (q in t.works <==> q in s.works) && (q in s.works ==> t.works[q] == s.works[q])
  }

  lemma Moved(s: State, servers: map<InstanceId, Server>, k: Key, w: Work)
    requires k in s.works
    ensures MovesOnly(s, s.(servers := servers).At(k, w), k) && MovesOnly(s, s.(servers := servers).Fail(k), k)
  {
  }

  lemma VisitFrame(s: State, k: Key, a: Replies)
    requires Enabled(s, Visit(k, a))
    ensures SameSetting(s, AfterVisit(s, k, a)) && MovesOnly(s, AfterVisit(s, k, a), k)
  {
    hide Sync, MovesOnly;
    var Syncing(cr, todo) := s.works[k];
    Moved(s, s.servers, k, Syncing(cr, todo[1..]));
    if todo[0].id in s.servers {
      var e := Sync(s.servers[todo[0].id], s.Wanted(k, cr), a);
      Moved(s, s.servers[todo[0].id := e.server], k, Syncing(cr, todo[1..]));
    }
  }

  lemma VisitDeleteFrame(s: State, k: Key, a: DeleteReplies)
    requires Enabled(s, VisitDelete(k, a))
    ensures SameSetting(s, AfterVisitDelete(s, k, a)) && MovesOnly(s, AfterVisitDelete(s, k, a), k)
  {
    hide Delete, MovesOnly;
    var left := s.works[k].left;
    Moved(s, s.servers, k, Deleting(left[1..]));
    if left[0] in s.servers {
      var e := Delete(s.servers[left[0]], s.Ref(k), a);
      Moved(s, s.servers[left[0] := e.server], k, Deleting(left[1..]));
    }
  }

  lemma QuietFrame(s: State, e: Event)
    requires Quiet(s, e)
    ensures SameSetting(s, Apply(s, e))
  {
    hide AfterVisit, AfterVisitDelete;
    if e.Visit? { VisitFrame(s, e.key, e.replies); }
    if e.VisitDelete? { VisitDeleteFrame(s, e.key, e.answers); }
  }

  lemma QuietKeepsProjects(s: State, e: Event)
    requires Quiet(s, e)
    ensures forall id :: id in s.servers && id in Apply(s, e).servers ==>
              s.servers[id].projects <= Apply(s, e).servers[id].projects
  {
    hide Sync, Delete;
    if e.Visit? && s.works[e.key].todo[0].available {
      SyncFrame(s.servers[s.works[e.key].todo[0].id], s.Wanted(e.key, s.works[e.key].cr), e.replies);
    } else if e.VisitDelete? {
      DeleteFrame(s.servers[s.works[e.key].left[0]], s.Ref(e.key), e.answers);
    }
  }

  lemma CalmVisit(s: State, k: Key, a: Replies)
    requires Quiet(s, Visit(k, a)) && CalmWork(s, k, s.works[k])
    ensures var t := AfterVisit(s, k, a); k in t.works && CalmWork(s, k, t.works[k]) && t.delayed == s.delayed
  {
    hide Sync;
    var v := s.works[k].todo[0];
    if v.available { SyncSettles(s.servers[v.id], s.Wanted(k, s.works[k].cr), a); }
  }

  lemma CalmVisitDelete(s: State, k: Key, a: DeleteReplies)
    requires Quiet(s, VisitDelete(k, a)) && CalmWork(s, k, s.works[k])
    ensures var t := AfterVisitDelete(s, k, a); k in t.works && CalmWork(s, k, t.works[k]) && t.delayed == s.delayed
  {
    hide Delete;
  }

  lemma CalmWorkMoves(s: State, e: Event)
    requires Quiet(s, e) && Calm(s)
    ensures var t := Apply(s, e);
      && (forall k :: k in t.works ==> k in s.works || e == Take(k))
      && (forall k :: k in t.works && k != e.key ==> t.works[k] == s.works[k])
      && (e.key in t.works ==> CalmWork(s, e.key, t.works[e.key]))
      && (forall k :: Queued(t, k) || k in t.works ==> Queued(s, k) || k in s.works)
  {
    hide AfterVisit, AfterVisitDelete, SameSetting;
    if e.Visit? {
      VisitFrame(s, e.key, e.replies);
      CalmVisit(s, e.key, e.replies);
    }
    if e.VisitDelete? {
      VisitDeleteFrame(s, e.key, e.answers);
      CalmVisitDelete(s, e.key, e.answers);
    }
  }

  lemma QuietKeepsCalm(s: State, e: Event)
    requires Quiet(s, e) && Calm(s)
    ensures Calm(Apply(s, e))
  {
    hide Apply;
    QuietFrame(s, e);
    QuietKeepsProjects(s, e);
    CalmWorkMoves(s, e);
    var t := Apply(s, e);
    forall k | k in t.works ensures CalmWork(t, k, t.works[k]) {
      assert CalmWork(s, k, t.works[k]);
      if t.works[k].HasCr? { assert Placeable(s, t.works[k].cr); }
    }
    forall k | k in t.crs && (Queued(t, k) || k in t.works) ensures Placeable(t, t.crs[k]) {
      assert Placeable(s, s.crs[k]);
    }
  }

  lemma {:induction false} Enumerate(ids: set<InstanceId>) returns (order: seq<InstanceId>)
    ensures ListsExactly(order, ids)
    decreases ids
  {
    if ids == {} { order := []; } else {
      var id :| id in ids;
      var rest := Enumerate(ids - {id});
      order := [id] + rest;
    }
  }

  const GOOD: Replies := Replies(true, true, Applied, true, Accepted, Some(""), true, Applied, Applied)
  const GOOD_DELETE: DeleteReplies := DeleteReplies(true, true, Applied, Applied)

  lemma NextForWork(s: State, k: Key) returns (e: Event)
    requires Calm(s) && k in s.works
    ensures Quiet(s, e)
  {
    hide Sync, Delete;
    assert CalmWork(s, k, s.works[k]);
    match s.works[k]
    case Started => e := ReadCr(k);
    case HasCr(cr) =>
      var order := Enumerate(MatchingIds(s, s.works[k]));
      var id :| id in s.instances && cr.selector.Matches(s.instances[id].labels);
      assert id in MatchingIds(s, s.works[k]) && id in order;
      e := List(k, order);
    case FoundGone =>
      var order := Enumerate(MatchingIds(s, s.works[k]));
      e := List(k, order);
    case Syncing(cr, todo) =>
      e := if todo == [] then Finish(k) else Visit(k, GOOD);
    case Deleting(left) =>
      if left == [] { e := Finish(k); } else {
        DeleteClears(s.servers[left[0]], s.Ref(k), GOOD_DELETE);
        e := VisitDelete(k, GOOD_DELETE);
      }
  }

  lemma QuietStepExists(s: State) returns (e: Event)
    requires Calm(s) && !AtRest(s)
    ensures Quiet(s, e)
  {
    if s.works.Keys != {} {
      var k :| k in s.works;
      e := NextForWork(s, k);
    } else {
      assert s.works == map[];
      if s.dirty != {} { var k :| k in s.dirty; e := Take(k); }
      else if s.delayed != {} { var k :| k in s.delayed; e := Promote(k); }
      else { var k :| k in s.pending; e := Deliver(k); }
    }
  }

  lemma RestInSync(s: State)
    requires Inv(s) && AtRest(s)
    ensures AllInSync(s)
  {
    forall k, id | k in s.crs && id in s.instances && s.instances[id].available && s.Selects(k, id)
      ensures id in s.servers && s.servers[id].Holds(s.Ref(k), s.crs[k].doc)
    {
      assert Covered(s, k, id);
    }
  }

  lemma QuietIsBenign(s: State, e: Event)
    requires Quiet(s, e)
    ensures Enabled(s, e) && Benign(s, e)
  {
  }

  // ---- What keeps the queue from ever draining ----

  // Any run at all, faults included, in which the condition holds throughout.
  ghost predicate Throughout(s: State, run: seq<Event>, hold: State -> bool)
    decreases |run|
  {
    hold(s) && (run == [] || (Enabled(s, run[0]) && Throughout(Apply(s, run[0]), run[1..], hold)))
  }

  ghost function After(s: State, run: seq<Event>, hold: State -> bool): State
    requires Throughout(s, run, hold)
    decreases |run|
  {
    if run == [] then s else After(Apply(s, run[0]), run[1..], hold)
  }

  // The custom resource is there, says the same, and no instance can take it.
  ghost function Unplaceable(k: Key, cr: Cr): State -> bool {
    (s: State) => k in s.crs && s.crs[k] == cr && !Placeable(s, cr)
  }

  // A reconcile of the present custom resource is due or has not got as far as the list.
  predicate DueToFail(s: State, k: Key, cr: Cr) {
    Queued(s, k) || (k in s.works && (s.works[k].Started? || s.works[k] == HasCr(cr)))
  }

  lemma UnplaceableFails(s: State, k: Key, order: seq<InstanceId>)
    requires Enabled(s, List(k, order)) && s.works[k].HasCr? && !Placeable(s, s.works[k].cr)
    ensures k in Apply(s, List(k, order)).delayed
  {
    if order != [] { assert order[0] in MatchingIds(s, s.works[k]); }
  }

  // What a step does to the queue and the reconcile of a key that is not its own.
  lemma OtherKeys(s: State, e: Event, k: Key)
    requires Enabled(s, e) && !e.Restart? && !ConcernsKey(e, k)
    ensures var t := Apply(s, e);
      && (Queued(s, k) ==> Queued(t, k))
      && (k in s.works ==> k in t.works && t.works[k] == s.works[k])
  {
    hide AfterVisit, AfterVisitDelete, SameSetting;
    if e.Visit? { VisitFrame(s, e.key, e.replies); }
    if e.VisitDelete? { VisitDeleteFrame(s, e.key, e.answers); }
  }

  predicate ConcernsKey(e: Event, k: Key) {
    match e
    case AddInstance(_, _, _) => false
    case UpdateInstance(_, _, _) => false
    case RemoveInstance(_) => false
    case ForeignWrite(_, _) => false
    case Restart => true
    case _ => e.key == k
  }

  // A step of a key leaves it due if it was, unless it takes it from the queue.
  lemma OwnKeyStaysDue(s: State, e: Event, k: Key)
    requires Enabled(s, e) && !e.Restart? && ConcernsKey(e, k) && Queued(s, k)
    ensures Queued(Apply(s, e), k) || (e == Take(k) && k in Apply(s, e).works && Apply(s, e).works[k].Started?)
  {
    hide AfterVisit, AfterVisitDelete, SameSetting;
    if e.Visit? { VisitFrame(s, e.key, e.replies); }
    if e.VisitDelete? { VisitDeleteFrame(s, e.key, e.answers); }
  }

  lemma UnplaceableStep(s: State, e: Event, k: Key, cr: Cr)
    requires Enabled(s, e) && DueToFail(s, k, cr)
    requires Unplaceable(k, cr)(s) && Unplaceable(k, cr)(Apply(s, e))
    ensures DueToFail(Apply(s, e), k, cr)
  {
    hide AfterVisit, AfterVisitDelete, Placeable;
    if !e.Restart? {
      if !ConcernsKey(e, k) { OtherKeys(s, e, k); }
      else if Queued(s, k) { OwnKeyStaysDue(s, e, k); }
      else if e.List? { UnplaceableFails(s, k, e.order); }
    }
  }

  /** A custom resource that no instance can take, once due, stays due or in process for ever:
      in every state of every run in which that does not change, and so none of them is at rest. */
  lemma {:induction false} UnplaceableNeverRests(s: State, run: seq<Event>, k: Key, cr: Cr)
    requires DueToFail(s, k, cr) && Throughout(s, run, Unplaceable(k, cr))
    ensures DueToFail(After(s, run, Unplaceable(k, cr)), k, cr) && !AtRest(After(s, run, Unplaceable(k, cr)))
    decreases |run|
  {
    hide Apply, Placeable;
    if run != [] {
      UnplaceableStep(s, run[0], k, cr);
      UnplaceableNeverRests(Apply(s, run[0]), run[1..], k, cr);
    }
  }

  // The custom resource is gone, and one instance is without the project.
  ghost function Unremovable(k: Key, id: InstanceId): State -> bool {
    (s: State) => k !in s.crs && s.kind.InProject() && id in s.instances && id in s.servers && k.ns !in s.servers[id].projects
  }

  // A deletion is due, or under way with that instance still ahead.
  predicate DueToStick(s: State, k: Key, id: InstanceId) {
    || Queued(s, k)
    || (k in s.works && match s.works[k]
        case Started => true
        case FoundGone => true
        case Deleting(left) => id in left
        case _ => false)
  }

  lemma MissingProjectFails(s: State, k: Key, a: DeleteReplies)
    requires Enabled(s, VisitDelete(k, a)) && s.kind.InProject()
    requires s.works[k].left[0] in s.servers ==> k.ns !in s.servers[s.works[k].left[0]].projects
    ensures k in Apply(s, VisitDelete(k, a)).delayed
  {
  }

  lemma PassedOrFailed(s: State, k: Key, a: DeleteReplies)
    requires Enabled(s, VisitDelete(k, a))
    ensures var t := Apply(s, VisitDelete(k, a));
      k in t.delayed || (k in t.works && t.works[k] == Deleting(s.works[k].left[1..]))
  {
    hide Delete;
  }

  lemma UnremovableStep(s: State, e: Event, k: Key, id: InstanceId)
    requires Enabled(s, e) && !e.Restart? && DueToStick(s, k, id)
    requires Unremovable(k, id)(s) && Unremovable(k, id)(Apply(s, e))
    ensures DueToStick(Apply(s, e), k, id)
  {
    hide AfterVisit, AfterVisitDelete;
    if !ConcernsKey(e, k) { OtherKeys(s, e, k); }
    else if Queued(s, k) { OwnKeyStaysDue(s, e, k); }
    else if e.List? { assert id in MatchingIds(s, s.works[k]); }
    else if e.VisitDelete? {
      if s.works[k].left[0] == id { MissingProjectFails(s, k, e.answers); } else { PassedOrFailed(s, k, e.answers); }
    }
  }

  predicate NoRestart(run: seq<Event>) { forall i :: 0 <= i < |run| ==> !run[i].Restart? }

  /** A deletion that meets an instance without the project is never done: as long as that
      instance and its lack stay, and without a restart, it stays due or in process. */
  lemma {:induction false} MissingProjectNeverRests(s: State, run: seq<Event>, k: Key, id: InstanceId)
    requires DueToStick(s, k, id) && NoRestart(run) && Throughout(s, run, Unremovable(k, id))
    ensures DueToStick(After(s, run, Unremovable(k, id)), k, id) && !AtRest(After(s, run, Unremovable(k, id)))
    decreases |run|
  {
    hide Apply;
    if run != [] {
      UnremovableStep(s, run[0], k, id);
      MissingProjectNeverRests(Apply(s, run[0]), run[1..], k, id);
    }
  }
}
