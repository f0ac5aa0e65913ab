/** One child controller as a step system: the custom resources in the API server, the
    informer that delivers their changes late, the work queue, the reconciles in flight, the
    Perses instances in the operator's view, and one server per instance. Every step carries
    the choices of its environment, so a run is a sequence of events. */
module SyncProtocol {
  import opened Wrappers
  import opened Backend
  import opened InstanceSync

  type InstanceId = string
  type Labels = map<string, string>

  // ---- Label selectors ----

  datatype Requirement =
    | In(key: string, values: set<string>)
    | NotIn(key: string, values: set<string>)
    | Exists(key: string)
    | DoesNotExist(key: string)
    | UnknownOperator
  {
    predicate Valid() { !UnknownOperator? && ((In? || NotIn?) ==> values != {}) }
    predicate Matches(l: Labels) {
      match this
      case In(k, vs) => k in l && l[k] in vs
      case NotIn(k, vs) => k !in l || l[k] !in vs
      case Exists(k) => k in l
      case DoesNotExist(k) => k !in l
      case UnknownOperator => false
    }
  }

  // A missing selector selects every instance.
  datatype Selector = Everything | Where(all: seq<Requirement>) {
    predicate Valid() { Where? ==> forall j :: 0 <= j < |all| ==> all[j].Valid() }
    predicate Matches(l: Labels) { Where? ==> forall j :: 0 <= j < |all| ==> all[j].Matches(l) }
  }

  // ---- State ----

  datatype Key = Key(ns: string, name: string)

  datatype Cr = Cr(doc: Doc, clientHasSecret: bool, selector: Selector)

  datatype Instance = Instance(labels: Labels, available: bool)

  datatype Listed = Listed(id: InstanceId, available: bool)

  // A reconcile in flight; what it has read stays with it whatever happens meanwhile.
  datatype Work =
    | Started
    | HasCr(cr: Cr)
    | Syncing(cr: Cr, todo: seq<Listed>)
    | FoundGone
    | Deleting(left: seq<InstanceId>)

  datatype State = State(
    kind: Kind,
    crs: map<Key, Cr>,                     // the API server
    pending: set<Key>,                     // changes the informer has yet to deliver
    known: set<Key>,                       // keys in the metadata cache
    instances: map<InstanceId, Instance>,  // the operator's view of the Perses instances
    servers: map<InstanceId, Server>,      // what each instance stores
    dirty: set<Key>,                       // due in the work queue
    delayed: set<Key>,                     // waiting for a rate-limited retry
    works: map<Key, Work>)                 // at most one reconcile per key
  {
    function Ref(k: Key): ObjRef { ObjRef(kind, k.ns, k.name) }
    function Wanted(k: Key, cr: Cr): Resource { Resource(Ref(k), cr.doc, cr.clientHasSecret) }
    function Fail(k: Key): State { this.(works := works - {k}, delayed := delayed + {k}) }
    function Done(k: Key): State { this.(works := works - {k}) }
    function At(k: Key, w: Work): State { this.(works := works[k := w]) }
    predicate Selects(k: Key, id: InstanceId)
      requires k in crs && id in instances
    {
      crs[k].selector.Matches(instances[id].labels)
    }
  }

  function Initial(kind: Kind): State {
    State(kind, map[], {}, {}, map[], map[], {}, {}, map[])
  }

  // ---- Events ----

  datatype Event =
    // users and other API clients; `TouchCr` also stands for the operator's own status writes
    | PutCr(key: Key, cr: Cr)
    | RemoveCr(key: Key)
    | TouchCr(key: Key)
    // the informer; an early delivery shows an older state and leaves the change pending
    | Deliver(key: Key)
    | DeliverEarly(key: Key, present: bool)
    // Perses instances; `listOk` says whether listing the custom resources then works
    | AddInstance(id: InstanceId, instance: Instance, server: Server)
    | UpdateInstance(id: InstanceId, instance: Instance, listOk: bool)
    | RemoveInstance(id: InstanceId)
    | ForeignWrite(id: InstanceId, server: Server)
    // the operator
    | Restart
    | Promote(key: Key)
    | Take(key: Key)
    | ReadCr(key: Key)
    | List(key: Key, order: seq<InstanceId>)
    | Visit(key: Key, replies: Replies)
    | Finish(key: Key)
    | VisitDelete(key: Key, answers: DeleteReplies)
    // any other error, and a status update that finds the custom resource gone
    | Abandon(key: Key)
    | StopSilently(key: Key)

  function MatchingIds(s: State, w: Work): set<InstanceId> {
    if w.HasCr? then set id | id in s.instances && w.cr.selector.Matches(s.instances[id].labels)
    else s.instances.Keys
  }

  predicate ListsExactly(order: seq<InstanceId>, ids: set<InstanceId>) {
    && (forall i, j :: 0 <= i < j < |order| ==> order[i] != order[j])
    && (forall i :: 0 <= i < |order| ==> order[i] in ids)
    && (forall id :: id in ids ==> id in order)
  }

  predicate Enabled(s: State, e: Event) {
    match e
    case PutCr(k, cr) => true
    case RemoveCr(k) => k in s.crs
    case TouchCr(k) => k in s.crs
    case Deliver(k) => k in s.pending
    case DeliverEarly(k, _) => k in s.pending
    case AddInstance(id, _, _) => id !in s.instances
    case UpdateInstance(id, _, _) => id in s.instances
    case RemoveInstance(id) => id in s.instances
    case ForeignWrite(id, _) => id in s.servers
    case Restart => true
    case Promote(k) => k in s.delayed
    case Take(k) => k in s.dirty && k !in s.works
    case ReadCr(k) => k in s.works && s.works[k].Started?
    case List(k, order) => k in s.works && (s.works[k].HasCr? || s.works[k].FoundGone?)
                           && ListsExactly(order, MatchingIds(s, s.works[k]))
    case Visit(k, _) => k in s.works && s.works[k].Syncing? && s.works[k].todo != []
    case Finish(k) => k in s.works && (s.works[k] == Deleting([]) || (s.works[k].Syncing? && s.works[k].todo == []))
    case VisitDelete(k, _) => k in s.works && s.works[k].Deleting? && s.works[k].left != []
    case Abandon(k) => k in s.works
    case StopSilently(k) => k in s.works && k !in s.crs && (s.works[k].HasCr? || s.works[k].Syncing?)
  }

  // The predicate on Perses events lets only a change from not available to available through.
  predicate BecameAvailable(before: Instance, after: Instance) {
    !before.available && after.available
  }

  function AfterUpdate(s: State, id: InstanceId, i: Instance, listOk: bool): State
    requires id in s.instances
  {
    s.(instances := s.instances[id := i],
       dirty := if BecameAvailable(s.instances[id], i) && listOk then s.dirty + s.known else s.dirty)
  }

  function Snapshot(s: State, order: seq<InstanceId>): (todo: seq<Listed>)
    requires forall i :: 0 <= i < |order| ==> order[i] in s.instances
    ensures |todo| == |order|
    ensures forall i :: 0 <= i < |order| ==> todo[i] == Listed(order[i], s.instances[order[i]].available)
  {
    seq(|order|, i requires 0 <= i < |order| => Listed(order[i], s.instances[order[i]].available))
  }

  function AfterList(s: State, k: Key, order: seq<InstanceId>): State
    requires Enabled(s, List(k, order))
  {
    match s.works[k]
    case FoundGone => s.At(k, Deleting(order))
    case HasCr(cr) =>
      if !cr.selector.Valid() || order == [] then s.Fail(k)
      else s.At(k, Syncing(cr, Snapshot(s, order)))
  }

  function AfterVisit(s: State, k: Key, a: Replies): State
    requires Enabled(s, Visit(k, a))
  {
    var Syncing(cr, todo) := s.works[k];
    var id := todo[0].id;
    if !todo[0].available then s.At(k, Syncing(cr, todo[1..]))
    else if id !in s.servers then s.Fail(k)
    else
      var e := Sync(s.servers[id], s.Wanted(k, cr), a);
      var t := s.(servers := s.servers[id := e.server]);
      if e.outcome.Halt? then t.Fail(k) else t.At(k, Syncing(cr, todo[1..]))
  }

  function AfterVisitDelete(s: State, k: Key, a: DeleteReplies): State
    requires Enabled(s, VisitDelete(k, a))
  {
    var left := s.works[k].left;
    if left[0] !in s.servers then s.Fail(k)
    else
      var e := Delete(s.servers[left[0]], s.Ref(k), a);
      var t := s.(servers := s.servers[left[0] := e.server]);
      if e.outcome.Halt? then t.Fail(k) else t.At(k, Deleting(left[1..]))
  }

  function Apply(s: State, e: Event): State
    requires Enabled(s, e)
  {
    match e
    case PutCr(k, cr) => s.(crs := s.crs[k := cr], pending := s.pending + {k})
    case RemoveCr(k) => s.(crs := s.crs - {k}, pending := s.pending + {k})
    case TouchCr(k) => s.(pending := s.pending + {k})
    case Deliver(k) =>
      s.(pending := s.pending - {k}, dirty := s.dirty + {k},
         known := if k in s.crs then s.known + {k} else s.known - {k})
    case DeliverEarly(k, present) =>
      s.(dirty := s.dirty + {k}, known := if present then s.known + {k} else s.known - {k})
    case AddInstance(id, i, server) => s.(instances := s.instances[id := i], servers := s.servers[id := server])
    case UpdateInstance(id, i, listOk) => AfterUpdate(s, id, i, listOk)
    case RemoveInstance(id) => s.(instances := s.instances - {id}, servers := s.servers - {id})
    case ForeignWrite(id, server) => s.(servers := s.servers[id := server])
    case Restart => s.(pending := {}, known := s.crs.Keys, dirty := s.crs.Keys, delayed := {}, works := map[])
    case Promote(k) => s.(delayed := s.delayed - {k}, dirty := s.dirty + {k})
    case Take(k) => s.(dirty := s.dirty - {k}).At(k, Started)
    case ReadCr(k) => s.At(k, if k in s.crs then HasCr(s.crs[k]) else FoundGone)
    case List(k, order) => AfterList(s, k, order)
    case Visit(k, a) => AfterVisit(s, k, a)
    case Finish(k) => s.Done(k)
    case VisitDelete(k, a) => AfterVisitDelete(s, k, a)
    case Abandon(k) => s.Fail(k)
    case StopSilently(k) => s.Done(k)
  }

  // ---- The property ----

  predicate Queued(s: State, k: Key) {
    k in s.dirty || k in s.delayed || k in s.pending
  }

  // The reconcile in flight works on the current custom resource and has this instance before it.
  predicate Ahead(w: Work, cr: Cr, id: InstanceId) {
    match w
    case Started => true
    case HasCr(c) => c == cr
    case Syncing(c, todo) => c == cr && Listed(id, true) in todo
    case FoundGone => false
    case Deleting(_) => false
  }

  predicate Covered(s: State, k: Key, id: InstanceId)
    requires k in s.crs
  {
    || (id in s.servers && s.servers[id].Holds(s.Ref(k), s.crs[k].doc))
    || Queued(s, k)
    || (k in s.works && Ahead(s.works[k], s.crs[k], id))
  }

  // Every available, selected instance holds the current copy, or a reconcile is due or on its way to it.
  ghost predicate NoLostSync(s: State) {
    forall k, id :: k in s.crs && id in s.instances && s.instances[id].available && s.Selects(k, id)
      ==> Covered(s, k, id)
  }

  // ---- What the property rests on ----

  // Each custom resource is in the metadata cache or its change is still to be delivered.
  predicate CacheLags(s: State) {
    forall k :: k in s.crs ==> k in s.known || k in s.pending
  }

  predicate Outdated(w: Work, cr: Cr) {
    match w
    case Started => false
    case HasCr(c) => c != cr
    case Syncing(c, _) => c != cr
    case FoundGone => true
    case Deleting(_) => true
  }

  // A reconcile that works on an outdated reading will be followed by another one.
  predicate OutdatedIsDue(s: State) {
    forall k :: k in s.works && k in s.crs && Outdated(s.works[k], s.crs[k]) ==> k in s.dirty || k in s.pending
  }

  ghost predicate Inv(s: State) {
    s.servers.Keys == s.instances.Keys && CacheLags(s) && OutdatedIsDue(s) && NoLostSync(s)
  }

  /** What the environment must refrain from: an instance first seen available, an available
      instance relabelled so that more custom resources select it, a failing list when an
      instance becomes available, and outside writes to this controller's objects. */
  ghost predicate Benign(s: State, e: Event)
    requires Enabled(s, e)
  {
    match e
    case AddInstance(_, i, _) => !i.available
    case UpdateInstance(id, i, listOk) =>
      && (BecameAvailable(s.instances[id], i) ==> listOk)
      && (s.instances[id].available && i.available ==>
            forall k :: k in s.crs && s.crs[k].selector.Matches(i.labels) ==> s.Selects(k, id))
    case ForeignWrite(id, server) =>
      forall k :: k in s.crs ==> server.Copy(s.Ref(k)) == s.servers[id].Copy(s.Ref(k))
    case _ => true
  }

  ghost predicate IsRun(s: State, run: seq<Event>)
    decreases |run|
  {
    run == [] || (Enabled(s, run[0]) && Benign(s, run[0]) && IsRun(Apply(s, run[0]), run[1..]))
  }

  ghost function End(s: State, run: seq<Event>): State
    requires IsRun(s, run)
    decreases |run|
  {
    if run == [] then s else End(Apply(s, run[0]), run[1..])
  }
}
