/** The index behind the managed-resources gauge: what each object last reported per kind, state
    and namespace, and what a collection therefore shows. */
module Metrics {
  import opened Wrappers
  import opened MapSums

  datatype State = Synced | Failed
  datatype ResourceKey = ResourceKey(resource: string, state: State, namespace: string)

  type Index = map<ResourceKey, map<string, int>>

  function Inner(index: Index, key: ResourceKey): map<string, int> {
    if key in index then index[key] else map[]
  }

  function SetEntry(index: Index, obj: string, key: ResourceKey, v: int): Index {
    index[key := Inner(index, key)[obj := v]]
  }

  // Every trace of the object goes, and with it every key that has no other object.
  function Forget(index: Index, obj: string): Index {
    map key | key in index && index[key] - {obj} != map[] :: index[key] - {obj}
  }

  // Some keys are still to be visited.
  function PartlyForgotten(index: Index, obj: string, left: set<ResourceKey>): Index {
    map key | key in index && (key in left || index[key] - {obj} != map[]) :: if key in left then index[key] else index[key] - {obj}
  }

  lemma PartsOfForget(index: Index, obj: string)
    ensures PartlyForgotten(index, obj, index.Keys) == index && PartlyForgotten(index, obj, {}) == Forget(index, obj)
  {
  }

  // What is left under one key.
  lemma PieceOf(index: Index, obj: string, left: set<ResourceKey>, k: ResourceKey)
    ensures k in PartlyForgotten(index, obj, left) <==> k in index && (k in left || index[k] - {obj} != map[])
    ensures k in PartlyForgotten(index, obj, left) ==>
      PartlyForgotten(index, obj, left)[k] == if k in left then index[k] else index[k] - {obj}
  {
  }

  // One round: the object leaves the inner map of a key, and an inner map left empty leaves too.
  lemma ForgetOneMore(index: Index, obj: string, left: set<ResourceKey>, key: ResourceKey)
    requires key in left && left <= index.Keys
    ensures var before := PartlyForgotten(index, obj, left); var m := index[key] - {obj};
      && key in before && before[key] == index[key]
      && PartlyForgotten(index, obj, left - {key}) == if |m| == 0 then before[key := m] - {key} else before[key := m]
  {
    hide PartlyForgotten;
    var before, after, m := PartlyForgotten(index, obj, left), PartlyForgotten(index, obj, left - {key}), index[key] - {obj};
    PieceOf(index, obj, left, key);
    var next := if |m| == 0 then before[key := m] - {key} else before[key := m];
    assert |m| == 0 <==> m == map[];
    forall k ensures (k in after <==> k in next) && (k in after ==> after[k] == next[k]) {
      PieceOf(index, obj, left, k);
      PieceOf(index, obj, left - {key}, k);
    }
    assert after == next;
  }

  // ---- As it runs ----

  class ResourceMetrics {
    var resources: Index

    constructor ()
      ensures resources == map[]
    {
      resources := map[];
    }

    method SetResources(obj: string, key: ResourceKey, v: int)
      modifies this
      ensures resources == SetEntry(old(resources), obj, key, v)
    {
      if key !in resources {
        resources := resources[key := map[]];
      }
      resources := resources[key := resources[key][obj := v]];
    }

    // The map is iterated in any order, and keys are deleted on the way.
    method ForgetObject(obj: string)
      modifies this
      ensures resources == Forget(old(resources), obj)
    {
      hide PartlyForgotten, Forget;
      var left := resources.Keys;
      PartsOfForget(resources, obj);
      while left != {}
        invariant left <= old(resources).Keys
        invariant resources == PartlyForgotten(old(resources), obj, left)
        decreases left
      {
        var key :| key in left;
        ForgetOneMore(old(resources), obj, left, key);
        left := left - {key};
        resources := resources[key := resources[key] - {obj}];
        if |resources[key]| == 0 {
          resources := resources - {key};
        }
      }
    }

    method Collect() returns (totals: map<ResourceKey, int>)
      ensures totals.Keys == resources.Keys
      ensures forall key :: key in totals ==> totals[key] == Sum(resources[key])
    {
      totals := map[];
      var left := resources.Keys;
      while left != {}
        invariant left <= resources.Keys && totals.Keys == resources.Keys - left
        invariant forall key :: key in totals ==> totals[key] == Sum(resources[key])
        decreases left
      {
        var key :| key in left;
        var total := Total(resources[key]);
        totals := totals[key := total];
        left := left - {key};
      }
    }
  }

  method Total(m: map<string, int>) returns (total: int)
    ensures total == Sum(m)
  {
    total := 0;
    var left := m;
    while left != map[]
      invariant total + Sum(left) == Sum(m)
      decreases |left|
    {
      assert left.Keys == {} ==> left == map[];
      var obj :| obj in left.Keys;
      SumRemove(left, obj);
      assert (left - {obj}).Keys == left.Keys - {obj};
      total := total + left[obj];
      left := left - {obj};
    }
    assert Sum(left) == 0;
  }

  // ---- History ----

  datatype Event = Reported(obj: string, key: ResourceKey, v: int) | Forgotten(obj: string)

  function Apply(index: Index, e: Event): Index {
    match e
    case Reported(obj, key, v) => SetEntry(index, obj, key, v)
    case Forgotten(obj) => Forget(index, obj)
  }

  function After(events: seq<Event>): Index {
    if events == [] then map[] else Apply(After(events[..|events| - 1]), events[|events| - 1])
  }

  // The last value the object reported for the key since it was last forgotten.
  function Last(events: seq<Event>, key: ResourceKey, obj: string): Option<int> {
    if events == [] then None
    else
      var e := events[|events| - 1];
      if e == Forgotten(obj) then None
      else if e.Reported? && e.obj == obj && e.key == key then Some(e.v)
      else Last(events[..|events| - 1], key, obj)
  }

  function Entry(index: Index, key: ResourceKey, obj: string): Option<int> {
    if obj in Inner(index, key) then Some(Inner(index, key)[obj]) else None
  }

  lemma EntryAfter(index: Index, e: Event, key: ResourceKey, obj: string)
    ensures Entry(Apply(index, e), key, obj) ==
      if e == Forgotten(obj) then None
      else if e.Reported? && e.obj == obj && e.key == key then Some(e.v)
      else Entry(index, key, obj)
  {
  }

  predicate NoEmptyKeys(index: Index) { forall key :: key in index ==> index[key] != map[] }

  lemma KeysStayFilled(index: Index, e: Event)
    requires NoEmptyKeys(index)
    ensures NoEmptyKeys(Apply(index, e))
  {
    if e.Reported? { assert e.obj in Apply(index, e)[e.key]; }
  }

  // The index is its history: entry by entry the last report, and no key without objects.
  lemma {:induction false} IndexIsHistory(events: seq<Event>)
    ensures forall key, obj :: Entry(After(events), key, obj) == Last(events, key, obj)
    ensures NoEmptyKeys(After(events))
  {
    if events != [] {
      var before, e := events[..|events| - 1], events[|events| - 1];
      IndexIsHistory(before);
      KeysStayFilled(After(before), e);
      forall key, obj ensures Entry(After(events), key, obj) == Last(events, key, obj) {
        EntryAfter(After(before), e, key, obj);
      }
    }
  }

  // What a collection shows for a key: the sum of the last reports of all objects that have one.
  ghost function Latest(events: seq<Event>, key: ResourceKey): map<string, int> {
    map obj | obj in Objects(events) && Last(events, key, obj).Some? :: Last(events, key, obj).value
  }

  function Objects(events: seq<Event>): set<string> {
    set i | 0 <= i < |events| :: events[i].obj
  }

  lemma {:induction false} OnlyObjects(events: seq<Event>, key: ResourceKey, obj: string)
    ensures Last(events, key, obj).Some? ==> obj in Objects(events)
  {
    if events != [] {
      var before := events[..|events| - 1];
      OnlyObjects(before, key, obj);
      if obj in Objects(before) {
        var i :| 0 <= i < |before| && before[i].obj == obj;
        assert events[i].obj == obj;
      }
      assert events[|events| - 1].obj in Objects(events);
    }
  }

  /** After any history, a key is collected exactly if some object has a report for it, and its
      total is the sum of those reports. */
  lemma CollectedIsHistory(events: seq<Event>, key: ResourceKey)
    ensures key in After(events) <==> Latest(events, key) != map[]
    ensures key in After(events) ==> After(events)[key] == Latest(events, key)
  {
    hide After, Last, Objects;
    IndexIsHistory(events);
    var inner, latest := Inner(After(events), key), Latest(events, key);
    forall obj ensures obj in inner <==> obj in latest {
      assert Entry(After(events), key, obj) == Last(events, key, obj);
      OnlyObjects(events, key, obj);
    }
    forall obj | obj in inner ensures inner[obj] == latest[obj] {
      assert Entry(After(events), key, obj) == Last(events, key, obj);
    }
    assert inner == latest;
  }

  // One report changes one total by the difference to the report it replaces, and no other total.
  lemma ReportMovesOneTotal(index: Index, obj: string, key: ResourceKey, v: int, other: ResourceKey)
    ensures Sum(Inner(SetEntry(index, obj, key, v), other)) ==
      Sum(Inner(index, other)) + (if other == key then v - Entry(index, key, obj).GetOr(0) else 0)
  {
    SumUpdate(Inner(index, key), obj, v);
  }

  lemma ForgettingTakesItsShare(index: Index, obj: string, key: ResourceKey)
    ensures Sum(Inner(Forget(index, obj), key)) == Sum(Inner(index, key)) - Entry(index, key, obj).GetOr(0)
  {
    var m := Inner(index, key);
    assert Inner(Forget(index, obj), key) == m - {obj};
    if obj in m { SumRemove(m, obj); } else { assert m - {obj} == m; }
  }

  lemma AfterOne(events: seq<Event>, e: Event)
    ensures After(events + [e]) == Apply(After(events), e)
  {
    assert (events + [e])[..|events|] == events;
  }

  // A report stands until the object reports for that key again or is forgotten.
  lemma {:induction false} ReportStands(events: seq<Event>, later: seq<Event>, obj: string, key: ResourceKey, v: int)
    requires forall i :: 0 <= i < |later| ==>
      later[i] != Forgotten(obj) && !(later[i].Reported? && later[i].obj == obj && later[i].key == key)
    ensures Entry(After(events + [Reported(obj, key, v)] + later), key, obj) == Some(v)
    decreases |later|
  {
    hide After, Entry, Apply;
    var report := events + [Reported(obj, key, v)];
    if later == [] {
      assert report + later == report;
      AfterOne(events, Reported(obj, key, v));
      EntryAfter(After(events), Reported(obj, key, v), key, obj);
    } else {
      var front, e := later[..|later| - 1], later[|later| - 1];
      ReportStands(events, front, obj, key, v);
      assert report + later == report + front + [e];
      AfterOne(report + front, e);
      EntryAfter(After(report + front), e, key, obj);
    }
  }

  predicate CountsIn(index: Index, resource: string, namespace: string, state: State, obj: string) {
    Entry(index, ResourceKey(resource, state, namespace), obj).Some?
  }

  // An object counts in both states exactly if it has reported both since it was last forgotten.
  lemma CountedTwiceIff(events: seq<Event>, obj: string, resource: string, namespace: string)
    ensures CountsIn(After(events), resource, namespace, Failed, obj) && CountsIn(After(events), resource, namespace, Synced, obj) <==>
      && Last(events, ResourceKey(resource, Failed, namespace), obj).Some?
      && Last(events, ResourceKey(resource, Synced, namespace), obj).Some?
  {
    hide After, Last, Entry;
    IndexIsHistory(events);
  }

  /** A report of success does not take back a report of failure: an object that failed and then
      synced counts in both states. */
  lemma CountedTwice(events: seq<Event>, obj: string, resource: string, namespace: string, v: int, u: int)
    ensures var failed, synced := ResourceKey(resource, Failed, namespace), ResourceKey(resource, Synced, namespace);
      var index := After(events + [Reported(obj, failed, v)] + [Reported(obj, synced, u)]);
      Entry(index, failed, obj) == Some(v) && Entry(index, synced, obj) == Some(u)
  {
    hide After, Entry;
    var failed, synced := ResourceKey(resource, Failed, namespace), ResourceKey(resource, Synced, namespace);
    ReportStands(events, [Reported(obj, synced, u)], obj, failed, v);
    ReportStands(events + [Reported(obj, failed, v)], [], obj, synced, u);
    assert events + [Reported(obj, failed, v)] + [Reported(obj, synced, u)] + [] == events + [Reported(obj, failed, v)] + [Reported(obj, synced, u)];
  }
}
