/** Which instances a selector selects, spelled out on the labels, and what that means for where a
    custom resource ends up. */
module Selection {
  import opened Wrappers
  import opened Backend
  import opened InstanceSync
  import opened SyncProtocol
  import opened NoLostSyncProof

  // One requirement against the labels as pairs of key and value.
  predicate Fulfils(l: Labels, r: Requirement) {
    match r
    case In(key, values) => exists v :: v in values && (key, v) in l.Items
    case NotIn(key, values) => forall v :: v in values ==> (key, v) !in l.Items
    case Exists(key) => key in l.Keys
    case DoesNotExist(key) => key !in l.Keys
    case UnknownOperator => false
  }

  lemma RequirementMeans(l: Labels, r: Requirement)
    ensures r.Matches(l) <==> Fulfils(l, r)
  {
    if r.In? || r.NotIn? {
      if r.key in l { assert (r.key, l[r.key]) in l.Items; }
    }
  }

  // A missing selector selects every instance, any other those that fulfil all its requirements.
  lemma SelectorMeans(l: Labels, selector: Selector)
    ensures selector == Everything ==> selector.Matches(l)
    ensures selector.Where? ==> (selector.Matches(l) <==> forall j :: 0 <= j < |selector.all| ==> Fulfils(l, selector.all[j]))
  {
    if selector.Where? {
      forall j | 0 <= j < |selector.all| ensures selector.all[j].Matches(l) <==> Fulfils(l, selector.all[j]) {
        RequirementMeans(l, selector.all[j]);
      }
    }
  }

  predicate SelectsBySpelling(l: Labels, selector: Selector) {
    selector.Where? ==> forall j :: 0 <= j < |selector.all| ==> Fulfils(l, selector.all[j])
  }

  // A reconcile lists exactly the instances that fulfil the selector, each once.
  lemma ListedAre(s: State, k: Key, order: seq<InstanceId>, id: InstanceId)
    requires Enabled(s, List(k, order)) && s.works[k].HasCr?
    ensures id in order <==> id in s.instances && SelectsBySpelling(s.instances[id].labels, s.works[k].cr.selector)
  {
    if id in s.instances { SelectorMeans(s.instances[id].labels, s.works[k].cr.selector); }
    assert id in order <==> id in MatchingIds(s, s.works[k]);
  }

  // An operator that is known, with values if it takes any.
  predicate WellFormed(r: Requirement) {
    match r
    case In(_, values) => values != {}
    case NotIn(_, values) => values != {}
    case Exists(_) => true
    case DoesNotExist(_) => true
    case UnknownOperator => false
  }

  // The list fails exactly if it is empty or some requirement is not well formed.
  lemma ListFailsIff(s: State, k: Key, order: seq<InstanceId>)
    requires Enabled(s, List(k, order)) && s.works[k].HasCr?
    ensures var selector := s.works[k].cr.selector; var t := Apply(s, List(k, order));
      && (k in t.works <==> order != [] && (selector.Where? ==> forall j :: 0 <= j < |selector.all| ==> WellFormed(selector.all[j])))
      && (k !in t.works ==> k in t.delayed)
  {
    var selector := s.works[k].cr.selector;
    if selector.Where? {
      assert forall j :: 0 <= j < |selector.all| ==> (selector.all[j].Valid() <==> WellFormed(selector.all[j]));
    }
  }

  /** Whenever the queue has drained, a custom resource without a selector is on every available
      instance, and one with requirements on every available instance whose labels fulfil them. */
  lemma WhereItIsAtRest(kind: Kind, run: seq<Event>, k: Key, id: InstanceId)
    requires IsRun(Initial(kind), run) && AtRest(End(Initial(kind), run))
    requires var s := End(Initial(kind), run); k in s.crs && id in s.instances && s.instances[id].available
    ensures var s := End(Initial(kind), run); var cr := s.crs[k]; var labels := s.instances[id].labels;
      && (cr.selector == Everything ==> id in s.servers && s.servers[id].Holds(s.Ref(k), cr.doc))
      && (cr.selector.Where? && (forall j :: 0 <= j < |cr.selector.all| ==> Fulfils(labels, cr.selector.all[j])) ==>
            id in s.servers && s.servers[id].Holds(s.Ref(k), cr.doc))
  {
    var s := End(Initial(kind), run);
    RestMeansInSync(kind, run);
    SelectorMeans(s.instances[id].labels, s.crs[k].selector);
    assert s.Selects(k, id) == s.crs[k].selector.Matches(s.instances[id].labels);
  }
}
