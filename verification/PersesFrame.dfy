// What no run of the Perses controller ever touches, whatever fails and wherever the run ends.
module PersesFrame {
  import opened Wrappers
  import opened Subreconciler
  import opened Conditions
  import opened Provisioning
  import opened PersesChain
  import opened PersesRuns

  predicate Aligned(w: World) {
    && w.cluster.perses.Some?
    && var p := w.cluster.perses.value; p.name == w.own.name && p.spec == w.own.spec && p.deleting == w.own.deleting
  }

  // A required workload is never taken away, one that is not required never appears.
  predicate NoFlapping(required: bool, before: Option<Workload>, after: Option<Workload>) {
    && (required && before.Some? ==> after.Some?)
    && (!required && before.None? ==> after.None?)
  }

  predicate ServicesKept(name: string, before: map<string, Service>, after: map<string, Service>) {
    forall n :: n in before.Keys + after.Keys && n != name ==> n in before && n in after && after[n] == before[n]
  }

  // The spec is the user's, secrets belong to others, and so does every service but the one
  // that has the name the spec gives it now.
  predicate Kept(p: Perses, before: Cluster, after: Cluster) {
    && before.perses.Some? && after.perses.Some?
    && after.perses.value.name == before.perses.value.name
    && after.perses.value.spec == before.perses.value.spec
    && after.perses.value.deleting == before.perses.value.deleting
    && after.secrets == before.secrets
    && ServicesKept(p.ServiceName(), before.services, after.services)
    && NoFlapping(p.spec.RequiresDeployment(), before.deployment, after.deployment)
    && NoFlapping(p.spec.RequiresStatefulSet(), before.statefulSet, after.statefulSet)
  }

  predicate Framed(w: World, v: World) {
    Aligned(v) && Kept(w.own, w.cluster, v.cluster) && v.own.name == w.own.name && v.own.spec == w.own.spec
  }

  // A step that changes nothing but the object itself.
  lemma ObjectOnly(w: World, v: World)
    requires Aligned(w) && Aligned(v) && v.cluster == w.cluster.(perses := v.cluster.perses)
    requires v.own.name == w.own.name && v.own.spec == w.own.spec && v.own.deleting == w.own.deleting
    ensures Framed(w, v)
  {
  }

  lemma StatusFrame(w: World, which: SubReconciler, change: StatusChange, env: Env)
    requires Aligned(w)
    ensures var v := WithPerses(w, UpdateStatus(w.cluster.perses, which, change, env).perses);
      Framed(w, v)
  {
    hide Apply, MarkInvalidVolumes, Framed;
    ObjectOnly(w, WithPerses(w, UpdateStatus(w.cluster.perses, which, change, env).perses));
  }

  lemma FinishFrame<T>(put: Put<T>, w: World, which: SubReconciler, env: Env)
    requires Aligned(w)
    ensures var v := Finish(put, w, which, env).1;
      && Framed(w, v)
      && v.cluster.statefulSet == w.cluster.statefulSet && v.cluster.deployment == w.cluster.deployment && v.cluster.services == w.cluster.services
  {
    hide Set, Framed;
    ObjectOnly(w, Finish(put, w, which, env).1);
  }

  lemma ServiceFrame(w: World, env: Env)
    requires Aligned(w)
    ensures Framed(w, DoReconcileService(w, env).1)
  {
    hide Finish, ServiceOf, Ensure, SharedAfterService;
    var name := w.own.ServiceName();
    var put := Ensure(ServiceThere(w.cluster, name), ServiceOf(w), SameService, ContinueReconciling(), ReconcileService, env);
    var services := if put.there.Some? then w.cluster.services[name := put.there.value] else w.cluster.services;
    FinishFrame(put,
      World(w.cluster.(services := services), w.own, SharedAfterService(w, env)), ReconcileService, env);
  }

  lemma WorkloadFrame(required: bool, there: Option<Workload>, w: World, created: Step, which: SubReconciler, env: Env)
    ensures NoFlapping(required, there, PutWorkload(required, there, w, created, which, env).there)
  {
    hide WorkloadOf;
  }

  lemma ConfigMapFrame(w: World, env: Env)
    requires Aligned(w)
    ensures Framed(w, DoReconcileConfigMap(w, env).1)
  {
    hide Finish, Ensure, ConfigMapOf;
    var put := Ensure(w.cluster.configMap, ConfigMapOf(w), SameConfigMap, ContinueReconciling(), ReconcileConfigMap, env);
    FinishFrame(put, w.(cluster := w.cluster.(configMap := put.there)), ReconcileConfigMap, env);
  }

  lemma DeploymentFrame(w: World, env: Env)
    requires Aligned(w)
    ensures Framed(w, DoReconcileDeployment(w, env).1)
  {
    hide Finish, PutWorkload, SharedAfter;
    var required := w.own.spec.RequiresDeployment();
    var put := PutWorkload(required, w.cluster.deployment, w, ContinueReconciling(), ReconcileDeployment, env);
    WorkloadFrame(required, w.cluster.deployment, w, ContinueReconciling(), ReconcileDeployment, env);
    FinishFrame(put, World(w.cluster.(deployment := put.there), w.own, SharedAfter(required, w, ReconcileDeployment, env)), ReconcileDeployment, env);
  }

  lemma StatefulSetFrame(w: World, env: Env)
    requires Aligned(w)
    ensures Framed(w, DoReconcileStatefulSet(w, env).1)
  {
    hide Finish, PutWorkload, SharedAfter;
    var required := w.own.spec.RequiresStatefulSet();
    var put := PutWorkload(required, w.cluster.statefulSet, w, RequeueWithDelay(60), ReconcileStatefulSet, env);
    WorkloadFrame(required, w.cluster.statefulSet, w, RequeueWithDelay(60), ReconcileStatefulSet, env);
    FinishFrame(put, World(w.cluster.(statefulSet := put.there), w.own, SharedAfter(required, w, ReconcileStatefulSet, env)), ReconcileStatefulSet, env);
  }

  lemma WorldSelf(w: World)
    requires Aligned(w)
    ensures Framed(w, w)
  {
    ObjectOnly(w, w);
  }

  lemma DeletionFrame(w: World, env: Env)
    requires Aligned(w)
    ensures Framed(w, DoHandleDelete(w, env).1)
  {
    hide Framed;
    ObjectOnly(w, DoHandleDelete(w, env).1);
  }

  lemma FinalizerFrame(w: World, env: Env)
    requires Aligned(w)
    ensures Framed(w, DoRemoveFinalizer(w, env).1)
  {
    hide Framed;
    var p := w.cluster.perses.value;
    var q := p.(finalizer := false, version := p.version + 1);
    var read := w.(own := p, shared := p.spec.annotations);
    ObjectOnly(w, w);
    ObjectOnly(w, read);
    ObjectOnly(w, WithPerses(read, Some(q)));
    ObjectOnly(w, WithPerses(read.(own := q), Some(q)));
  }

  lemma StepFrame(which: SubReconciler, w: World, env: Env)
    requires Aligned(w)
    ensures Framed(w, Do(which, w, env).1)
  {
    hide Framed, UpdateStatus, Recorded, UndefinedMount, DoHandleDelete, DoRemoveFinalizer, DoReconcileService, DoReconcileConfigMap, DoReconcileDeployment, DoReconcileStatefulSet;
    WorldSelf(w);
    match which
    case HandleDelete => DeletionFrame(w, env);
    case RemoveFinalizer => FinalizerFrame(w, env);
    case SetStatusToUnknown => StatusFrame(w, which, MarkUnknown, env);
    case ValidateVolumes =>
      var m := UndefinedMount(w.own.spec.volumes, w.own.spec.mounts);
      if m.Some? { StatusFrame(w, which, MarkInvalid(VolumeMessage(m.value, env)), env); }
    case ReconcileProvisioning =>
      var list := Recorded(w.own.spec.secretRefs, w.cluster.secrets - env.unreadable);
      if list.Some? { StatusFrame(w, which, Provision(list.value), env); }
    case ReconcileService => ServiceFrame(w, env);
    case ReconcileConfigMap => ConfigMapFrame(w, env);
    case ReconcileDeployment => DeploymentFrame(w, env);
    case ReconcileStatefulSet => StatefulSetFrame(w, env);
    case SetStatusToComplete => StatusFrame(w, which, MarkComplete, env);
  }

  lemma KeptTransitive(p: Perses, a: Cluster, b: Cluster, c: Cluster)
    requires Kept(p, a, b) && Kept(p, b, c)
    ensures Kept(p, a, c)
  {
  }

  lemma {:induction false} ChainFrame(chain: seq<SubReconciler>, w: World, env: Env)
    requires Aligned(w)
    ensures Kept(w.own, w.cluster, RunAll(chain, w, env).1.cluster)
    decreases |chain|
  {
    hide Do, Kept, Aligned;
    if chain == [] {
      WorldSelf(w);
    } else {
      StepFrame(chain[0], w, env);
      var v := Do(chain[0], w, env).1;
      var end := RunAll(chain[1..], v, env).1.cluster;
      SameSubject(w.own, v.own, v.cluster, end);
      ChainFrame(chain[1..], v, env);
      if !Do(chain[0], w, env).0.Halts() { KeptTransitive(w.own, w.cluster, v.cluster, end); }
    }
  }

  lemma SameSubject(p: Perses, q: Perses, a: Cluster, b: Cluster)
    requires p.name == q.name && p.spec == q.spec
    ensures Kept(p, a, b) <==> Kept(q, a, b)
  {
  }

  // Every run, complete or not.
  lemma RunFrame(c: Cluster, env: Env)
    requires c.perses.Some?
    ensures Kept(c.perses.value, c, Reconcile(c, env).0)
  {
    hide RunAll, Kept;
    ChainFrame(CHAIN[0..], Start(c), env);
    WorldSelf(Start(c));
  }
}
