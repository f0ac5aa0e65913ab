/** The Perses controller as it runs: requests one by one, the owned objects written in place,
    and one annotations map handed from builder to builder. */
module PersesRunner {
  import opened Wrappers
  import opened Subreconciler
  import opened Conditions
  import opened Provisioning
  import opened PersesChain

  // A map is a reference: whoever holds it sees what others write.
  class AnnotationMap {
    var entries: Annotations
    constructor (entries: Annotations)
      ensures this.entries == entries
    {
      this.entries := entries;
    }
  }

  class PersesReconciler {
    var cluster: Cluster
    var own: Perses
    var shared: AnnotationMap?

    function View(): World
      reads this, shared
    {
      World(cluster, own, if shared == null then None else Some(shared.entries))
    }

    constructor (cluster: Cluster, own: Perses)
      ensures this.cluster == cluster
    {
      this.cluster, this.own, shared := cluster, own, null;
    }

    // Decodes an object that was just read; its annotations are a map of their own.
    method Decode(p: Perses)
      modifies this`own, this`shared
      ensures View() == World(cluster, p, p.spec.annotations) && cluster == old(cluster)
      ensures shared == null || fresh(shared)
    {
      own := p;
      if p.spec.annotations.Some? {
        shared := new AnnotationMap(p.spec.annotations.value);
      } else {
        shared := null;
      }
    }

    method UpdatePersesStatus(which: SubReconciler, change: StatusChange, env: Env) returns (step: Step, ran: bool)
      modifies this`cluster
      ensures var o := UpdateStatus(old(cluster).perses, which, change, env);
        step == o.step && ran == o.ran && cluster == old(cluster).(perses := o.perses)
    {
      hide Changed;
      ran := false;
      if env.faults(which, Get).Some? { return Failure(env.faults(which, Get).value), ran; }
      if cluster.perses.None? { return DoNotRequeue(), ran; }
      var before := cluster.perses.value;
      var now := Changed(before, change, env.now);
      ran := true;
      if now == before { return ContinueReconciling(), ran; }
      var failed := env.faults(which, Write).Some?;
      if !failed || env.lands(which, Write) {
        cluster := cluster.(perses := Some(now.(version := now.version + 1)));
      }
      return if failed then Failure(env.faults(which, Write).value) else ContinueReconciling(), ran;
    }

    method HandleDeletion(env: Env) returns (step: Step)
      modifies this`cluster
      ensures (step, View()) == DoHandleDelete(old(View()), env)
    {
      if !own.deleting { return ContinueReconciling(); }
      if own.finalizer {
        if env.faults(HandleDelete, Get).Some? { return RequeueWithError(env.faults(HandleDelete, Get).value); }
        if cluster.perses.None? { return RequeueWithError(NOT_FOUND); }
        var p := cluster.perses.value;
        var failed := env.faults(HandleDelete, Write).Some?;
        if !failed || env.lands(HandleDelete, Write) {
          cluster := cluster.(perses := Some(p.(finalizer := false, version := p.version + 1)));
        }
        if failed { return RequeueWithError(env.faults(HandleDelete, Write).value); }
      }
      return DoNotRequeue();
    }

    method SetToUnknown(env: Env) returns (step: Step)
      modifies this`cluster
      ensures (step, View()) == DoSetStatusToUnknown(old(View()), env)
    {
      hide Changed;
      var read := cluster.perses;
      var result, ran := UpdatePersesStatus(SetStatusToUnknown, MarkUnknown, env);
      if result.error.Some? { return result; }
      if ran && read.value.conditions == [] { return RequeueWithDelay(5); }
      return ContinueReconciling();
    }

    method StripFinalizer(env: Env) returns (step: Step)
      modifies this
      ensures (step, View()) == DoRemoveFinalizer(old(View()), env)
      ensures shared == old(shared) || shared == null || fresh(shared)
    {
      if !own.finalizer { return ContinueReconciling(); }
      if env.faults(RemoveFinalizer, Get).Some? { return Failure(env.faults(RemoveFinalizer, Get).value); }
      if cluster.perses.None? { return DoNotRequeue(); }
      Decode(cluster.perses.value);
      if !own.finalizer { return RequeueWithError("failed to remove finalizer from the custom resource"); }
      var stripped := own.(finalizer := false, version := own.version + 1);
      var failed := env.faults(RemoveFinalizer, Write).Some?;
      if !failed || env.lands(RemoveFinalizer, Write) {
        cluster := cluster.(perses := Some(stripped));
      }
      if failed { return Failure(env.faults(RemoveFinalizer, Write).value); }
      own := stripped;
      return ContinueReconciling();
    }

    // Looks the mounts up one by one and stops at the first that fails.
    method CheckVolumes(env: Env) returns (step: Step)
      modifies this`cluster
      ensures (step, View()) == DoValidateVolumes(old(View()), env)
    {
      hide UpdateStatus, VolumeMessage;
      var names := set v | v in own.spec.volumes;
      var mounts := own.spec.mounts;
      for i := 0 to |mounts|
        invariant View() == old(View())
        invariant UndefinedMount(own.spec.volumes, mounts) == UndefinedMount(own.spec.volumes, mounts[i..])
      {
        assert mounts[i..][0] == mounts[i] && mounts[i..][1..] == mounts[i + 1..];
        if mounts[i].name !in names {
          var message := VolumeMessage(mounts[i], env);
          var result, _ := UpdatePersesStatus(ValidateVolumes, MarkInvalid(message), env);
          if result.error.Some? { return RequeueWithError(result.error.value); }
          return RequeueWithError(message);
        }
      }
      return ContinueReconciling();
    }

    method RecordProvisioning(env: Env) returns (step: Step)
      modifies this`cluster
      ensures (step, View()) == DoReconcileProvisioning(old(View()), env)
    {
      hide UpdateStatus, Record;
      if own.spec.secretRefs == [] {
        NothingRecorded(cluster.secrets - env.unreadable);
        var result, _ := UpdatePersesStatus(ReconcileProvisioning, Provision([]), env);
        return result;
      }
      var versions, _ := ReadVersions(own.spec.secretRefs, cluster.secrets - env.unreadable);
      if versions.None? { return RequeueWithError("secret not readable"); }
      var list := ListVersions(versions.value);
      if list == own.provisioning { return ContinueReconciling(); }
      var result, _ := UpdatePersesStatus(ReconcileProvisioning, Provision(list), env);
      return result;
    }

    // ---- Owned objects ----

    // The annotations of an object being built: the shared map if there is one, and whatever is
    // added then stays in it.
    method Annotate(more: Annotations) returns (annotations: AnnotationMap)
      modifies shared
      ensures annotations.entries == Built(old(View()).shared, more)
      ensures View() == old(View()).(shared := Left(old(View()).shared, more))
    {
      annotations := new AnnotationMap(map[]);
      if shared != null {
        annotations := shared;
      }
      annotations.entries := annotations.entries + more;
    }

    method ReportFailure(which: SubReconciler, env: Env) returns (step: Step)
      requires env.broken(which).Some?
      modifies this
      ensures (step, View()) == Report(RequeueWithError(env.broken(which).value), old(View()), which, env)
      ensures shared == old(shared)
    {
      hide Set, FailureMessage;
      own := own.(conditions := Set(own.conditions, AVAILABLE, No, "Reconciling", FailureMessage(own, which, env), env.now));
      if cluster.perses.None? { return RequeueWithError(env.faults(which, Write).GetOr(NOT_FOUND)); }
      var p := cluster.perses.value;
      if p.version != own.version { return RequeueWithError(env.faults(which, Write).GetOr(CONFLICT)); }
      var failed := env.faults(which, Write).Some?;
      if !failed || env.lands(which, Write) {
        cluster := cluster.(perses := Some(p.(conditions := own.conditions, provisioning := own.provisioning, version := p.version + 1)));
      }
      return RequeueWithError(if failed then env.faults(which, Write).value else env.broken(which).value);
    }

    method EnsureService(env: Env) returns (step: Step)
      modifies this, shared
      ensures (step, View()) == DoReconcileService(old(View()), env)
      ensures shared == old(shared)
    {
      hide Report;
      var name := own.ServiceName();
      var there := ServiceThere(cluster, name);
      var found := Read(there, env.faults(ReconcileService, Get));
      if found.Failed? { KeptService(cluster.services, name); return RequeueWithError(found.error); }
      var annotations := Annotate(own.spec.serviceAnnotations.GetOr(map[]));
      var built := Service(annotations.entries, own.spec.labels, own.spec.labels, own.spec.ports);
      KeptService(cluster.services, name);
      if found.Missing? {
        if env.broken(ReconcileService).Some? { step := ReportFailure(ReconcileService, env); return; }
        var failed := env.faults(ReconcileService, Create).Some?;
        if there.Some? { return RequeueWithError(env.faults(ReconcileService, Create).GetOr(ALREADY_EXISTS)); }
        if !failed || env.lands(ReconcileService, Create) {
          cluster := cluster.(services := cluster.services[name := built]);
        }
        return if failed then RequeueWithError(env.faults(ReconcileService, Create).value) else ContinueReconciling();
      }
      if env.broken(ReconcileService).Some? { return RequeueWithError(env.broken(ReconcileService).value); }
      if env.faults(ReconcileService, DryRun).Some? { return RequeueWithError(env.faults(ReconcileService, DryRun).value); }
      var stale := ServiceNeedsUpdate(found.value, built);
      if stale {
        var failed := env.faults(ReconcileService, Write).Some?;
        if !failed || env.lands(ReconcileService, Write) {
          cluster := cluster.(services := cluster.services[name := built]);
        }
        if failed { return RequeueWithError(env.faults(ReconcileService, Write).value); }
      }
      return ContinueReconciling();
    }

    method EnsureConfigMap(env: Env) returns (step: Step)
      modifies this, shared
      ensures (step, View()) == DoReconcileConfigMap(old(View()), env)
      ensures shared == old(shared)
    {
      hide Report;
      var found := Read(cluster.configMap, env.faults(ReconcileConfigMap, Get));
      if found.Failed? { return RequeueWithError(found.error); }
      NothingAdded(View().shared);
      var annotations := Annotate(map[]);
      var built := ConfigMap(annotations.entries, own.spec.configLabels, own.spec.config);
      if found.Missing? {
        if env.broken(ReconcileConfigMap).Some? { step := ReportFailure(ReconcileConfigMap, env); return; }
        var failed := env.faults(ReconcileConfigMap, Create).Some?;
        if cluster.configMap.Some? { return RequeueWithError(env.faults(ReconcileConfigMap, Create).GetOr(ALREADY_EXISTS)); }
        if !failed || env.lands(ReconcileConfigMap, Create) {
          cluster := cluster.(configMap := Some(built));
        }
        return if failed then RequeueWithError(env.faults(ReconcileConfigMap, Create).value) else ContinueReconciling();
      }
      if env.broken(ReconcileConfigMap).Some? { return RequeueWithError(env.broken(ReconcileConfigMap).value); }
      if env.faults(ReconcileConfigMap, DryRun).Some? { return RequeueWithError(env.faults(ReconcileConfigMap, DryRun).value); }
      var stale := ConfigMapNeedsUpdate(found.value, built);
      if stale {
        var failed := env.faults(ReconcileConfigMap, Write).Some?;
        if !failed || env.lands(ReconcileConfigMap, Write) {
          cluster := cluster.(configMap := Some(built));
        }
        if failed { return RequeueWithError(env.faults(ReconcileConfigMap, Write).value); }
      }
      return ContinueReconciling();
    }

    // Both workloads are treated alike, but for what follows a creation.
    method PutOne(required: bool, there: Option<Workload>, created: Step, which: SubReconciler, env: Env) returns (put: Put<Workload>)
      modifies shared
      ensures put == PutWorkload(required, there, old(View()), created, which, env)
      ensures View() == old(View()).(shared := SharedAfter(required, old(View()), which, env))
    {
      if !required {
        put := RemoveUnwanted(there, which, env);
        return;
      }
      var found := Read(there, env.faults(which, Get));
      if found.Failed? { return Put(RequeueWithError(found.error), there, false); }
      var annotations := Annotate(HashEntry(own, env));
      var built := Workload(annotations.entries, annotations.entries, own.spec.pod);
      if found.Missing? {
        put := CreateMissing(there, built, created, which, env);
      } else {
        put := UpdateFound(there, found.value, built, which, env);
      }
    }

    method EnsureDeployment(env: Env) returns (step: Step)
      modifies this, shared
      ensures (step, View()) == DoReconcileDeployment(old(View()), env)
      ensures shared == old(shared)
    {
      hide Report, SharedAfter;
      var required := own.spec.RequiresDeployment();
      ReportedStep(required, View().cluster.deployment, View(), ContinueReconciling(), ReconcileDeployment, env);
      hide PutWorkload;
      var put := PutOne(required, cluster.deployment, ContinueReconciling(), ReconcileDeployment, env);
      cluster := cluster.(deployment := put.there);
      step := put.step;
      if put.reported { step := ReportFailure(ReconcileDeployment, env); }
    }

    method EnsureStatefulSet(env: Env) returns (step: Step)
      modifies this, shared
      ensures (step, View()) == DoReconcileStatefulSet(old(View()), env)
      ensures shared == old(shared)
    {
      hide Report, SharedAfter;
      var required := own.spec.RequiresStatefulSet();
      ReportedStep(required, View().cluster.statefulSet, View(), RequeueWithDelay(60), ReconcileStatefulSet, env);
      hide PutWorkload;
      var put := PutOne(required, cluster.statefulSet, RequeueWithDelay(60), ReconcileStatefulSet, env);
      cluster := cluster.(statefulSet := put.there);
      step := put.step;
      if put.reported { step := ReportFailure(ReconcileStatefulSet, env); }
    }

    // ---- The loop ----

    method Call(which: SubReconciler, env: Env) returns (step: Step)
      modifies this, shared
      ensures (step, View()) == Do(which, old(View()), env)
      ensures shared == old(shared) || shared == null || fresh(shared)
    {
      hide DoHandleDelete, DoSetStatusToUnknown, DoRemoveFinalizer, DoValidateVolumes, DoReconcileProvisioning, DoReconcileService,
        DoReconcileConfigMap, DoReconcileDeployment, DoReconcileStatefulSet, UpdateStatus;
      match which
      case HandleDelete => step := HandleDeletion(env);
      case SetStatusToUnknown => step := SetToUnknown(env);
      case RemoveFinalizer => step := StripFinalizer(env);
      case ValidateVolumes => step := CheckVolumes(env);
      case ReconcileProvisioning => step := RecordProvisioning(env);
      case ReconcileService => step := EnsureService(env);
      case ReconcileConfigMap => step := EnsureConfigMap(env);
      case ReconcileDeployment => step := EnsureDeployment(env);
      case ReconcileStatefulSet => step := EnsureStatefulSet(env);
      case SetStatusToComplete =>
        var result, _ := UpdatePersesStatus(SetStatusToComplete, MarkComplete, env);
        step := result;
    }

    method Reconcile(env: Env) returns (requeue: Requeue, error: Option<Error>)
      modifies this
      ensures (cluster, (requeue, error)) == PersesChain.Reconcile(old(cluster), env)
    {
      hide Do;
      if env.firstRead.Some? {
        return Requeue(0), if env.firstRead.value == NOT_FOUND then None else env.firstRead;
      }
      if cluster.perses.None? { return Requeue(0), None; }
      Decode(cluster.perses.value);
      var k := 0;
      var halted := ContinueReconciling();
      while k < |CHAIN|
        invariant 0 <= k <= |CHAIN|
        invariant shared == null || fresh(shared)
        invariant From(k, View(), env) == Run(old(cluster), env)
        invariant halted == ContinueReconciling()
      {
        assert CHAIN[k..][1..] == CHAIN[k + 1..];
        var step := Call(CHAIN[k], env);
        if step.Halts() {
          halted := step;
          break;
        }
        k := k + 1;
      }
      requeue, error := Requeue(0), None;
      if halted.error.Some? { error := halted.error; }
    }
  }

  // Deletes what is there and not wanted; an error of the read is dropped.
  method RemoveUnwanted(there: Option<Workload>, which: SubReconciler, env: Env) returns (put: Put<Workload>)
    ensures put == Discard(there, which, env)
  {
    var found := Read(there, env.faults(which, Get));
    if found.Found? {
      if env.faults(which, Delete).Some? {
        return Put(RequeueWithError(env.faults(which, Delete).value), env.Lost(which, Delete, there, None), false);
      }
      return Put(ContinueReconciling(), None, false);
    }
    return Put(ContinueReconciling(), there, false);
  }

  method CreateMissing(there: Option<Workload>, built: Workload, created: Step, which: SubReconciler, env: Env) returns (put: Put<Workload>)
    requires Read(there, env.faults(which, Get)).Missing?
    ensures put == Ensure(there, built, SameSpec, created, which, env)
  {
    if env.broken(which).Some? { return Put(RequeueWithError(env.broken(which).value), there, true); }
    if there.Some? { return Put(RequeueWithError(env.faults(which, Create).GetOr(ALREADY_EXISTS)), there, false); }
    if env.faults(which, Create).Some? {
      return Put(RequeueWithError(env.faults(which, Create).value), env.Lost(which, Create, None, Some(built)), false);
    }
    return Put(created, Some(built), false);
  }

  method UpdateFound(there: Option<Workload>, found: Workload, built: Workload, which: SubReconciler, env: Env) returns (put: Put<Workload>)
    requires Read(there, env.faults(which, Get)) == Found(found)
    ensures forall created :: put == Ensure(there, built, SameSpec, created, which, env)
  {
    if env.broken(which).Some? { return Put(RequeueWithError(env.broken(which).value), there, false); }
    if env.faults(which, DryRun).Some? { return Put(RequeueWithError(env.faults(which, DryRun).value), there, false); }
    if SameSpec(found, built) { return Put(ContinueReconciling(), there, false); }
    if env.faults(which, Write).Some? {
      return Put(RequeueWithError(env.faults(which, Write).value), env.Lost(which, Write, there, Some(built)), false);
    }
    return Put(ContinueReconciling(), Some(built), false);
  }

  // The comparisons go through the operator's labels one by one, in any order, up to the first difference.
  method ServiceNeedsUpdate(found: Service, built: Service) returns (stale: bool)
    ensures stale <==> !SameService(found, built)
  {
    if found.ports != built.ports || found.annotations != built.annotations { return true; }
    if |found.selector| != |built.labels| { return true; }
    var left := built.labels.Keys;
    while left != {}
      invariant left <= built.labels.Keys
      invariant forall k :: k in built.labels && k !in left ==>
        At(found.labels, k) == At(built.labels, k) && At(found.selector, k) == At(built.selector, k)
      decreases left
    {
      var k :| k in left;
      if At(found.labels, k) != At(built.labels, k) { return true; }
      if At(found.selector, k) != At(built.selector, k) { return true; }
      left := left - {k};
    }
    return false;
  }

  method ConfigMapNeedsUpdate(found: ConfigMap, built: ConfigMap) returns (stale: bool)
    ensures stale <==> !SameConfigMap(found, built)
  {
    if found.data != built.data || found.annotations != built.annotations { return true; }
    var left := built.labels.Keys;
    while left != {}
      invariant left <= built.labels.Keys
      invariant forall k :: k in built.labels && k !in left ==> At(found.labels, k) == At(built.labels, k)
      decreases left
    {
      var k :| k in left;
      if At(found.labels, k) != At(built.labels, k) { return true; }
      left := left - {k};
    }
    return false;
  }

  lemma KeptService(services: map<string, Service>, name: string)
    ensures name in services ==> services[name := services[name]] == services
  {
  }

  lemma NothingAdded(shared: Option<Annotations>)
    ensures Left(shared, map[]) == shared
  {
    if shared.Some? { assert shared.value + map[] == shared.value; }
  }

  lemma ReportedStep(required: bool, there: Option<Workload>, w: World, created: Step, which: SubReconciler, env: Env)
    ensures var put := PutWorkload(required, there, w, created, which, env);
      put.reported ==> env.broken(which).Some? && put.step == RequeueWithError(env.broken(which).value)
  {
    hide WorkloadOf;
  }
}
