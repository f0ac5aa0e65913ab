/** What runs of the Perses controller amount to: every step's result is well-formed, and a run that
    gets to its last step leaves an exactly known cluster. */
module PersesRuns {
  import opened Wrappers
  import opened Subreconciler
  import opened Conditions
  import opened Provisioning
  import opened PersesChain

  // ---- Results: nil only with nil ----

  lemma StatusStepsAreWellFormed(there: Option<Perses>, which: SubReconciler, change: StatusChange, env: Env)
    ensures UpdateStatus(there, which, change, env).step.WellFormed()
  {
    hide Changed;
  }

  lemma OwnedStepsAreWellFormed<T>(put: Put<T>, w: World, which: SubReconciler, env: Env)
    requires put.step.WellFormed()
    ensures Finish(put, w, which, env).0.WellFormed()
  {
    hide Set;
  }

  // No sub-reconciler pairs a nil result with an error, whatever fails.
  lemma StepsAreWellFormed(which: SubReconciler, w: World, env: Env)
    ensures Do(which, w, env).0.WellFormed()
  {
    hide UpdateStatus, Finish, Recorded, WorkloadOf, ServiceOf, ConfigMapOf, UndefinedMount;
    match which
    case ReconcileProvisioning =>
      var list := Recorded(w.own.spec.secretRefs, w.cluster.secrets - env.unreadable);
      if list.Some? { StatusStepsAreWellFormed(w.cluster.perses, which, Provision(list.value), env); }
    case SetStatusToComplete =>
      StatusStepsAreWellFormed(w.cluster.perses, which, MarkComplete, env);
    case SetStatusToUnknown =>
      StatusStepsAreWellFormed(w.cluster.perses, which, MarkUnknown, env);
    case ReconcileService => ServiceIsWellFormed(w, env);
    case ReconcileConfigMap =>
      var put := Ensure(w.cluster.configMap, ConfigMapOf(w), SameConfigMap, ContinueReconciling(), which, env);
      OwnedStepsAreWellFormed(put, w.(cluster := w.cluster.(configMap := put.there)), which, env);
    case ReconcileDeployment =>
      var required := w.own.spec.RequiresDeployment();
      var put := PutWorkload(required, w.cluster.deployment, w, ContinueReconciling(), which, env);
      OwnedStepsAreWellFormed(put, World(w.cluster.(deployment := put.there), w.own, SharedAfter(required, w, which, env)), which, env);
    case ReconcileStatefulSet =>
      var required := w.own.spec.RequiresStatefulSet();
      var put := PutWorkload(required, w.cluster.statefulSet, w, RequeueWithDelay(60), which, env);
      OwnedStepsAreWellFormed(put, World(w.cluster.(statefulSet := put.there), w.own, SharedAfter(required, w, which, env)), which, env);
    case _ =>
  }

  lemma ServiceIsWellFormed(w: World, env: Env)
    ensures DoReconcileService(w, env).0.WellFormed()
  {
    hide Finish, ServiceOf, SharedAfterService;
    var name := w.own.ServiceName();
    var put := Ensure(ServiceThere(w.cluster, name), ServiceOf(w), SameService, ContinueReconciling(), ReconcileService, env);
    var services := if put.there.Some? then w.cluster.services[name := put.there.value] else w.cluster.services;
    OwnedStepsAreWellFormed(put,
      World(w.cluster.(services := services), w.own, SharedAfterService(w, env)), ReconcileService, env);
  }

  lemma {:induction false} RunsAreWellFormed(chain: seq<SubReconciler>, w: World, env: Env)
    ensures RunAll(chain, w, env).0.WellFormed()
    decreases |chain|
  {
    hide Do;
    if chain != [] {
      StepsAreWellFormed(chain[0], w, env);
      RunsAreWellFormed(chain[1..], Do(chain[0], w, env).1, env);
    }
  }

  // A run that halts has a result to evaluate, and Reconcile reports its error but never its delay.
  // An object that is not there is no error, but one that cannot be read is.
  lemma RunsReportErrorsNotDelays(c: Cluster, env: Env)
    ensures c.perses.Some? ==> (Run(c, env).0.Halts() <==> Run(c, env).0.result.Some?)
    ensures Reconcile(c, env).1.0 == Requeue(0)
    ensures Reconcile(c, env).1.1 ==
      if env.firstRead.Some? then (if env.firstRead.value == NOT_FOUND then None else env.firstRead)
      else if c.perses.None? then None
      else Run(c, env).0.error
  {
    hide RunAll;
    if c.perses.Some? {
      RunsAreWellFormed(CHAIN[0..], Start(c), env);
      DelaysAreDropped(Run(c, env).0);
    }
  }

  // ---- Which failure of a request is reported, and what it leaves ----

  predicate ReadsMissing<T>(there: Option<T>, which: SubReconciler, env: Env) {
    env.faults(which, Get) == Some("not found") || (env.faults(which, Get).None? && there.None?)
  }

  // An owned object that is missing is created, unless something on the way fails; that is reported.
  lemma MissingIsCreated<T>(there: Option<T>, desired: T, same: (T, T) -> bool, created: Step, which: SubReconciler, env: Env)
    requires ReadsMissing(there, which, env)
    ensures var put := Ensure(there, desired, same, created, which, env);
      if env.broken(which).Some? then put == Put(RequeueWithError(env.broken(which).value), there, true)
      else if env.faults(which, Create).Some? then
        && put.step == RequeueWithError(env.faults(which, Create).value) && !put.reported
        && (put.there == there || (there.None? && env.lands(which, Create) && put.there == Some(desired)))
      else if there.Some? then put == Put(RequeueWithError("already exists"), there, false)
      else put == Put(created, Some(desired), false)
  {
  }

  // One that is found is updated exactly if it differs, after a dry run that has to succeed.
  lemma FoundIsUpdated<T>(found: T, desired: T, same: (T, T) -> bool, created: Step, which: SubReconciler, env: Env)
    requires env.faults(which, Get).None?
    ensures var put := Ensure(Some(found), desired, same, created, which, env);
      && !put.reported
      && (if env.broken(which).Some? then put.step == RequeueWithError(env.broken(which).value) && put.there == Some(found)
          else if env.faults(which, DryRun).Some? then put.step == RequeueWithError(env.faults(which, DryRun).value) && put.there == Some(found)
          else if same(found, desired) then put.step == ContinueReconciling() && put.there == Some(found)
          else if env.faults(which, Write).Some? then
            && put.step == RequeueWithError(env.faults(which, Write).value)
            && put.there == Some(if env.lands(which, Write) then desired else found)
          else put.step == ContinueReconciling() && put.there == Some(desired))
  {
  }

  // A read that fails for any other reason is reported, unless the object is not wanted anyway.
  lemma UnreadableIsReported<T>(there: Option<T>, desired: T, same: (T, T) -> bool, created: Step, which: SubReconciler, env: Env)
    requires env.faults(which, Get).Some? && env.faults(which, Get) != Some("not found")
    ensures Ensure(there, desired, same, created, which, env) == Put(RequeueWithError(env.faults(which, Get).value), there, false)
    ensures Discard(there, which, env) == Put(ContinueReconciling(), there, false)
  {
  }

  lemma UnwantedIsDeleted<T>(there: Option<T>, which: SubReconciler, env: Env)
    requires env.faults(which, Get).None?
    ensures var put := Discard(there, which, env);
      if there.None? then put == Put(ContinueReconciling(), None, false)
      else if env.faults(which, Delete).Some? then
        put == Put(RequeueWithError(env.faults(which, Delete).value), if env.lands(which, Delete) then None else there, false)
      else put == Put(ContinueReconciling(), None, false)
  {
  }

  // ---- The first five steps, request by request ----

  // An object being deleted: every failure is reported, that it is gone included.
  lemma DeletionStepIs(w: World, env: Env)
    requires w.own.deleting && w.own.finalizer
    ensures var step := DoHandleDelete(w, env).0;
      if env.faults(HandleDelete, Get).Some? then step == RequeueWithError(env.faults(HandleDelete, Get).value)
      else if w.cluster.perses.None? then step == RequeueWithError("not found")
      else if env.faults(HandleDelete, Write).Some? then step == RequeueWithError(env.faults(HandleDelete, Write).value)
      else step == DoNotRequeue()
  {
  }

  // The first status: errors are reported, a vanished object is passed over, a status just begun puts the run off.
  lemma UnknownStepIs(w: World, env: Env)
    ensures var (step, v) := DoSetStatusToUnknown(w, env);
      if env.faults(SetStatusToUnknown, Get).Some? then
        && v == w
        && step == (if env.faults(SetStatusToUnknown, Get).value == "not found" then ContinueReconciling()
                    else RequeueWithError(env.faults(SetStatusToUnknown, Get).value))
      else if w.cluster.perses.None? || w.cluster.perses.value.conditions != [] then step == ContinueReconciling() && v == w
      else if env.faults(SetStatusToUnknown, Write).Some? && env.faults(SetStatusToUnknown, Write).value != "not found" then
        step == RequeueWithError(env.faults(SetStatusToUnknown, Write).value)
      else step == RequeueWithDelay(5)
  {
    hide Set;
    if w.cluster.perses.Some? { UnknownShows(w.cluster.perses.value.conditions, env.now); }
  }

  // The legacy finalizer: a vanished object ends the run quietly, one without the finalizer with an error.
  lemma FinalizerStepIs(w: World, env: Env)
    requires w.own.finalizer
    ensures var step := DoRemoveFinalizer(w, env).0;
      if env.faults(RemoveFinalizer, Get).Some? then
        step == (if env.faults(RemoveFinalizer, Get).value == "not found" then DoNotRequeue()
                 else RequeueWithError(env.faults(RemoveFinalizer, Get).value))
      else if w.cluster.perses.None? then step == DoNotRequeue()
      else if !w.cluster.perses.value.finalizer then
        step == RequeueWithError("failed to remove finalizer from the custom resource")
      else if env.faults(RemoveFinalizer, Write).Some? then
        step == (if env.faults(RemoveFinalizer, Write).value == "not found" then DoNotRequeue()
                 else RequeueWithError(env.faults(RemoveFinalizer, Write).value))
      else step == ContinueReconciling()
  {
  }

  // An undefined mount is always an error: that of the status update if there is one, else its own.
  lemma VolumeStepIs(w: World, env: Env)
    ensures var step := DoValidateVolumes(w, env).0; var m := UndefinedMount(w.own.spec.volumes, w.own.spec.mounts);
      if m.None? then step == ContinueReconciling()
      else if env.faults(ValidateVolumes, Get).Some? && env.faults(ValidateVolumes, Get).value != "not found" then
        step == RequeueWithError(env.faults(ValidateVolumes, Get).value)
      else step.error.Some? && (env.faults(ValidateVolumes, Write).None? ==> step == RequeueWithError(VolumeMessage(m.value, env)))
  {
    hide UndefinedMount, MarkInvalidVolumes;
  }

  // Without references the status is looked at on every run, with them only when the list differs.
  lemma ProvisioningStepIs(w: World, env: Env)
    ensures var step := DoReconcileProvisioning(w, env).0; var fault := env.faults(ReconcileProvisioning, Get);
      var list := Recorded(w.own.spec.secretRefs, w.cluster.secrets - env.unreadable);
      if list.None? then step.error.Some?
      else if w.own.spec.secretRefs != [] && list.value == w.own.provisioning then step == ContinueReconciling()
      else if fault.Some? then step == (if fault.value == "not found" then DoNotRequeue() else RequeueWithError(fault.value))
      else if w.cluster.perses.None? then step == DoNotRequeue()
      else env.faults(ReconcileProvisioning, Write).None? ==> step == ContinueReconciling()
  {
    hide Recorded;
  }

  lemma NounsAre()
    ensures Noun(ReconcileService) == "Service" && Noun(ReconcileConfigMap) == "ConfigMap"
    ensures Noun(ReconcileDeployment) == "Deployment" && Noun(ReconcileStatefulSet) == "StatefulSet"
  {
  }

  // The status after a build that failed: Available is False with the cause, on the version read or not at all.
  lemma FailedBuildIsReported(step: Step, w: World, which: SubReconciler, env: Env)
    requires w.cluster.perses.Some? && env.faults(which, Write).None? && env.broken(which).Some?
    ensures var (said, v) := Report(step, w, which, env); var p := w.cluster.perses.value;
      if p.version != w.own.version then said == RequeueWithError("conflict") && v.cluster == w.cluster
      else
        && said == step && v.cluster.perses.Some?
        && Shows(v.cluster.perses.value.conditions, "Available", No, "Reconciling",
                 "Failed to create " + Noun(which) + " for the custom resource (" + w.own.name + "): (" + env.broken(which).value + ")")
        && v.cluster == w.cluster.(perses := v.cluster.perses) && v.cluster.perses.value.version == p.version + 1
        && v.cluster.perses.value.provisioning == w.own.provisioning
  {
    SetMeans(w.own.conditions, AVAILABLE, No, "Reconciling", FailureMessage(w.own, which, env), env.now);
  }

  // ---- What a step that continues has done ----

  lemma DeleteContinues(w: World, env: Env)
    requires !DoHandleDelete(w, env).0.Halts()
    ensures !w.own.deleting && DoHandleDelete(w, env).1 == w
  {
  }

  lemma UnknownContinues(w: World, env: Env)
    requires !DoSetStatusToUnknown(w, env).0.Halts()
    ensures DoSetStatusToUnknown(w, env).1 == w
  {
    hide Set;
  }

  // The object of the run after the legacy finalizer is gone.
  function Released(p: Perses): Perses {
    if p.finalizer then p.(finalizer := false, version := p.version + 1) else p
  }

  lemma FinalizerContinues(w: World, env: Env)
    requires !DoRemoveFinalizer(w, env).0.Halts()
    requires w.cluster.perses == Some(w.own) && w.shared == w.own.spec.annotations
    ensures DoRemoveFinalizer(w, env).1 == World(w.cluster.(perses := Some(Released(w.own))), Released(w.own), w.shared)
  {
  }

  lemma VolumesContinue(w: World, env: Env)
    requires !DoValidateVolumes(w, env).0.Halts()
    ensures UndefinedMount(w.own.spec.volumes, w.own.spec.mounts).None? && DoValidateVolumes(w, env).1 == w
  {
    hide UndefinedMount, UpdateStatus;
  }

  function Provisioned(p: Perses, list: seq<SecretVersion>): Perses {
    if p.provisioning == list then p else p.(provisioning := list, version := p.version + 1)
  }

  lemma ProvisioningContinues(w: World, env: Env)
    requires !DoReconcileProvisioning(w, env).0.Halts()
    requires w.cluster.perses == Some(w.own)
    ensures Recorded(w.own.spec.secretRefs, w.cluster.secrets).Some?
    ensures var list := Recorded(w.own.spec.secretRefs, w.cluster.secrets).value;
      DoReconcileProvisioning(w, env).1 == WithPerses(w, Some(Provisioned(w.own, list)))
  {
    hide Recorded, Set;
    ReadableIsRecorded(w.own.spec.secretRefs, w.cluster.secrets, env.unreadable);
  }

  // Objects whose labels, annotations and content already agree are left as they are.
  function SettledService(there: Option<Service>, desired: Service): Service {
    if there.Some? && SameService(there.value, desired) then there.value else desired
  }

  function SettledConfigMap(there: Option<ConfigMap>, desired: ConfigMap): ConfigMap {
    if there.Some? && SameConfigMap(there.value, desired) then there.value else desired
  }

  lemma ServiceContinues(w: World, env: Env)
    requires !DoReconcileService(w, env).0.Halts()
    ensures DoReconcileService(w, env).1 ==
      World(w.cluster.(services := w.cluster.services[w.own.ServiceName() := SettledService(ServiceThere(w.cluster, w.own.ServiceName()), ServiceOf(w))]), w.own,
            Left(w.shared, w.own.spec.serviceAnnotations.GetOr(map[])))
  {
    hide ServiceOf, Set, Left, SameService;
  }

  lemma ConfigMapContinues(w: World, env: Env)
    requires !DoReconcileConfigMap(w, env).0.Halts()
    ensures DoReconcileConfigMap(w, env).1 == w.(cluster := w.cluster.(configMap := Some(SettledConfigMap(w.cluster.configMap, ConfigMapOf(w)))))
  {
    hide ConfigMapOf, Set, SameConfigMap;
  }

  // A workload after a step that continued. One whose spec already agrees is left alone, and one
  // that is not wanted stays if it could not be read.
  function Settled(required: bool, there: Option<Workload>, desired: Workload, fault: Option<Error>): Option<Workload> {
    if required then
      if there.Some? && SameSpec(there.value, desired) then there else Some(desired)
    else if fault.Some? then there
    else None
  }

  lemma DeploymentContinues(w: World, env: Env)
    requires !DoReconcileDeployment(w, env).0.Halts()
    ensures var required := w.own.spec.RequiresDeployment();
      DoReconcileDeployment(w, env).1 ==
        World(w.cluster.(deployment := Settled(required, w.cluster.deployment, WorkloadOf(w, env), env.faults(ReconcileDeployment, Get))),
              w.own, if required then Left(w.shared, HashEntry(w.own, env)) else w.shared)
  {
    hide WorkloadOf, Left, HashEntry, Set;
  }

  lemma StatefulSetContinues(w: World, env: Env)
    requires !DoReconcileStatefulSet(w, env).0.Halts()
    ensures w.own.spec.RequiresStatefulSet() ==> w.cluster.statefulSet.Some?
    ensures var required := w.own.spec.RequiresStatefulSet();
      DoReconcileStatefulSet(w, env).1 ==
        World(w.cluster.(statefulSet := Settled(required, w.cluster.statefulSet, WorkloadOf(w, env), env.faults(ReconcileStatefulSet, Get))),
              w.own, if required then Left(w.shared, HashEntry(w.own, env)) else w.shared)
  {
    hide WorkloadOf, Left, HashEntry, Set;
  }

  function Completed(p: Perses, now: Time): Perses {
    var cs := Apply(p.conditions, ToComplete("Perses", p.name), now);
    if p.conditions == cs then p else p.(conditions := cs, version := p.version + 1)
  }

  // ---- A run that gets through to the end ----

  lemma {:induction false} RunAllSplit(a: seq<SubReconciler>, b: seq<SubReconciler>, w: World, env: Env)
    ensures var first := RunAll(a, w, env);
      RunAll(a + b, w, env) == if first.0.Halts() then first else RunAll(b, first.1, env)
    decreases |a|
  {
    hide Do;
    if a == [] {
      assert a + b == b;
    } else {
      assert (a + b)[1..] == a[1..] + b;
      RunAllSplit(a[1..], b, Do(a[0], w, env).1, env);
    }
  }

  lemma PeelFirst(chain: seq<SubReconciler>, w: World, env: Env)
    requires chain != [] && !RunAll(chain, w, env).0.Halts()
    ensures !Do(chain[0], w, env).0.Halts() && RunAll(chain, w, env) == RunAll(chain[1..], Do(chain[0], w, env).1, env)
  {
    hide Do;
  }

  function Recording(c: Cluster, list: seq<SecretVersion>): World
    requires c.perses.Some?
  {
    var p := c.perses.value;
    World(c.(perses := Some(Provisioned(Released(p), list))), Released(p), p.spec.annotations)
  }

  // The checks and the bookkeeping of the first five steps, if none of them ends the run.
  lemma FirstFive(c: Cluster, env: Env)
    requires c.perses.Some? && !RunAll(CHAIN[..5], Start(c), env).0.Halts()
    ensures var p := c.perses.value; var rec := Recorded(p.spec.secretRefs, c.secrets);
      && !p.deleting && UndefinedMount(p.spec.volumes, p.spec.mounts).None? && rec.Some?
      && RunAll(CHAIN[..5], Start(c), env).1 == Recording(c, rec.value)
  {
    hide RunAll, Recorded, UndefinedMount, DoHandleDelete, DoSetStatusToUnknown, DoRemoveFinalizer, DoValidateVolumes, DoReconcileProvisioning;
    var w := Start(c);
    assert CHAIN[..5] == [HandleDelete, SetStatusToUnknown, RemoveFinalizer, ValidateVolumes, ReconcileProvisioning];
    PeelFirst(CHAIN[..5], w, env);
    DeleteContinues(w, env);
    assert CHAIN[..5][1..] == [SetStatusToUnknown, RemoveFinalizer, ValidateVolumes, ReconcileProvisioning];
    PeelFirst([SetStatusToUnknown, RemoveFinalizer, ValidateVolumes, ReconcileProvisioning], w, env);
    UnknownContinues(w, env);
    assert [SetStatusToUnknown, RemoveFinalizer, ValidateVolumes, ReconcileProvisioning][1..] == [RemoveFinalizer, ValidateVolumes, ReconcileProvisioning];
    PeelFirst([RemoveFinalizer, ValidateVolumes, ReconcileProvisioning], w, env);
    FinalizerContinues(w, env);
    var v := World(c.(perses := Some(Released(w.own))), Released(w.own), w.shared);
    assert [RemoveFinalizer, ValidateVolumes, ReconcileProvisioning][1..] == [ValidateVolumes, ReconcileProvisioning];
    PeelFirst([ValidateVolumes, ReconcileProvisioning], v, env);
    VolumesContinue(v, env);
    assert [ValidateVolumes, ReconcileProvisioning][1..] == [ReconcileProvisioning];
    PeelFirst([ReconcileProvisioning], v, env);
    ProvisioningContinues(v, env);
    NoMore(Do(ReconcileProvisioning, v, env).1, env);
  }

  lemma NoMore(w: World, env: Env)
    ensures RunAll([ReconcileProvisioning][1..], w, env) == (ContinueReconciling(), w)
  {
  }

  // ---- What a run that fails later keeps ----

  // If the object of the run is still current, it says what the API server says.
  predicate InStep(w: World) {
    && w.cluster.perses.Some?
    && (w.own.version == w.cluster.perses.value.version ==> w.own.provisioning == w.cluster.perses.value.provisioning)
  }

  lemma FinishKeepsRecord<T>(put: Put<T>, w: World, which: SubReconciler, env: Env)
    requires InStep(w) && put.step.WellFormed()
    requires put.reported ==> put.step.Halts()
    ensures var (step, v) := Finish(put, w, which, env);
      && v.cluster.perses.Some? && v.cluster.perses.value.provisioning == w.cluster.perses.value.provisioning
      && (!step.Halts() ==> InStep(v))
  {
    hide Set;
  }

  lemma ServiceKeepsRecord(w: World, env: Env)
    requires InStep(w)
    ensures KeepsRecord(ReconcileService, w, env)
  {
    hide Finish, ServiceOf, SharedAfterService;
    var name := w.own.ServiceName();
    var put := Ensure(ServiceThere(w.cluster, name), ServiceOf(w), SameService, ContinueReconciling(), ReconcileService, env);
    var services := if put.there.Some? then w.cluster.services[name := put.there.value] else w.cluster.services;
    FinishKeepsRecord(put, World(w.cluster.(services := services), w.own, SharedAfterService(w, env)), ReconcileService, env);
  }

  ghost predicate KeepsRecord(which: SubReconciler, w: World, env: Env)
    requires w.cluster.perses.Some?
  {
    var (step, v) := Do(which, w, env);
    && v.cluster.perses.Some? && v.cluster.perses.value.provisioning == w.cluster.perses.value.provisioning
    && (!step.Halts() && which != SetStatusToComplete ==> InStep(v))
  }

  lemma OthersKeepRecord(which: SubReconciler, w: World, env: Env)
    requires InStep(w) && (which.ReconcileConfigMap? || which.ReconcileDeployment? || which.ReconcileStatefulSet?)
    ensures KeepsRecord(which, w, env)
  {
    hide Finish, WorkloadOf, ConfigMapOf, SharedAfter;
    match which
    case ReconcileConfigMap =>
      var put := Ensure(w.cluster.configMap, ConfigMapOf(w), SameConfigMap, ContinueReconciling(), which, env);
      FinishKeepsRecord(put, w.(cluster := w.cluster.(configMap := put.there)), which, env);
    case ReconcileDeployment =>
      var required := w.own.spec.RequiresDeployment();
      var put := PutWorkload(required, w.cluster.deployment, w, ContinueReconciling(), which, env);
      FinishKeepsRecord(put, World(w.cluster.(deployment := put.there), w.own, SharedAfter(required, w, which, env)), which, env);
    case ReconcileStatefulSet =>
      var required := w.own.spec.RequiresStatefulSet();
      var put := PutWorkload(required, w.cluster.statefulSet, w, RequeueWithDelay(60), which, env);
      FinishKeepsRecord(put, World(w.cluster.(statefulSet := put.there), w.own, SharedAfter(required, w, which, env)), which, env);
  }

  lemma CompleteKeepsRecord(w: World, env: Env)
    requires w.cluster.perses.Some?
    ensures KeepsRecord(SetStatusToComplete, w, env)
  {
    hide Apply;
  }

  lemma {:induction false} LaterStepsKeepRecord(k: nat, w: World, env: Env)
    requires 5 <= k <= |CHAIN| && w.cluster.perses.Some? && (k < |CHAIN| ==> InStep(w))
    ensures var v := From(k, w, env).1;
      v.cluster.perses.Some? && v.cluster.perses.value.provisioning == w.cluster.perses.value.provisioning
    decreases |CHAIN| - k
  {
    hide Do, InStep;
    if k < |CHAIN| {
      var which := CHAIN[k];
      assert CHAIN[k..][1..] == CHAIN[k + 1..];
      if which == ReconcileService { ServiceKeepsRecord(w, env); }
      else if which == SetStatusToComplete { CompleteKeepsRecord(w, env); }
      else { OthersKeepRecord(which, w, env); }
      if !Do(which, w, env).0.Halts() { LaterStepsKeepRecord(k + 1, Do(which, w, env).1, env); }
    }
  }

  /** Once the versions are recorded nothing in the run takes them back. The status write of a
      failed build uses the older object of the run, but then it does not land. */
  lemma RecordIsKept(c: Cluster, env: Env)
    requires c.perses.Some? && !RunAll(CHAIN[..5], Start(c), env).0.Halts()
    ensures var d := Run(c, env).1.cluster;
      d.perses.Some? && Recorded(c.perses.value.spec.secretRefs, c.secrets) == Some(d.perses.value.provisioning)
  {
    hide RunAll, Recorded, UndefinedMount;
    assert CHAIN[0..] == CHAIN[..5] + CHAIN[5..];
    RunAllSplit(CHAIN[..5], CHAIN[5..], Start(c), env);
    FirstFive(c, env);
    LaterStepsKeepRecord(5, Recording(c, Recorded(c.perses.value.spec.secretRefs, c.secrets).value), env);
  }

  // ---- The whole of it ----

  // What the config map and the workloads find in the shared map.
  function Common(p: Perses): Option<Annotations> {
    Left(p.spec.annotations, p.spec.serviceAnnotations.GetOr(map[]))
  }

  function Wanted(p: Perses, env: Env): Workload {
    var annotations := Built(Common(p), HashEntry(p, env));
    Workload(annotations, annotations, p.spec.pod)
  }

  function ServiceWanted(p: Perses): Service {
    Service(Built(p.spec.annotations, p.spec.serviceAnnotations.GetOr(map[])), p.spec.labels, p.spec.labels, p.spec.ports)
  }

  function ConfigMapWanted(p: Perses): ConfigMap {
    ConfigMap(Common(p).GetOr(map[]), p.spec.configLabels, p.spec.config)
  }

  /** The cluster before the last step, in terms of the one the run found: nothing here speaks of
      the chain. The digest is that of the versions recorded before the run. */
  function PreparedAs(c: Cluster, env: Env, list: seq<SecretVersion>): Cluster
    requires c.perses.Some?
  {
    var p := c.perses.value;
    Cluster(
      Some(Provisioned(Released(p), list)),
      c.services[p.ServiceName() := SettledService(ServiceThere(c, p.ServiceName()), ServiceWanted(p))],
      Some(SettledConfigMap(c.configMap, ConfigMapWanted(p))),
      Settled(p.spec.RequiresDeployment(), c.deployment, Wanted(p, env), env.faults(ReconcileDeployment, Get)),
      Settled(p.spec.RequiresStatefulSet(), c.statefulSet, Wanted(p, env), env.faults(ReconcileStatefulSet, Get)),
      c.secrets)
  }

  // The cluster a completed run leaves.
  function FinishedAs(c: Cluster, env: Env, list: seq<SecretVersion>): Cluster
    requires c.perses.Some?
  {
    PreparedAs(c, env, list).(perses := Some(Completed(Provisioned(Released(c.perses.value), list), env.now)))
  }

  lemma HashTwice(shared: Option<Annotations>, more: Annotations)
    ensures Built(Left(shared, more), more) == Built(shared, more)
    ensures Built(shared, map[]) == shared.GetOr(map[])
  {
  }

  lemma ReleasedIs(p: Perses, env: Env)
    ensures Released(p).spec == p.spec && Released(p).ServiceName() == p.ServiceName() && HashEntry(Released(p), env) == HashEntry(p, env)
  {
  }

  const OWNED: seq<SubReconciler> := [ReconcileService, ReconcileConfigMap, ReconcileDeployment, ReconcileStatefulSet]

  lemma OwnedSteps(c: Cluster, env: Env, list: seq<SecretVersion>)
    requires c.perses.Some? && !RunAll(OWNED, Recording(c, list), env).0.Halts()
    ensures RunAll(OWNED, Recording(c, list), env).1.cluster == PreparedAs(c, env, list)
    ensures c.perses.value.spec.RequiresStatefulSet() ==> c.statefulSet.Some?
  {
    hide RunAll, DoReconcileService, DoReconcileConfigMap, DoReconcileDeployment, DoReconcileStatefulSet,
      Settled, SettledService, SettledConfigMap, HashEntry, Built;
    var w5 := Recording(c, list);
    ReleasedIs(c.perses.value, env);
    PeelFirst(OWNED, w5, env);
    ServiceContinues(w5, env);
    var w6 := Do(ReconcileService, w5, env).1;
    HashTwice(w6.shared, HashEntry(w5.own, env));
    assert OWNED[1..] == [ReconcileConfigMap, ReconcileDeployment, ReconcileStatefulSet];
    PeelFirst(OWNED[1..], w6, env);
    ConfigMapContinues(w6, env);
    var w7 := Do(ReconcileConfigMap, w6, env).1;
    assert OWNED[1..][1..] == [ReconcileDeployment, ReconcileStatefulSet];
    PeelFirst([ReconcileDeployment, ReconcileStatefulSet], w7, env);
    DeploymentContinues(w7, env);
    var w8 := Do(ReconcileDeployment, w7, env).1;
    assert [ReconcileDeployment, ReconcileStatefulSet][1..] == [ReconcileStatefulSet];
    PeelFirst([ReconcileStatefulSet], w8, env);
    StatefulSetContinues(w8, env);
    assert [ReconcileStatefulSet][1..] == [];
    Nothing(Do(ReconcileStatefulSet, w8, env).1, env);
  }

  lemma Nothing(w: World, env: Env)
    ensures RunAll([], w, env) == (ContinueReconciling(), w)
  {
  }

  lemma EndOfChain(w: World, env: Env)
    ensures From(|CHAIN|, w, env) == (ContinueReconciling(), w)
  {
  }

  lemma JustTheLast(w: World, env: Env)
    ensures RunAll([SetStatusToComplete], w, env) == DoSetStatusToComplete(w, env)
  {
    hide UpdateStatus;
    assert [SetStatusToComplete][1..] == [];
    StatusStepsAreWellFormed(w.cluster.perses, SetStatusToComplete, MarkComplete, env);
  }

  // What the last step makes of the object, and how it ends.
  function LastUpdate(c: Cluster, env: Env, list: seq<SecretVersion>): StatusOutcome
    requires c.perses.Some?
  {
    UpdateStatus(Some(Provisioned(Released(c.perses.value), list)), SetStatusToComplete, MarkComplete, env)
  }

  /** A run that reaches the last step has passed all checks, and leaves the prepared cluster with
      whatever that step makes of the status: written, unchanged, refused, or the object gone. */
  lemma ReachedRun(c: Cluster, env: Env)
    requires Reaches(c, env)
    ensures var p := c.perses.value; var rec := Recorded(p.spec.secretRefs, c.secrets);
      && !p.deleting && UndefinedMount(p.spec.volumes, p.spec.mounts).None? && rec.Some?
      && (p.spec.RequiresStatefulSet() ==> c.statefulSet.Some?)
      && Run(c, env).0 == LastUpdate(c, env, rec.value).step
      && Run(c, env).1.cluster == PreparedAs(c, env, rec.value).(perses := LastUpdate(c, env, rec.value).perses)
  {
    hide RunAll, Recorded, UndefinedMount, PreparedAs, UpdateStatus;
    var p := c.perses.value;
    var w := Start(c);
    assert CHAIN[..9] == CHAIN[..5] + OWNED && CHAIN[0..] == CHAIN[..9] + [SetStatusToComplete];
    RunAllSplit(CHAIN[..5], OWNED, w, env);
    FirstFive(c, env);
    var list := Recorded(p.spec.secretRefs, c.secrets).value;
    OwnedSteps(c, env, list);
    RunAllSplit(CHAIN[..9], [SetStatusToComplete], w, env);
    JustTheLast(RunAll(CHAIN[..9], w, env).1, env);
    PreparedObject(c, env, list);
  }

  lemma PreparedObject(c: Cluster, env: Env, list: seq<SecretVersion>)
    requires c.perses.Some?
    ensures PreparedAs(c, env, list).perses == Some(Provisioned(Released(c.perses.value), list))
  {
  }

  lemma CompletedReaches(c: Cluster, env: Env)
    requires Completes(c, env)
    ensures Reaches(c, env)
  {
    hide RunAll;
    assert CHAIN[0..] == CHAIN[..9] + [SetStatusToComplete];
    RunAllSplit(CHAIN[..9], [SetStatusToComplete], Start(c), env);
  }

  lemma CompletedRun(c: Cluster, env: Env)
    requires Completes(c, env)
    ensures var p := c.perses.value; var rec := Recorded(p.spec.secretRefs, c.secrets);
      && !p.deleting && UndefinedMount(p.spec.volumes, p.spec.mounts).None? && rec.Some?
      && (p.spec.RequiresStatefulSet() ==> c.statefulSet.Some?)
      && Run(c, env).1.cluster == FinishedAs(c, env, rec.value)
  {
    hide RunAll, Recorded, UndefinedMount, PreparedAs, Apply;
    CompletedReaches(c, env);
    ReachedRun(c, env);
  }
}
