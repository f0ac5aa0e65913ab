/** A quiet cluster: no request fails and nobody else writes. How many runs of the Perses
    controller it takes to complete, and when nothing changes any more. */
module PersesQuiet {
  import opened Wrappers
  import opened Subreconciler
  import opened Conditions
  import opened Provisioning
  import opened PersesChain
  import opened PersesRuns
  import opened PersesFrame

  ghost predicate Quiet(env: Env) {
    && env.firstRead.None?
    && (forall which, request :: env.faults(which, request).None?)
    && (forall which :: env.broken(which).None?)
    && env.unreadable == {}
  }

  // What the user must have got right: the object stays, its mounts name its volumes, and the
  // secrets it refers to can be read.
  ghost predicate Serviceable(c: Cluster) {
    && c.perses.Some?
    && var p := c.perses.value;
      !p.deleting && UndefinedMount(p.spec.volumes, p.spec.mounts).None? && Recorded(p.spec.secretRefs, c.secrets).Some?
  }

  // ---- Steps that continue ----

  lemma Go(k: nat, w: World, env: Env)
    requires k < |CHAIN| && !Do(CHAIN[k], w, env).0.Halts()
    ensures From(k, w, env) == From(k + 1, Do(CHAIN[k], w, env).1, env)
  {
    hide Do;
    assert CHAIN[k..][1..] == CHAIN[k + 1..];
  }

  lemma Stop(k: nat, w: World, env: Env)
    requires k < |CHAIN| && Do(CHAIN[k], w, env).0.Halts()
    ensures From(k, w, env) == Do(CHAIN[k], w, env)
  {
    hide Do;
  }

  lemma UnknownGoesOn(w: World, env: Env)
    requires Quiet(env) && w.cluster.perses.Some?
    ensures DoSetStatusToUnknown(w, env).0.Halts() <==> w.cluster.perses.value.conditions == []
  {
    hide Set;
  }

  lemma FinalizerGoesOn(w: World, env: Env)
    requires Quiet(env) && w.cluster.perses == Some(w.own)
    ensures !DoRemoveFinalizer(w, env).0.Halts()
  {
  }

  lemma ProvisioningGoesOn(w: World, env: Env)
    requires Quiet(env) && w.cluster.perses.Some? && Recorded(w.own.spec.secretRefs, w.cluster.secrets).Some?
    ensures !DoReconcileProvisioning(w, env).0.Halts()
  {
    hide Recorded;
    assert w.cluster.secrets - env.unreadable == w.cluster.secrets;
  }

  lemma ServiceGoesOn(w: World, env: Env)
    requires Quiet(env)
    ensures !DoReconcileService(w, env).0.Halts()
  {
    hide ServiceOf, SharedAfterService, SameService;
  }

  lemma ConfigMapGoesOn(w: World, env: Env)
    requires Quiet(env)
    ensures !DoReconcileConfigMap(w, env).0.Halts()
  {
    hide ConfigMapOf, SameConfigMap;
  }

  lemma DeploymentGoesOn(w: World, env: Env)
    requires Quiet(env)
    ensures !DoReconcileDeployment(w, env).0.Halts()
  {
    hide WorkloadOf, SharedAfter;
  }

  // A StatefulSet that has to be created first ends the run, and is then there.
  lemma StatefulSetGoesOn(w: World, env: Env)
    requires Quiet(env)
    ensures var (step, v) := DoReconcileStatefulSet(w, env);
      && (step.Halts() <==> w.own.spec.RequiresStatefulSet() && w.cluster.statefulSet.None?)
      && (step.Halts() ==> v.cluster.statefulSet.Some? && v.cluster.perses == w.cluster.perses)
  {
    hide WorkloadOf, SharedAfter;
  }

  lemma CompleteGoesOn(w: World, env: Env)
    requires Quiet(env) && w.cluster.perses.Some?
    ensures !DoSetStatusToComplete(w, env).0.Halts()
  {
    hide Apply;
  }

  // ---- One run ----

  lemma EarlySteps(c: Cluster, env: Env) returns (w: World)
    requires Quiet(env) && Serviceable(c) && c.perses.value.conditions != []
    ensures var p := c.perses.value;
      && Run(c, env) == From(5, w, env) && w.own == Released(p)
      && w.cluster == c.(perses := Some(Provisioned(Released(p), Recorded(p.spec.secretRefs, c.secrets).value)))
  {
    hide From, Recorded, UndefinedMount, DoSetStatusToUnknown, DoRemoveFinalizer, DoReconcileProvisioning;
    w := Start(c);
    DeleteContinues(w, env);
    Go(0, w, env);
    UnknownGoesOn(w, env);
    UnknownContinues(w, env);
    Go(1, w, env);
    FinalizerGoesOn(w, env);
    FinalizerContinues(w, env);
    Go(2, w, env);
    w := Do(CHAIN[2], w, env).1;
    VolumesContinue(w, env);
    Go(3, w, env);
    ProvisioningGoesOn(w, env);
    ProvisioningContinues(w, env);
    Go(4, w, env);
    w := Do(CHAIN[4], w, env).1;
  }

  lemma MiddleSteps(v: World, env: Env) returns (w: World)
    requires Quiet(env)
    ensures From(5, v, env) == From(8, w, env)
    ensures w.own == v.own && w.cluster.perses == v.cluster.perses && w.cluster.statefulSet == v.cluster.statefulSet
  {
    hide From, DoReconcileService, DoReconcileConfigMap, DoReconcileDeployment, Settled, WorkloadOf, ServiceOf, ConfigMapOf;
    w := v;
    ServiceGoesOn(w, env);
    ServiceContinues(w, env);
    Go(5, w, env);
    w := Do(CHAIN[5], w, env).1;
    ConfigMapGoesOn(w, env);
    ConfigMapContinues(w, env);
    Go(6, w, env);
    w := Do(CHAIN[6], w, env).1;
    DeploymentGoesOn(w, env);
    DeploymentContinues(w, env);
    Go(7, w, env);
    w := Do(CHAIN[7], w, env).1;
  }

  // The number of quiet runs still to come before one completes.
  function Need(c: Cluster): nat
    requires c.perses.Some?
  {
    var p := c.perses.value;
    (if p.conditions == [] then 1 else 0) + (if p.spec.RequiresStatefulSet() && c.statefulSet.None? then 1 else 0)
  }

  // The first run begins the status and does nothing else.
  lemma FirstStatusRun(c: Cluster, env: Env)
    requires Quiet(env) && c.perses.Some? && !c.perses.value.deleting && c.perses.value.conditions == []
    ensures !Completes(c, env) && Run(c, env).0.error.None?
    ensures var p := c.perses.value;
      Reconcile(c, env).0 == c.(perses := Some(p.(version := p.version + 1,
        conditions := [Condition("Available", Unknown, "Reconciling", "Starting reconciliation", env.now)])))
  {
    hide From, Recorded, UndefinedMount;
    var w := Start(c);
    DeleteContinues(w, env);
    Go(0, w, env);
    UnknownGoesOn(w, env);
    Stop(1, w, env);
    UnknownShows([], env.now);
  }

  // An object being deleted loses the legacy finalizer; nothing else in the cluster changes, and nothing is an error.
  lemma DeletedRun(c: Cluster, env: Env)
    requires Quiet(env) && c.perses.Some? && c.perses.value.deleting
    ensures var p := c.perses.value;
      && Reconcile(c, env).0 == c.(perses := Some(if p.finalizer then p.(finalizer := false, version := p.version + 1) else p))
      && Reconcile(c, env).1 == (Requeue(0), None)
  {
    hide From;
    Stop(0, Start(c), env);
  }

  // A completed run says so, under the object's name.
  lemma CompletedSays(c: Cluster, env: Env)
    requires Completes(c, env)
    ensures var d := Reconcile(c, env).0; var name := c.perses.value.name;
      && d.perses.Some?
      && Shows(d.perses.value.conditions, "Available", Yes, "Reconciled", "Perses (" + name + ") created successfully")
      && Shows(d.perses.value.conditions, "Degraded", No, "Reconciled", "Perses (" + name + ") reconciled successfully")
  {
    hide From, Recorded, UndefinedMount, PreparedAs, Apply;
    CompletedRun(c, env);
    var p := c.perses.value;
    CompleteShows(p.conditions, "Perses", p.name, env.now);
    assert "Perses" + " (" + p.name + ") created successfully" == "Perses (" + p.name + ") created successfully";
    assert "Perses" + " (" + p.name + ") reconciled successfully" == "Perses (" + p.name + ") reconciled successfully";
  }

  lemma LaterRun(c: Cluster, env: Env)
    requires Quiet(env) && Serviceable(c) && c.perses.value.conditions != []
    ensures Completes(c, env) <==> Need(c) == 0
    ensures !Completes(c, env) ==>
      var d := Reconcile(c, env).0; d.statefulSet.Some? && d.perses.Some? && d.perses.value.conditions != []
  {
    hide From, Recorded, UndefinedMount, DoReconcileStatefulSet, DoSetStatusToComplete;
    var v := EarlySteps(c, env);
    var w := MiddleSteps(v, env);
    StatefulSetGoesOn(w, env);
    if Need(c) == 0 {
      Go(8, w, env);
      StatefulSetContinues(w, env);
      var x := Do(CHAIN[8], w, env).1;
      CompleteGoesOn(x, env);
      Go(9, x, env);
      EndOfChain(Do(CHAIN[9], x, env).1, env);
    } else {
      Stop(8, w, env);
    }
  }

  // Up to the checks of what the user wrote.
  lemma ThreeSteps(c: Cluster, env: Env) returns (w: World)
    requires Quiet(env) && c.perses.Some? && !c.perses.value.deleting && c.perses.value.conditions != []
    ensures var p := c.perses.value;
      Run(c, env) == From(3, w, env) && w == World(c.(perses := Some(Released(p))), Released(p), p.spec.annotations)
  {
    hide From, DoSetStatusToUnknown, DoRemoveFinalizer;
    w := Start(c);
    DeleteContinues(w, env);
    Go(0, w, env);
    UnknownGoesOn(w, env);
    UnknownContinues(w, env);
    Go(1, w, env);
    FinalizerGoesOn(w, env);
    FinalizerContinues(w, env);
    Go(2, w, env);
    w := Do(CHAIN[2], w, env).1;
  }

  // The first mount without a volume is named in the status and in the error.
  lemma InvalidVolumesAreReported(c: Cluster, env: Env, i: nat)
    requires Quiet(env) && c.perses.Some? && !c.perses.value.deleting && c.perses.value.conditions != []
    requires var s := c.perses.value.spec; i < |s.mounts| && s.mounts[i].name !in s.volumes && forall j :: 0 <= j < i ==> s.mounts[j].name in s.volumes
    ensures var m := c.perses.value.spec.mounts[i]; var d := Reconcile(c, env).0;
      var message := "volumeMount at " + env.quote(m.path) + " references volume " + env.quote(m.name) + " which is not defined in spec.volumes";
      && Reconcile(c, env).1.1 == Some(message)
      && d.perses.Some? && Shows(d.perses.value.conditions, "Degraded", Yes, "InvalidConfiguration", message)
  {
    hide From, UndefinedMount, UpdateStatus, Shows;
    var spec := c.perses.value.spec;
    var w := ThreeSteps(c, env);
    FirstUndefined(spec.volumes, spec.mounts, i);
    var o := UpdateStatus(w.cluster.perses, ValidateVolumes, MarkInvalid(VolumeMessage(spec.mounts[i], env)), env);
    MarkedInvalid(w.cluster.perses.value, VolumeMessage(spec.mounts[i], env), env);
    Stop(3, w, env);
  }

  lemma MarkedInvalid(p: Perses, message: string, env: Env)
    requires Quiet(env)
    ensures var o := UpdateStatus(Some(p), ValidateVolumes, MarkInvalid(message), env);
      o.step.error.None? && o.perses.Some? && Shows(o.perses.value.conditions, "Degraded", Yes, "InvalidConfiguration", message)
  {
    hide MarkInvalidVolumes, Shows;
    AvailableAndDegraded(p.conditions, message, env.now);
  }

  lemma {:induction false} FirstUndefined(volumes: seq<string>, mounts: seq<Mount>, i: nat)
    requires i < |mounts| && mounts[i].name !in volumes && forall j :: 0 <= j < i ==> mounts[j].name in volumes
    ensures UndefinedMount(volumes, mounts) == Some(mounts[i])
  {
    if i > 0 { FirstUndefined(volumes, mounts[1..], i - 1); }
  }

  // What the user got wrong is reported, once the status has begun.
  lemma UnserviceableIsReported(c: Cluster, env: Env)
    requires Quiet(env) && c.perses.Some? && !c.perses.value.deleting && c.perses.value.conditions != [] && !Serviceable(c)
    ensures Run(c, env).0.error.Some?
  {
    hide From, Recorded, UndefinedMount, UpdateStatus;
    var w := ThreeSteps(c, env);
    if UndefinedMount(w.own.spec.volumes, w.own.spec.mounts).Some? {
      Stop(3, w, env);
    } else {
      Go(3, w, env);
      assert w.cluster.secrets - env.unreadable == w.cluster.secrets;
      Stop(4, w, env);
    }
  }

  /** A quiet run that is put off without an error has changed an object the controller watches:
      it has begun the status, or created the StatefulSet. That change brings the next run, which
      no delay does. */
  lemma PutOffRunsAreFollowed(c: Cluster, env: Env)
    requires Quiet(env) && c.perses.Some? && !c.perses.value.deleting
    requires Run(c, env).0.Halts() && Run(c, env).0.error.None?
    ensures var d := Reconcile(c, env).0;
      || (d.perses.Some? && d.perses.value.version > c.perses.value.version && c.perses.value.conditions == [] != d.perses.value.conditions)
      || (c.statefulSet.None? && d.statefulSet.Some?)
  {
    hide Run, Recorded, UndefinedMount;
    if c.perses.value.conditions == [] {
      FirstStatusRun(c, env);
    } else if Serviceable(c) {
      LaterRun(c, env);
    } else {
      UnserviceableIsReported(c, env);
    }
  }

  lemma StaysServiceable(c: Cluster, env: Env)
    requires c.perses.Some?
    ensures Reconcile(c, env).0.perses.Some? && (Serviceable(Reconcile(c, env).0) <==> Serviceable(c))
  {
    hide Reconcile, Recorded, UndefinedMount, ServicesKept, NoFlapping;
    RunFrame(c, env);
  }

  lemma NeedCounts(c: Cluster, env: Env)
    requires Quiet(env) && Serviceable(c)
    ensures Completes(c, env) <==> Need(c) == 0
    ensures Serviceable(Reconcile(c, env).0)
    ensures Need(Reconcile(c, env).0) == if Need(c) > 0 then Need(c) - 1 else 0
  {
    hide Recorded, UndefinedMount, Run;
    StaysServiceable(c, env);
    RunFrame(c, env);
    if c.perses.value.conditions == [] {
      FirstStatusRun(c, env);
    } else {
      LaterRun(c, env);
      if Need(c) == 0 { CompletedLeavesConditions(c, env); }
    }
  }

  lemma CompletedLeavesConditions(c: Cluster, env: Env)
    requires Completes(c, env)
    ensures var d := Reconcile(c, env).0; d.perses.Some? && d.perses.value.conditions != []
  {
    hide From, Recorded, UndefinedMount, Settled, Apply;
    CompletedRun(c, env);
    var p := c.perses.value;
    RepeatedUpdateIsIdle(p.conditions, ToComplete("Perses", p.name), env.now, env.now);
  }

  // ---- Many runs ----

  ghost function Nth(c: Cluster, envs: nat -> Env, n: nat): Cluster {
    if n == 0 then c else Reconcile(Nth(c, envs, n - 1), envs(n - 1)).0
  }

  ghost predicate AlwaysQuiet(envs: nat -> Env) { forall n: nat :: Quiet(envs(n)) }

  lemma {:induction false} NeedAfter(c: Cluster, envs: nat -> Env, n: nat)
    requires AlwaysQuiet(envs) && Serviceable(c)
    ensures Serviceable(Nth(c, envs, n))
    ensures Need(Nth(c, envs, n)) == if Need(c) > n then Need(c) - n else 0
  {
    hide Serviceable, Reconcile, Quiet, Need;
    if n > 0 {
      NeedAfter(c, envs, n - 1);
      NeedCounts(Nth(c, envs, n - 1), envs(n - 1));
    }
  }

  /** Exactly the runs from number `Need` on complete, counting from zero; so the third one does
      at the latest. */
  lemma CompletesByTheThirdRun(c: Cluster, envs: nat -> Env, n: nat)
    requires AlwaysQuiet(envs) && Serviceable(c)
    ensures Completes(Nth(c, envs, n), envs(n)) <==> n >= Need(c)
    ensures n >= 2 ==> Completes(Nth(c, envs, n), envs(n))
  {
    hide Quiet, Completes;
    NeedAfter(c, envs, n);
    NeedCounts(Nth(c, envs, n), envs(n));
  }

  // If the user got something wrong no run ever completes, whatever the requests answer.
  lemma {:induction false} UnserviceableNeverCompletes(c: Cluster, envs: nat -> Env, n: nat)
    requires c.perses.Some? && !Serviceable(c)
    ensures Nth(c, envs, n).perses.Some? && !Serviceable(Nth(c, envs, n)) && !Completes(Nth(c, envs, n), envs(n))
  {
    hide Reconcile, Recorded, UndefinedMount, Run;
    if n > 0 {
      UnserviceableNeverCompletes(c, envs, n - 1);
      StaysServiceable(Nth(c, envs, n - 1), envs(n - 1));
    }
    if Completes(Nth(c, envs, n), envs(n)) { CompletedRun(Nth(c, envs, n), envs(n)); }
  }

  // ---- Rest ----

  // A workload that a completed run wanted is found as wanted by the next.
  lemma SettledAgain(required: bool, there: Option<Workload>, desired: Workload)
    ensures var once := Settled(required, there, desired, None); Settled(required, once, desired, None) == once
  {
  }

  lemma SettledServiceAgain(there: Option<Service>, desired: Service)
    ensures SettledService(Some(SettledService(there, desired)), desired) == SettledService(there, desired)
  {
    hide SameService;
  }

  lemma SettledConfigMapAgain(there: Option<ConfigMap>, desired: ConfigMap)
    ensures SettledConfigMap(Some(SettledConfigMap(there, desired)), desired) == SettledConfigMap(there, desired)
  {
    hide SameConfigMap;
  }

  lemma SameDigest(p: Perses, q: Perses, e: Env, f: Env)
    requires p.spec == q.spec && p.provisioning == q.provisioning && e.digest == f.digest
    ensures Wanted(p, e) == Wanted(q, f)
  {
  }

  lemma CompletedAgain(p: Perses, t: Time, u: Time)
    ensures Completed(Completed(p, t), u) == Completed(p, t)
  {
    hide Apply;
    RepeatedUpdateIsIdle(p.conditions, ToComplete("Perses", p.name), t, u);
  }

  // Once the recorded versions are those of the secrets, a second quiet run finds nothing to do.
  lemma FinishedIsFinal(c: Cluster, e: Env, f: Env, list: seq<SecretVersion>)
    requires Quiet(e) && Quiet(f) && e.digest == f.digest
    requires c.perses.Some? && c.perses.value.provisioning == list
    ensures var d := FinishedAs(c, e, list); FinishedAs(d, f, list) == d
  {
    hide Settled, SettledService, SettledConfigMap, Wanted, Apply, Completed;
    var p, d := c.perses.value, FinishedAs(c, e, list);
    var q := d.perses.value;
    CompletedIs(Released(p), e.now);
    CompletedAgain(Released(p), e.now, f.now);
    SameDigest(p, q, e, f);
    assert e.faults(ReconcileDeployment, Get) == f.faults(ReconcileDeployment, Get) == None;
    assert e.faults(ReconcileStatefulSet, Get) == f.faults(ReconcileStatefulSet, Get) == None;
    SettledServiceAgain(ServiceThere(c, p.ServiceName()), ServiceWanted(p));
    SettledConfigMapAgain(c.configMap, ConfigMapWanted(p));
    SettledAgain(p.spec.RequiresDeployment(), c.deployment, Wanted(p, e));
    SettledAgain(p.spec.RequiresStatefulSet(), c.statefulSet, Wanted(p, e));
  }

  lemma CompletedIs(p: Perses, now: Time)
    ensures var q := Completed(p, now);
      q.name == p.name && q.spec == p.spec && q.provisioning == p.provisioning && q.finalizer == p.finalizer
  {
    hide Apply;
  }

  // A completed run records the versions; the spec and the secrets stay.
  lemma CompletedRecords(c: Cluster, env: Env)
    requires Completes(c, env)
    ensures var p := c.perses.value; var d := Reconcile(c, env).0;
      && d.perses.Some? && d.secrets == c.secrets && d.perses.value.spec == p.spec
      && Recorded(p.spec.secretRefs, c.secrets) == Some(d.perses.value.provisioning)
      && d == FinishedAs(c, env, d.perses.value.provisioning)
  {
    hide From, Recorded, UndefinedMount, Settled, Wanted, Completed;
    CompletedRun(c, env);
    CompletedIs(Provisioned(Released(c.perses.value), Recorded(c.perses.value.spec.secretRefs, c.secrets).value), env.now);
  }

  lemma TwoThenRest(c: Cluster, e: Env, f: Env, g: Env)
    requires f.digest == g.digest && Quiet(f) && Quiet(g) && Completes(c, e)
    requires var d := Reconcile(c, e).0; Completes(d, f) && Completes(Reconcile(d, f).0, g)
    ensures var x := Reconcile(Reconcile(c, e).0, f).0; Reconcile(x, g).0 == x
  {
    hide Reconcile, Run, Recorded, FinishedAs, Quiet;
    var d := Reconcile(c, e).0;
    CompletedRecords(c, e);
    CompletedRecords(d, f);
    CompletedRecords(Reconcile(d, f).0, g);
    FinishedIsFinal(d, f, g, d.perses.value.provisioning);
  }

  /** From any start, with a spec the user got right, a quiet cluster comes to rest: after at
      most four runs nothing changes any more, so no run triggers another. */
  lemma ComesToRest(c: Cluster, envs: nat -> Env, n: nat)
    requires AlwaysQuiet(envs) && Serviceable(c) && (forall i: nat :: envs(i).digest == envs(0).digest)
    requires n >= Need(c) + 2
    ensures Nth(c, envs, n + 1) == Nth(c, envs, n)
  {
    hide Quiet, Completes, Serviceable, Need, Reconcile;
    CompletesByTheThirdRun(c, envs, n - 2);
    CompletesByTheThirdRun(c, envs, n - 1);
    CompletesByTheThirdRun(c, envs, n);
    var d := Nth(c, envs, n - 2);
    assert Nth(c, envs, n - 1) == Reconcile(d, envs(n - 2)).0;
    assert Nth(c, envs, n) == Reconcile(Nth(c, envs, n - 1), envs(n - 1)).0;
    assert envs(n - 1).digest == envs(n).digest;
    TwoThenRest(d, envs(n - 2), envs(n - 1), envs(n));
  }
}
