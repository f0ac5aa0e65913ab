/** The promises of the Perses controller over whole runs and sequences of runs. */
module PersesOutcomes {
  import opened Wrappers
  import opened Subreconciler
  import opened Conditions
  import opened Provisioning
  import opened PersesChain
  import opened PersesRuns

  // ---- Workloads ----

  predicate LeavesWorkloads(spec: PersesSpec, c: Cluster, d: Cluster, env: Env) {
    && (d.deployment.Some? <==>
          spec.RequiresDeployment() || (c.deployment.Some? && env.faults(ReconcileDeployment, Get).Some?))
    && (d.statefulSet.Some? <==>
          spec.RequiresStatefulSet() || (c.statefulSet.Some? && env.faults(ReconcileStatefulSet, Get).Some?))
  }

  /** A run that reaches its last step, however that ends, leaves a workload exactly if the spec
      requires it, or if it was there, is not required any more and could not be read. */
  lemma WorkloadsAtTheEnd(c: Cluster, env: Env)
    requires Reaches(c, env)
    ensures LeavesWorkloads(c.perses.value.spec, c, Reconcile(c, env).0, env)
  {
    hide From, Recorded, UndefinedMount, UpdateStatus, Wanted, Common, RunAll;
    ReachedRun(c, env);
  }

  lemma WorkloadsAfterCompletion(c: Cluster, env: Env)
    requires Completes(c, env)
    ensures LeavesWorkloads(c.perses.value.spec, c, Reconcile(c, env).0, env)
  {
    hide From, RunAll, LeavesWorkloads;
    CompletedReaches(c, env);
    WorkloadsAtTheEnd(c, env);
  }

  // With SQL, a file database and no emptyDir both workloads run side by side.
  lemma BothWorkloads(c: Cluster, env: Env)
    requires Reaches(c, env)
    requires env.faults(ReconcileDeployment, Get).None? && env.faults(ReconcileStatefulSet, Get).None?
    ensures var spec := c.perses.value.spec; var d := Reconcile(c, env).0;
      && (d.deployment.Some? <==> spec.sql || (spec.file && spec.emptyDir))
      && (d.statefulSet.Some? <==> spec.file && !spec.emptyDir)
      && (d.deployment.Some? && d.statefulSet.Some? <==> spec.sql && spec.file && !spec.emptyDir)
      && (d.deployment.None? && d.statefulSet.None? <==> !spec.sql && !spec.file)
  {
    hide Reconcile, RunAll;
    WorkloadsAtTheEnd(c, env);
  }

  // ---- Annotations ----

  /** A service annotation shows on the config map and on a workload that the run wrote exactly
      if the object has an annotations map of its own, which all builders then share. */
  lemma ServiceAnnotationsLeak(c: Cluster, env: Env, key: string)
    requires Reaches(c, env)
    requires var spec := c.perses.value.spec;
      && key != PROVISIONING_VERSION && key !in spec.annotations.GetOr(map[]) && key in spec.serviceAnnotations.GetOr(map[])
    ensures var p := c.perses.value; var d := Reconcile(c, env).0;
      && p.ServiceName() in d.services && key in d.services[p.ServiceName()].annotations
      && d.configMap.Some? && (key in d.configMap.value.annotations <==> p.spec.annotations.Some?)
      && (p.spec.RequiresDeployment() ==> d.deployment.Some? && (key in d.deployment.value.template <==> p.spec.annotations.Some?))
      && (p.spec.RequiresStatefulSet() ==> d.statefulSet.Some? && (key in d.statefulSet.value.template <==> p.spec.annotations.Some?))
  {
    hide From, Recorded, UndefinedMount, UpdateStatus, Built, Common, HashEntry, RunAll;
    ReachedRun(c, env);
    LeakOf(c.perses.value, env, key);
  }

  lemma LeakOf(p: Perses, env: Env, key: string)
    requires key != PROVISIONING_VERSION && key !in p.spec.annotations.GetOr(map[]) && key in p.spec.serviceAnnotations.GetOr(map[])
    ensures key in Built(p.spec.annotations, p.spec.serviceAnnotations.GetOr(map[]))
    ensures key in Common(p).GetOr(map[]) <==> p.spec.annotations.Some?
    ensures key in Built(Common(p), HashEntry(p, env)) <==> p.spec.annotations.Some?
  {
  }

  // ---- What the owned objects say, spelled out ----

  function Reads(m: map<string, string>, key: string): Option<string> { if key in m then Some(m[key]) else None }

  // An annotation of the service section wins over one of the object's metadata.
  function Merged(spec: PersesSpec, key: string): Option<string> {
    if spec.serviceAnnotations.Some? && key in spec.serviceAnnotations.value then Some(spec.serviceAnnotations.value[key])
    else if spec.annotations.Some? && key in spec.annotations.value then Some(spec.annotations.value[key])
    else None
  }

  // The config map and the workloads see the service section only through the metadata.
  function Inherited(spec: PersesSpec, key: string): Option<string> {
    if spec.annotations.None? then None else Merged(spec, key)
  }

  // Every label the operator sets has its value; an empty value may as well be missing.
  predicate Carries(m: map<string, string>, labels: map<string, string>) {
    forall k :: k in labels ==> (k in m && m[k] == labels[k]) || (k !in m && labels[k] == "")
  }

  ghost predicate ServiceSays(s: Service, spec: PersesSpec) {
    && s.ports == spec.ports && (forall k :: Reads(s.annotations, k) == Merged(spec, k))
    && Carries(s.labels, spec.labels) && Carries(s.selector, spec.labels) && |s.selector| == |spec.labels|
  }

  ghost predicate ConfigMapSays(m: ConfigMap, spec: PersesSpec) {
    m.data == spec.config && (forall k :: Reads(m.annotations, k) == Inherited(spec, k)) && Carries(m.labels, spec.configLabels)
  }

  // The digest takes the place of an annotation of that name.
  ghost predicate WorkloadSays(w: Workload, p: Perses, env: Env) {
    && w.pod == p.spec.pod
    && forall k :: Reads(w.template, k) ==
         if k == "perses.dev/provisioning-version" && p.provisioning != [] && env.digest(p.provisioning) != "" then
           Some(env.digest(p.provisioning))
         else Inherited(p.spec, k)
  }

  /** Every run that reaches its last step leaves the service, under the name the spec gives it or
      the object's own, the config map and the required workloads with the present configuration. */
  lemma OwnedObjectsAtTheEnd(c: Cluster, env: Env)
    requires Reaches(c, env)
    ensures var p := c.perses.value; var d := Reconcile(c, env).0;
      var name := if p.spec.serviceName.Some? && p.spec.serviceName.value != "" then p.spec.serviceName.value else p.name;
      && name in d.services && ServiceSays(d.services[name], p.spec)
      && d.configMap.Some? && ConfigMapSays(d.configMap.value, p.spec)
      && (p.spec.sql || (p.spec.file && p.spec.emptyDir) ==> d.deployment.Some? && WorkloadSays(d.deployment.value, p, env))
      && (p.spec.file && !p.spec.emptyDir ==> d.statefulSet.Some? && WorkloadSays(d.statefulSet.value, p, env))
  {
    hide From, Recorded, UndefinedMount, UpdateStatus, RunAll, SettledService, SettledConfigMap, ServiceWanted, ConfigMapWanted,
      Wanted, ServiceSays, ConfigMapSays, WorkloadSays;
    var p := c.perses.value;
    ReachedRun(c, env);
    SettledServiceSays(ServiceThere(c, p.ServiceName()), p);
    SettledConfigMapSays(c.configMap, p);
    if c.deployment.Some? { SameSpecSays(c.deployment.value, p, env); }
    if c.statefulSet.Some? { SameSpecSays(c.statefulSet.value, p, env); }
    SameSpecSays(Wanted(p, env), p, env);
  }

  lemma SettledServiceSays(there: Option<Service>, p: Perses)
    ensures ServiceSays(SettledService(there, ServiceWanted(p)), p.spec)
  {
  }

  lemma SettledConfigMapSays(there: Option<ConfigMap>, p: Perses)
    ensures ConfigMapSays(SettledConfigMap(there, ConfigMapWanted(p)), p.spec)
  {
  }

  lemma SameSpecSays(w: Workload, p: Perses, env: Env)
    ensures SameSpec(w, Wanted(p, env)) ==> WorkloadSays(w, p, env)
  {
  }

  // ---- Rolling out new secret versions ----

  // What a run that reaches its last step puts on the pods of a required workload.
  lemma TemplateAtTheEnd(c: Cluster, env: Env)
    requires Reaches(c, env)
    ensures var p := c.perses.value; var d := Reconcile(c, env).0;
      && d.perses.Some? && d.secrets == c.secrets
      && d.perses.value.spec == p.spec && Some(d.perses.value.provisioning) == Recorded(p.spec.secretRefs, c.secrets)
      && (p.spec.RequiresDeployment() ==>
            d.deployment.Some? && d.deployment.value.template == Built(Common(p), HashEntry(p, env)) && d.deployment.value.pod == p.spec.pod)
      && (p.spec.RequiresStatefulSet() ==>
            d.statefulSet.Some? && d.statefulSet.value.template == Built(Common(p), HashEntry(p, env)) && d.statefulSet.value.pod == p.spec.pod)
  {
    hide From, Recorded, UndefinedMount, Apply, Common, HashEntry, Built, RunAll, SettledService, SettledConfigMap;
    ReachedRun(c, env);
  }

  // The annotation on the pods of every required workload.
  predicate PodsShow(c: Cluster, spec: PersesSpec, version: Option<string>) {
    && (spec.RequiresDeployment() ==> c.deployment.Some? && Entry(c.deployment.value.template) == version)
    && (spec.RequiresStatefulSet() ==> c.statefulSet.Some? && Entry(c.statefulSet.value.template) == version)
  }

  function Entry(a: Annotations): Option<string> {
    if "perses.dev/provisioning-version" in a then Some(a["perses.dev/provisioning-version"]) else None
  }

  // One run rolls out the versions that were recorded when it began, not the ones it reads.
  lemma OneRunShowsTheOldStatus(c: Cluster, env: Env)
    requires Reaches(c, env)
    requires var p := c.perses.value; p.provisioning != [] && env.digest(p.provisioning) != ""
    ensures PodsShow(Reconcile(c, env).0, c.perses.value.spec, Some(env.digest(c.perses.value.provisioning)))
  {
    hide Reconcile, RunAll, Recorded, Common;
    TemplateAtTheEnd(c, env);
  }

  /** Two runs, each with whatever faults still let it reach its last step, show the digest of the
      versions the secrets have now. */
  lemma TwoRunsShowTheSecrets(c: Cluster, first: Env, second: Env)
    requires Reaches(c, first) && Reaches(Reconcile(c, first).0, second)
    requires var p := c.perses.value; var rec := Recorded(p.spec.secretRefs, c.secrets);
      p.spec.secretRefs != [] && (rec.Some? ==> second.digest(rec.value) != "")
    ensures var p := c.perses.value; var d := Reconcile(c, first).0; var rec := Recorded(p.spec.secretRefs, c.secrets);
      rec.Some? && PodsShow(Reconcile(d, second).0, p.spec, Some(second.digest(rec.value)))
  {
    hide Reconcile, RunAll, Recorded, PodsShow;
    var d := Reconcile(c, first).0;
    TemplateAtTheEnd(c, first);
    OneEntryEach(c.perses.value.spec.secretRefs, c.secrets);
    assert c.perses.value.spec.secretRefs[0] in c.perses.value.spec.secretRefs;
    OneRunShowsTheOldStatus(d, second);
  }

  // With no references left, two runs take the annotation away again.
  lemma TwoRunsForgetTheSecrets(c: Cluster, first: Env, second: Env)
    requires Reaches(c, first) && Reaches(Reconcile(c, first).0, second)
    requires c.perses.value.spec.secretRefs == [] && Entry(Common(c.perses.value).GetOr(map[])) == None
    ensures PodsShow(Reconcile(Reconcile(c, first).0, second).0, c.perses.value.spec, None)
  {
    hide Reconcile, RunAll, Recorded;
    var d := Reconcile(c, first).0;
    TemplateAtTheEnd(c, first);
    NothingRecorded(c.secrets);
    TemplateAtTheEnd(d, second);
  }
}
