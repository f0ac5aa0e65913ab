/** The Perses controller: ten sub-reconcilers run in order on one Perses object, the first one
    that does not simply continue ends the run. */
module PersesChain {
  import opened Wrappers
  import opened Subreconciler
  import opened Conditions
  import opened Provisioning

  type Annotations = map<string, string>
  type Labels = map<string, string>

  const PROVISIONING_VERSION := "perses.dev/provisioning-version"
  const NOT_FOUND := "not found"
  const ALREADY_EXISTS := "already exists"
  const CONFLICT := "conflict"

  // ---- The custom resource and what the controller owns ----

  datatype Mount = Mount(name: string, path: string)

  datatype PersesSpec = PersesSpec(
    sql: bool, file: bool, emptyDir: bool,
    annotations: Option<Annotations>,
    serviceName: Option<string>, serviceAnnotations: Option<Annotations>,
    secretRefs: seq<string>,
    volumes: seq<string>, mounts: seq<Mount>,
    labels: Labels, configLabels: Labels,
    config: string, ports: string, pod: string)
  {
    // SQL, or a file database kept in an emptyDir.
    predicate RequiresDeployment() { sql || (file && emptyDir) }
    // A file database kept anywhere else.
    predicate RequiresStatefulSet() { file && !emptyDir }
  }

  datatype Perses = Perses(
    name: string, spec: PersesSpec, deleting: bool, finalizer: bool,
    conditions: seq<Condition>, provisioning: seq<SecretVersion>, version: nat)
  {
    function ServiceName(): string {
      match spec.serviceName
      case Some(n) => if n != "" then n else name
      case None => name
    }
  }

  datatype Service = Service(annotations: Annotations, labels: Labels, selector: Labels, ports: string)
  datatype ConfigMap = ConfigMap(annotations: Annotations, labels: Labels, data: string)
  // The annotations stand on the workload itself and again on its pod template.
  datatype Workload = Workload(annotations: Annotations, template: Annotations, pod: string)

  datatype Cluster = Cluster(
    perses: Option<Perses>,
    services: map<string, Service>,
    configMap: Option<ConfigMap>,
    deployment: Option<Workload>,
    statefulSet: Option<Workload>,
    secrets: map<string, string>)

  // ---- The chain ----

  datatype SubReconciler =
    | HandleDelete | SetStatusToUnknown | RemoveFinalizer | ValidateVolumes | ReconcileProvisioning
    | ReconcileService | ReconcileConfigMap | ReconcileDeployment | ReconcileStatefulSet | SetStatusToComplete

  const CHAIN: seq<SubReconciler> :=
    [HandleDelete, SetStatusToUnknown, RemoveFinalizer, ValidateVolumes, ReconcileProvisioning,
     ReconcileService, ReconcileConfigMap, ReconcileDeployment, ReconcileStatefulSet, SetStatusToComplete]

  datatype Request = Get | Create | DryRun | Write | Delete

  // What the surroundings decide: whether the first read of the object fails, which other requests
  // fail and how, which failing writes land all the same because only the reply was lost, which
  // secrets cannot be read just now, which objects cannot be built and why, the time, the digest of
  // a list of versions, and how Go quotes a string.
  datatype Env = Env(
    firstRead: Option<Error>,
    faults: (SubReconciler, Request) -> Option<Error>,
    lands: (SubReconciler, Request) -> bool,
    unreadable: set<string>,
    broken: SubReconciler -> Option<Error>,
    now: Time,
    digest: seq<SecretVersion> -> string,
    quote: string -> string)
  {
    // What is there after a write that failed.
    function Lost<T>(which: SubReconciler, request: Request, before: T, after: T): T {
      if lands(which, request) then after else before
    }
  }

  // `own` is the object all steps of a run share, and `shared` its metadata annotations: one
  // map that the builders of the owned objects hand around and write to.
  datatype World = World(cluster: Cluster, own: Perses, shared: Option<Annotations>)

  // ---- Status ----

  datatype StatusChange = MarkUnknown | MarkComplete | MarkInvalid(message: string) | Provision(list: seq<SecretVersion>)

  function Changed(p: Perses, change: StatusChange, now: Time): Perses {
    match change
    case MarkUnknown => p.(conditions := Apply(p.conditions, ToUnknown, now))
    case MarkComplete => p.(conditions := Apply(p.conditions, ToComplete("Perses", p.name), now))
    case MarkInvalid(message) => p.(conditions := MarkInvalidVolumes(p.conditions, message, now))
    case Provision(list) => p.(provisioning := list)
  }

  function Failure(e: Error): Step {
    if e == NOT_FOUND then DoNotRequeue() else RequeueWithError(e)
  }

  // The outcome of a status update, and whether the update function saw an object at all.
  datatype StatusOutcome = StatusOutcome(step: Step, perses: Option<Perses>, ran: bool)

  // One atomic update, which is what the retry loop amounts to.
  function UpdateStatus(there: Option<Perses>, which: SubReconciler, change: StatusChange, env: Env): StatusOutcome {
    if env.faults(which, Get).Some? then StatusOutcome(Failure(env.faults(which, Get).value), there, false)
    else if there.None? then StatusOutcome(DoNotRequeue(), there, false)
    else
      var p := Changed(there.value, change, env.now);
      if p == there.value then StatusOutcome(ContinueReconciling(), there, true)
      else
        var after := Some(p.(version := p.version + 1));
        if env.faults(which, Write).Some? then
          StatusOutcome(Failure(env.faults(which, Write).value), env.Lost(which, Write, there, after), true)
        else StatusOutcome(ContinueReconciling(), after, true)
  }

  function WithPerses(w: World, perses: Option<Perses>): World {
    w.(cluster := w.cluster.(perses := perses))
  }

  // ---- The single steps ----

  function DoHandleDelete(w: World, env: Env): (Step, World) {
    if !w.own.deleting then (ContinueReconciling(), w)
    else if !w.own.finalizer then (DoNotRequeue(), w)
    else if env.faults(HandleDelete, Get).Some? then (RequeueWithError(env.faults(HandleDelete, Get).value), w)
    else if w.cluster.perses.None? then (RequeueWithError(NOT_FOUND), w)
    else
      var p := w.cluster.perses.value;
      var after := WithPerses(w, Some(p.(finalizer := false, version := p.version + 1)));
      if env.faults(HandleDelete, Write).Some? then
        (RequeueWithError(env.faults(HandleDelete, Write).value), env.Lost(HandleDelete, Write, w, after))
      else (DoNotRequeue(), after)
  }

  // Only an error of the status update counts here: that the object is gone does not.
  function DoSetStatusToUnknown(w: World, env: Env): (Step, World) {
    var o := UpdateStatus(w.cluster.perses, SetStatusToUnknown, MarkUnknown, env);
    var needsRequeue := o.ran && w.cluster.perses.value.conditions == [];
    (if o.step.error.Some? then o.step
     else if needsRequeue then RequeueWithDelay(5)
     else ContinueReconciling(),
     WithPerses(w, o.perses))
  }

  // Re-reads the object, so the steps after it work on that reading.
  function DoRemoveFinalizer(w: World, env: Env): (Step, World) {
    if !w.own.finalizer then (ContinueReconciling(), w)
    else if env.faults(RemoveFinalizer, Get).Some? then (Failure(env.faults(RemoveFinalizer, Get).value), w)
    else if w.cluster.perses.None? then (DoNotRequeue(), w)
    else
      var p := w.cluster.perses.value;
      var read := w.(own := p, shared := p.spec.annotations);
      if !p.finalizer then (RequeueWithError("failed to remove finalizer from the custom resource"), read)
      else
        var q := p.(finalizer := false, version := p.version + 1);
        if env.faults(RemoveFinalizer, Write).Some? then
          (Failure(env.faults(RemoveFinalizer, Write).value), env.Lost(RemoveFinalizer, Write, read, WithPerses(read, Some(q))))
        else (ContinueReconciling(), WithPerses(read.(own := q), Some(q)))
  }

  // The first mount whose volume is not defined.
  function UndefinedMount(volumes: seq<string>, mounts: seq<Mount>): (m: Option<Mount>)
    ensures m.None? <==> forall i :: 0 <= i < |mounts| ==> mounts[i].name in volumes
    ensures m.Some? ==> m.value in mounts && m.value.name !in volumes
  {
    if mounts == [] then None
    else if mounts[0].name !in volumes then Some(mounts[0])
    else UndefinedMount(volumes, mounts[1..])
  }

  function VolumeMessage(m: Mount, env: Env): string {
    "volumeMount at " + env.quote(m.path) + " references volume " + env.quote(m.name) + " which is not defined in spec.volumes"
  }

  function DoValidateVolumes(w: World, env: Env): (Step, World) {
    match UndefinedMount(w.own.spec.volumes, w.own.spec.mounts)
    case None => (ContinueReconciling(), w)
    case Some(m) =>
      var o := UpdateStatus(w.cluster.perses, ValidateVolumes, MarkInvalid(VolumeMessage(m, env)), env);
      (RequeueWithError(if o.step.error.Some? then o.step.error.value else VolumeMessage(m, env)), WithPerses(w, o.perses))
  }

  ghost function DoReconcileProvisioning(w: World, env: Env): (Step, World) {
    match Recorded(w.own.spec.secretRefs, w.cluster.secrets - env.unreadable)
    case None => (RequeueWithError("secret not readable"), w)
    case Some(list) =>
      if w.own.spec.secretRefs != [] && list == w.own.provisioning then (ContinueReconciling(), w)
      else
        var o := UpdateStatus(w.cluster.perses, ReconcileProvisioning, Provision(list), env);
        (o.step, WithPerses(w, o.perses))
  }

  // ---- Owned objects ----

  datatype Reading<T> = Found(value: T) | Missing | Failed(error: Error)

  function Read<T>(there: Option<T>, fault: Option<Error>): Reading<T> {
    match fault
    case Some(e) => if e == NOT_FOUND then Missing else Failed(e)
    case None => if there.Some? then Found(there.value) else Missing
  }

  datatype Put<T> = Put(step: Step, there: Option<T>, reported: bool)

  // A read that answers neither found nor not found; nothing is built then.
  predicate Unreadable(which: SubReconciler, env: Env) {
    env.faults(which, Get).Some? && env.faults(which, Get).value != NOT_FOUND
  }

  // Creates the object or brings it up to date. `reported` says that a failure to build a missing
  // object is to be written to the status.
  function Ensure<T>(there: Option<T>, desired: T, same: (T, T) -> bool, created: Step, which: SubReconciler, env: Env): Put<T> {
    match Read(there, env.faults(which, Get))
    case Failed(e) => Put(RequeueWithError(e), there, false)
    case Missing =>
      if env.broken(which).Some? then Put(RequeueWithError(env.broken(which).value), there, true)
      else if there.Some? && env.faults(which, Create).None? then Put(RequeueWithError(ALREADY_EXISTS), there, false)
      else if env.faults(which, Create).Some? then
        Put(RequeueWithError(env.faults(which, Create).value),
            if there.Some? then there else env.Lost(which, Create, None, Some(desired)), false)
      else Put(created, Some(desired), false)
    case Found(found) =>
      if env.broken(which).Some? then Put(RequeueWithError(env.broken(which).value), there, false)
      else if env.faults(which, DryRun).Some? then Put(RequeueWithError(env.faults(which, DryRun).value), there, false)
      else if same(found, desired) then Put(ContinueReconciling(), there, false)
      else if env.faults(which, Write).Some? then
        Put(RequeueWithError(env.faults(which, Write).value), env.Lost(which, Write, there, Some(desired)), false)
      else Put(ContinueReconciling(), Some(desired), false)
  }

  // A workload that is not required is deleted, if it can be read; an error of that read is dropped.
  function Discard<T>(there: Option<T>, which: SubReconciler, env: Env): Put<T> {
    if Read(there, env.faults(which, Get)).Found? then
      if env.faults(which, Delete).Some? then
        Put(RequeueWithError(env.faults(which, Delete).value), env.Lost(which, Delete, there, None), false)
      else Put(ContinueReconciling(), None, false)
    else Put(ContinueReconciling(), there, false)
  }

  function Noun(which: SubReconciler): string {
    match which
    case ReconcileService => "Service"
    case ReconcileConfigMap => "ConfigMap"
    case ReconcileDeployment => "Deployment"
    case ReconcileStatefulSet => "StatefulSet"
    case _ => ""
  }

  function FailureMessage(p: Perses, which: SubReconciler, env: Env): string {
    "Failed to create " + Noun(which) + " for the custom resource (" + p.name + "): (" + env.broken(which).GetOr("") + ")"
  }

  // The status write of a failed build uses the object of the run, so it lands only if nobody,
  // this run included, has changed the object since that was read.
  function Report(step: Step, w: World, which: SubReconciler, env: Env): (Step, World) {
    var mine := w.own.(conditions := Set(w.own.conditions, AVAILABLE, No, "Reconciling", FailureMessage(w.own, which, env), env.now));
    var said := w.(own := mine);
    if w.cluster.perses.None? then (RequeueWithError(env.faults(which, Write).GetOr(NOT_FOUND)), said)
    else
      var p := w.cluster.perses.value;
      if p.version != mine.version then (RequeueWithError(env.faults(which, Write).GetOr(CONFLICT)), said)
      else
        var q := p.(conditions := mine.conditions, provisioning := mine.provisioning, version := p.version + 1);
        if env.faults(which, Write).Some? then
          (RequeueWithError(env.faults(which, Write).value), env.Lost(which, Write, said, WithPerses(said, Some(q))))
        else (step, WithPerses(said, Some(q)))
  }

  function Finish<T>(put: Put<T>, w: World, which: SubReconciler, env: Env): (Step, World) {
    if put.reported then Report(put.step, w, which, env) else (put.step, w)
  }

  // What the builders read from the shared map, and what they leave in it: a map that is there
  // is written to, a fresh one is not kept.
  function Built(shared: Option<Annotations>, more: Annotations): Annotations {
    shared.GetOr(map[]) + more
  }

  function Left(shared: Option<Annotations>, more: Annotations): Option<Annotations> {
    if shared.Some? then Some(Built(shared, more)) else None
  }

  function ServiceOf(w: World): Service {
    Service(Built(w.shared, w.own.spec.serviceAnnotations.GetOr(map[])), w.own.spec.labels, w.own.spec.labels, w.own.spec.ports)
  }

  // A missing key reads as the empty string.
  function At(labels: Labels, key: string): string { if key in labels then labels[key] else "" }

  // Labels that somebody else has added do not matter, and neither do changed selectors of equal
  // size outside the operator's keys.
  predicate SameService(found: Service, built: Service) {
    && found.ports == built.ports && found.annotations == built.annotations && |found.selector| == |built.labels|
    && forall k :: k in built.labels ==> At(found.labels, k) == At(built.labels, k) && At(found.selector, k) == At(built.selector, k)
  }

  function ServiceThere(c: Cluster, name: string): Option<Service> {
    if name in c.services then Some(c.services[name]) else None
  }

  function SharedAfterService(w: World, env: Env): Option<Annotations> {
    if Unreadable(ReconcileService, env) then w.shared else Left(w.shared, w.own.spec.serviceAnnotations.GetOr(map[]))
  }

  function DoReconcileService(w: World, env: Env): (Step, World) {
    var name := w.own.ServiceName();
    var put := Ensure(ServiceThere(w.cluster, name), ServiceOf(w), SameService, ContinueReconciling(), ReconcileService, env);
    var services := if put.there.Some? then w.cluster.services[name := put.there.value] else w.cluster.services;
    Finish(put,
           World(w.cluster.(services := services), w.own, SharedAfterService(w, env)),
           ReconcileService, env)
  }

  function ConfigMapOf(w: World): ConfigMap {
    ConfigMap(Built(w.shared, map[]), w.own.spec.configLabels, w.own.spec.config)
  }

  predicate SameConfigMap(found: ConfigMap, built: ConfigMap) {
    && found.data == built.data && found.annotations == built.annotations
    && forall k :: k in built.labels ==> At(found.labels, k) == At(built.labels, k)
  }

  function DoReconcileConfigMap(w: World, env: Env): (Step, World) {
    var put := Ensure(w.cluster.configMap, ConfigMapOf(w), SameConfigMap, ContinueReconciling(),
                      ReconcileConfigMap, env);
    Finish(put, w.(cluster := w.cluster.(configMap := put.there)), ReconcileConfigMap, env)
  }

  function ProvisioningHash(p: Perses, env: Env): string {
    if p.provisioning == [] then "" else env.digest(p.provisioning)
  }

  // The annotation that makes the pods restart when a provisioning secret changes.
  function HashEntry(p: Perses, env: Env): Annotations {
    if ProvisioningHash(p, env) != "" then map[PROVISIONING_VERSION := ProvisioningHash(p, env)] else map[]
  }

  function WorkloadOf(w: World, env: Env): Workload {
    var annotations := Built(w.shared, HashEntry(w.own, env));
    Workload(annotations, annotations, w.own.spec.pod)
  }

  // Only the spec of a workload is compared, and the pod template is part of it.
  predicate SameSpec(a: Workload, b: Workload) { a.template == b.template && a.pod == b.pod }

  function PutWorkload(required: bool, there: Option<Workload>, w: World, created: Step, which: SubReconciler, env: Env): Put<Workload> {
    if required then Ensure(there, WorkloadOf(w, env), SameSpec, created, which, env) else Discard(there, which, env)
  }

  function SharedAfter(required: bool, w: World, which: SubReconciler, env: Env): Option<Annotations> {
    if required && !Unreadable(which, env) then Left(w.shared, HashEntry(w.own, env)) else w.shared
  }

  function DoReconcileDeployment(w: World, env: Env): (Step, World) {
    var required := w.own.spec.RequiresDeployment();
    var put := PutWorkload(required, w.cluster.deployment, w, ContinueReconciling(), ReconcileDeployment, env);
    Finish(put, World(w.cluster.(deployment := put.there), w.own, SharedAfter(required, w, ReconcileDeployment, env)), ReconcileDeployment, env)
  }

  // A StatefulSet that was just created ends the run.
  function DoReconcileStatefulSet(w: World, env: Env): (Step, World) {
    var required := w.own.spec.RequiresStatefulSet();
    var put := PutWorkload(required, w.cluster.statefulSet, w, RequeueWithDelay(60), ReconcileStatefulSet, env);
    Finish(put, World(w.cluster.(statefulSet := put.there), w.own, SharedAfter(required, w, ReconcileStatefulSet, env)), ReconcileStatefulSet, env)
  }

  function DoSetStatusToComplete(w: World, env: Env): (Step, World) {
    var o := UpdateStatus(w.cluster.perses, SetStatusToComplete, MarkComplete, env);
    (o.step, WithPerses(w, o.perses))
  }

  ghost function Do(which: SubReconciler, w: World, env: Env): (Step, World) {
    match which
    case HandleDelete => DoHandleDelete(w, env)
    case SetStatusToUnknown => DoSetStatusToUnknown(w, env)
    case RemoveFinalizer => DoRemoveFinalizer(w, env)
    case ValidateVolumes => DoValidateVolumes(w, env)
    case ReconcileProvisioning => DoReconcileProvisioning(w, env)
    case ReconcileService => DoReconcileService(w, env)
    case ReconcileConfigMap => DoReconcileConfigMap(w, env)
    case ReconcileDeployment => DoReconcileDeployment(w, env)
    case ReconcileStatefulSet => DoReconcileStatefulSet(w, env)
    case SetStatusToComplete => DoSetStatusToComplete(w, env)
  }

  // Sub-reconcilers one after the other, up to the first that halts; the step is that of the last one run.
  ghost function RunAll(chain: seq<SubReconciler>, w: World, env: Env): (Step, World)
    decreases |chain|
  {
    if chain == [] then (ContinueReconciling(), w)
    else
      var (step, next) := Do(chain[0], w, env);
      if step.Halts() then (step, next) else RunAll(chain[1..], next, env)
  }

  // The chain from position `k` on.
  ghost function From(k: nat, w: World, env: Env): (Step, World)
    requires k <= |CHAIN|
  {
    RunAll(CHAIN[k..], w, env)
  }

  function Start(c: Cluster): World
    requires c.perses.Some?
  {
    World(c, c.perses.value, c.perses.value.spec.annotations)
  }

  // One run of Reconcile on an object that is there.
  ghost function Run(c: Cluster, env: Env): (Step, World)
    requires c.perses.Some?
  {
    From(0, Start(c), env)
  }

  // The run gets as far as the last step, whatever becomes of that.
  ghost predicate Reaches(c: Cluster, env: Env) {
    env.firstRead.None? && c.perses.Some? && !RunAll(CHAIN[..9], Start(c), env).0.Halts()
  }

  ghost predicate Completes(c: Cluster, env: Env) {
    env.firstRead.None? && c.perses.Some? && !Run(c, env).0.Halts()
  }

  ghost function Reconcile(c: Cluster, env: Env): (Cluster, (Requeue, Option<Error>)) {
    if env.firstRead.Some? then (c, Evaluate(Failure(env.firstRead.value)))
    else if c.perses.None? then (c, Evaluate(DoNotRequeue()))
    else (Run(c, env).1.cluster, Conclude(Run(c, env).0))
  }
}
