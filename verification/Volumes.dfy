/** The volumes and mounts of the pods: what the operator adds, what the user adds, and why the two
    fit together. */
module Volumes {
  import opened Wrappers
  import opened Sequences
  import opened VolumeNames
  import Paths

  datatype Source =
    | ConfigMapSource(name: string, mode: int)
    | SecretSource(name: string, mode: int)
    | SecretItem(name: string, key: string, path: string)
    | EmptyDirSource(options: string)
    | ClaimSource(name: string)
    | NoSource
    | OtherSource(text: string)

  datatype Volume = Volume(name: string, source: Source)
  datatype Mount = Mount(name: string, path: string, readOnly: bool, subPath: string)

  datatype Certificate = Certificate(kind: string, name: Option<string>)
  datatype TLS = TLS(enable: Option<bool>, caCert: Option<Certificate>, userCert: Option<Certificate>)

  datatype Perses = Perses(
    name: string, sql: bool, file: bool, emptyDir: Option<string>, tls: Option<TLS>,
    secretRefs: seq<SecretRef>, volumes: seq<Volume>, mounts: seq<Mount>)
  {
    predicate RequiresDeployment() { sql || (file && emptyDir.Some?) }
    predicate RequiresStatefulSet() { file && emptyDir.None? }
    predicate TlsEnabled() { tls.Some? && tls.value.enable == Some(true) }
    predicate HasCa() { TlsEnabled() && tls.value.caCert.Some? }
    predicate HasUserCert() { TlsEnabled() && tls.value.userCert.Some? }
  }

  const DEFAULT_FILE_MODE := 420
  const SECRETS_PATH := "/etc/perses/provisioning/secrets"

  const SECRETS_DIR := ["etc", "perses", "provisioning", "secrets"]

  // The file of a secret, with the path cleaned.
  function SecretPath(r: SecretRef): string { Paths.Join(SECRETS_DIR, r.String()) }

  // Names and keys that a secret can have contain no slash; the custom resource is not checked for that.
  predicate Storable(r: SecretRef) { Paths.SlashFree(r.name) && Paths.SlashFree(r.key) }
  predicate AllStorable(refs: seq<SecretRef>) { forall i :: 0 <= i < |refs| ==> Storable(refs[i]) }

  lemma SecretsDir()
    ensures Paths.Render(SECRETS_DIR) == SECRETS_PATH
  {
    hide Paths.Render;
    OperatorDir();
    Paths.RenderMore(["etc", "perses"], "provisioning");
    Paths.RenderMore(["etc", "perses"] + ["provisioning"], "secrets");
    assert SECRETS_DIR == ["etc", "perses"] + ["provisioning"] + ["secrets"];
  }

  lemma OperatorDir()
    ensures Paths.Render(["etc", "perses"]) == "/etc/perses"
  {
    assert Paths.Render([]) == "";
    Paths.RenderMore([], "etc");
    Paths.RenderMore(["etc"], "perses");
    assert [] + ["etc"] == ["etc"] && ["etc"] + ["perses"] == ["etc", "perses"];
  }

  lemma StorablePath(r: SecretRef)
    requires Storable(r)
    ensures SecretPath(r) == SECRETS_PATH + "/" + r.String()
  {
    hide Paths.Join, Paths.Render;
    var s := r.String();
    assert s[|r.name|] == '-';
    assert Paths.SlashFree(s);
    assert s != Paths.DOT && s != Paths.DOTS;
    SecretsDir();
    Paths.JoinPlain(SECRETS_DIR, s);
  }

  // The key "/../../../config".
  function Escaping(): string { "/" + (".." + "/" + (".." + "/" + (".." + "/" + "config"))) }

  // A key with dots and slashes leads out of the directory, here onto the configuration.
  lemma EscapingKey(name: string)
    requires Paths.SlashFree(name)
    ensures SecretPath(SecretRef(name, Escaping())) == "/etc/perses/config"
  {
    hide Paths.Split, Paths.Resolve, Paths.Render;
    var first := name + "-";
    var r1 := ".." + "/" + "config";
    var r2 := ".." + "/" + r1;
    var r3 := ".." + "/" + r2;
    assert Paths.SlashFree(first) && first[|name|] == '-' && first != Paths.DOT && first != Paths.DOTS;
    assert SecretRef(name, Escaping()).String() == first + "/" + r3;
    Paths.SplitFirst(first, r3);
    Paths.SplitFirst("..", r2);
    Paths.SplitFirst("..", r1);
    Paths.SplitFirst("..", "config");
    Paths.SplitPlain("config");
    Upwards(first);
  }

  lemma Upwards(first: string)
    requires first != "" && first != Paths.DOT && first != Paths.DOTS
    ensures var stack := Paths.Resolve(SECRETS_DIR, [first] + ([".."] + ([".."] + ([".."] + ["config"]))));
      stack != [] && Paths.Render(stack) == "/etc/perses/config"
  {
    hide Paths.Resolve, Paths.Render;
    var d := ["etc", "perses"];
    assert SECRETS_DIR == d + ["provisioning"] + ["secrets"] && ["config"] == ["config"] + [];
    Paths.ResolvePlain(SECRETS_DIR, first, [".."] + ([".."] + ([".."] + ["config"])));
    Paths.ResolveDots(SECRETS_DIR, first, [".."] + ([".."] + ["config"]));
    Paths.ResolveDots(d + ["provisioning"], "secrets", [".."] + ["config"]);
    Paths.ResolveDots(d, "provisioning", ["config"]);
    Paths.ResolvePlain(d, "config", []);
    Finished(d + ["config"]);
    OperatorDir();
    Paths.RenderMore(d, "config");
  }

  lemma Finished(stack: seq<string>)
    ensures Paths.Resolve(stack, []) == stack
  {
  }

  function CertVolume(name: string, cert: Certificate): Volume {
    Volume(name,
           if cert.kind == "secret" then SecretSource(cert.name.GetOr(""), DEFAULT_FILE_MODE)
           else if cert.kind == "configmap" then ConfigMapSource(cert.name.GetOr(""), DEFAULT_FILE_MODE)
           else NoSource)
  }

  function SecretVolume(r: SecretRef): Volume {
    Volume(VolumeName(r), SecretItem(r.name, r.key, r.String()))
  }

  function SecretMount(r: SecretRef): Mount {
    Mount(VolumeName(r), SecretPath(r), true, r.String())
  }

  // ---- The lists, part by part ----

  function OwnVolumes(p: Perses): seq<Volume> {
    [Volume("config", ConfigMapSource(p.name + "-config", DEFAULT_FILE_MODE)), Volume("plugins", EmptyDirSource(""))]
    + (if p.file then
         [Volume("storage", if p.emptyDir.Some? then EmptyDirSource(p.emptyDir.value) else ClaimSource(p.name + "-storage"))]
       else [])
    + (if p.HasCa() then [CertVolume("ca", p.tls.value.caCert.value)] else [])
    + (if p.HasUserCert() then [CertVolume("tls", p.tls.value.userCert.value)] else [])
  }

  function OwnMounts(p: Perses): seq<Mount> {
    [Mount("config", "/etc/perses/config", true, ""), Mount("plugins", "/etc/perses/plugins", false, "")]
    + (if p.file then [Mount("storage", "/perses", false, "")] else [])
    + (if p.HasCa() then [Mount("ca", "/ca", true, "")] else [])
    + (if p.HasUserCert() then [Mount("tls", "/tls", true, "")] else [])
  }

  function SecretVolumes(refs: seq<SecretRef>): seq<Volume> { seq(|refs|, i requires 0 <= i < |refs| => SecretVolume(refs[i])) }
  function SecretMounts(refs: seq<SecretRef>): seq<Mount> { seq(|refs|, i requires 0 <= i < |refs| => SecretMount(refs[i])) }

  function AllVolumes(p: Perses): seq<Volume> { OwnVolumes(p) + SecretVolumes(p.secretRefs) + p.volumes }
  function AllMounts(p: Perses): seq<Mount> { OwnMounts(p) + SecretMounts(p.secretRefs) + p.mounts }

  // ---- What a pod gets ----

  // A StatefulSet comes with a claim template of this name, and gives each of its pods a claim of
  // its own in the place of the pod's volume of that name.
  const CLAIM_TEMPLATE := "storage"

  datatype Pod = OfDeployment | OfStatefulSet(claim: string)

  function Without(vs: seq<Volume>, name: string): seq<Volume> {
    if vs == [] then []
    else if vs[0].name == name then Without(vs[1..], name)
    else [vs[0]] + Without(vs[1..], name)
  }

  function PodVolumes(p: Perses, pod: Pod): seq<Volume> {
    match pod
    case OfDeployment => AllVolumes(p)
    case OfStatefulSet(claim) => [Volume(CLAIM_TEMPLATE, ClaimSource(claim))] + Without(AllVolumes(p), CLAIM_TEMPLATE)
  }

  // The volume a mount gets: the first one of that name.
  function Lookup(vs: seq<Volume>, name: string): Option<Source> {
    if vs == [] then None
    else if vs[0].name == name then Some(vs[0].source)
    else Lookup(vs[1..], name)
  }

  lemma {:induction false} LookupWithout(vs: seq<Volume>, name: string, other: string)
    requires other != name
    ensures Lookup(Without(vs, name), other) == Lookup(vs, other)
  {
    if vs != [] {
      LookupWithout(vs[1..], name, other);
      if vs[0].name != name { assert Without(vs, name)[1..] == Without(vs[1..], name); }
    }
  }

  // Only the storage volume is the pod's own.
  lemma PodLookup(p: Perses, pod: Pod, name: string)
    ensures Lookup(PodVolumes(p, pod), name) ==
      if pod.OfStatefulSet? && name == CLAIM_TEMPLATE then Some(ClaimSource(pod.claim)) else Lookup(AllVolumes(p), name)
  {
    hide AllVolumes;
    if pod.OfStatefulSet? && name != CLAIM_TEMPLATE {
      LookupWithout(AllVolumes(p), CLAIM_TEMPLATE, name);
      assert PodVolumes(p, pod)[1..] == Without(AllVolumes(p), CLAIM_TEMPLATE);
    }
  }

  lemma {:induction false} LookupFinds(vs: seq<Volume>, name: string)
    ensures Lookup(vs, name).Some? <==> name in VolumeNamesOf(vs)
  {
    if vs != [] {
      LookupFinds(vs[1..], name);
      assert VolumeNamesOf(vs) == [vs[0].name] + VolumeNamesOf(vs[1..]);
    }
  }

  lemma {:induction false} WithoutConcat(vs: seq<Volume>, us: seq<Volume>, name: string)
    ensures Without(vs + us, name) == Without(vs, name) + Without(us, name)
  {
    if vs == [] {
      assert vs + us == us;
    } else {
      assert (vs + us)[1..] == vs[1..] + us;
      WithoutConcat(vs[1..], us, name);
    }
  }

  lemma {:induction false} WithoutNothing(vs: seq<Volume>, name: string)
    requires forall i :: 0 <= i < |vs| ==> vs[i].name != name
    ensures Without(vs, name) == vs
  {
    if vs != [] { WithoutNothing(vs[1..], name); }
  }

  lemma {:induction false} WithoutIsPart(vs: seq<Volume>, name: string)
    ensures forall i :: 0 <= i < |Without(vs, name)| ==> Without(vs, name)[i] in vs && Without(vs, name)[i].name != name
    ensures Distinct(VolumeNamesOf(vs)) ==> Distinct(VolumeNamesOf(Without(vs, name)))
  {
    if vs != [] {
      var rest, w := vs[1..], Without(vs[1..], name);
      WithoutIsPart(rest, name);
      if Distinct(VolumeNamesOf(vs)) {
        assert VolumeNamesOf(vs) == [vs[0].name] + VolumeNamesOf(rest);
        DistinctConcat([vs[0].name], VolumeNamesOf(rest));
        if vs[0].name != name {
          forall i | 0 <= i < |w| ensures VolumeNamesOf(w)[i] != vs[0].name {
            assert w[i] in rest;
            var j :| 0 <= j < |rest| && rest[j] == w[i];
            assert VolumeNamesOf(rest)[j] != [vs[0].name][0];
          }
          DistinctCons(vs[0].name, VolumeNamesOf(w));
          assert VolumeNamesOf(Without(vs, name)) == [vs[0].name] + VolumeNamesOf(w);
        }
      }
    }
  }

  // ---- As they are built ----

  method GetVolumes(p: Perses) returns (volumes: seq<Volume>)
    ensures volumes == AllVolumes(p)
  {
    hide VolumeName;
    volumes := [Volume("config", ConfigMapSource(p.name + "-config", DEFAULT_FILE_MODE)), Volume("plugins", EmptyDirSource(""))];
    if p.file {
      if p.emptyDir.Some? {
        volumes := volumes + [Volume("storage", EmptyDirSource(p.emptyDir.value))];
      } else {
        volumes := volumes + [Volume("storage", ClaimSource(p.name + "-storage"))];
      }
    }
    if p.TlsEnabled() {
      if p.tls.value.caCert.Some? { volumes := volumes + [CertVolume("ca", p.tls.value.caCert.value)]; }
      if p.tls.value.userCert.Some? { volumes := volumes + [CertVolume("tls", p.tls.value.userCert.value)]; }
    }
    var own := volumes;
    assert own == OwnVolumes(p);
    hide OwnVolumes;
    for i := 0 to |p.secretRefs|
      invariant volumes == own + SecretVolumes(p.secretRefs[..i])
    {
      assert SecretVolumes(p.secretRefs[..i + 1]) == SecretVolumes(p.secretRefs[..i]) + [SecretVolume(p.secretRefs[i])];
      volumes := volumes + [SecretVolume(p.secretRefs[i])];
    }
    assert p.secretRefs[..|p.secretRefs|] == p.secretRefs;
    volumes := volumes + p.volumes;
  }

  method GetVolumeMounts(p: Perses) returns (mounts: seq<Mount>)
    ensures mounts == AllMounts(p)
  {
    hide VolumeName, SecretPath;
    mounts := [Mount("config", "/etc/perses/config", true, ""), Mount("plugins", "/etc/perses/plugins", false, "")];
    if p.file { mounts := mounts + [Mount("storage", "/perses", false, "")]; }
    if p.TlsEnabled() {
      if p.tls.value.caCert.Some? { mounts := mounts + [Mount("ca", "/ca", true, "")]; }
      if p.tls.value.userCert.Some? { mounts := mounts + [Mount("tls", "/tls", true, "")]; }
    }
    var own := mounts;
    assert own == OwnMounts(p);
    hide OwnMounts;
    for i := 0 to |p.secretRefs|
      invariant mounts == own + SecretMounts(p.secretRefs[..i])
    {
      assert SecretMounts(p.secretRefs[..i + 1]) == SecretMounts(p.secretRefs[..i]) + [SecretMount(p.secretRefs[i])];
      mounts := mounts + [SecretMount(p.secretRefs[i])];
    }
    assert p.secretRefs[..|p.secretRefs|] == p.secretRefs;
    mounts := mounts + p.mounts;
  }

  // ---- What the API server and the controller let through ----

  predicate StartsWith(s: string, prefix: string) { |prefix| <= |s| && s[..|prefix|] == prefix }

  function VolumeNamesOf(vs: seq<Volume>): seq<string> { seq(|vs|, i requires 0 <= i < |vs| => vs[i].name) }
  function PathsOf(ms: seq<Mount>): seq<string> { seq(|ms|, i requires 0 <= i < |ms| => ms[i].path) }

  predicate FreeName(n: string) {
    n != "config" && n != "plugins" && n != "storage" && n != "ca" && n != "tls" && !StartsWith(n, "provisioning-")
  }

  predicate FreePath(m: string) {
    && !StartsWith(m, "/etc/perses/config") && !StartsWith(m, "/etc/perses/plugins") && !StartsWith(m, "/etc/perses/provisioning")
    && m != "/etc/perses" && m != "/perses" && m != "/ca" && m != "/tls"
  }

  // User volumes are keyed by name and user mounts by path.
  predicate Admitted(p: Perses) {
    && Distinct(VolumeNamesOf(p.volumes)) && (forall i :: 0 <= i < |p.volumes| ==> FreeName(p.volumes[i].name))
    && Distinct(PathsOf(p.mounts)) && (forall i :: 0 <= i < |p.mounts| ==> FreePath(p.mounts[i].path))
  }

  // The controller's own check, made on every run.
  predicate MountsDefined(p: Perses) {
    forall i :: 0 <= i < |p.mounts| ==> p.mounts[i].name in VolumeNamesOf(p.volumes)
  }

  // ---- Names ----

  predicate OwnName(n: string) { n == "config" || n == "plugins" || n == "storage" || n == "ca" || n == "tls" }

  lemma OwnNames(p: Perses)
    ensures Distinct(VolumeNamesOf(OwnVolumes(p)))
    ensures forall i :: 0 <= i < |OwnVolumes(p)| ==> OwnName(OwnVolumes(p)[i].name)
  {
  }

  lemma SecretNamesAreReserved(r: SecretRef)
    ensures StartsWith(VolumeName(r), "provisioning-") && !OwnName(VolumeName(r))
  {
    hide Normalise;
    var v := VolumeName(r);
    assert v[..13] == PREFIX;
    assert v[0] == 'p' && v[1] == 'r' && |v| >= 13;
    assert "plugins"[1] == 'l' && "config"[0] == 'c' && "storage"[0] == 's' && "ca"[0] == 'c' && "tls"[0] == 't';
  }

  function SecretNames(refs: seq<SecretRef>): seq<string> { seq(|refs|, i requires 0 <= i < |refs| => VolumeName(refs[i])) }
  function SecretPaths(refs: seq<SecretRef>): seq<string> { seq(|refs|, i requires 0 <= i < |refs| => SecretPath(refs[i])) }

  // The operator's own volumes as the pod gets them.
  function OwnPodVolumes(p: Perses, pod: Pod): seq<Volume> {
    match pod
    case OfDeployment => OwnVolumes(p)
    case OfStatefulSet(claim) => [Volume(CLAIM_TEMPLATE, ClaimSource(claim))] + Without(OwnVolumes(p), CLAIM_TEMPLATE)
  }

  lemma OwnPodNames(p: Perses, pod: Pod)
    ensures Distinct(VolumeNamesOf(OwnPodVolumes(p, pod)))
    ensures forall i :: 0 <= i < |OwnPodVolumes(p, pod)| ==> OwnName(OwnPodVolumes(p, pod)[i].name)
  {
    hide OwnVolumes, Without;
    OwnNames(p);
    if pod.OfStatefulSet? {
      var rest := Without(OwnVolumes(p), CLAIM_TEMPLATE);
      WithoutIsPart(OwnVolumes(p), CLAIM_TEMPLATE);
      DistinctCons(CLAIM_TEMPLATE, VolumeNamesOf(rest));
      assert VolumeNamesOf(OwnPodVolumes(p, pod)) == [CLAIM_TEMPLATE] + VolumeNamesOf(rest);
      forall i | 0 <= i < |OwnPodVolumes(p, pod)| ensures OwnName(OwnPodVolumes(p, pod)[i].name) {
        if i > 0 {
          assert OwnPodVolumes(p, pod)[i] == rest[i - 1] && rest[i - 1] in OwnVolumes(p);
        }
      }
    }
  }

  lemma PodParts(p: Perses, pod: Pod)
    requires Admitted(p)
    ensures PodVolumes(p, pod) == OwnPodVolumes(p, pod) + SecretVolumes(p.secretRefs) + p.volumes
  {
    hide OwnVolumes, Without, VolumeName, FreePath;
    if pod.OfStatefulSet? {
      var secrets := SecretVolumes(p.secretRefs);
      forall i | 0 <= i < |secrets| ensures secrets[i].name != CLAIM_TEMPLATE { SecretNamesAreReserved(p.secretRefs[i]); }
      WithoutNothing(secrets, CLAIM_TEMPLATE);
      WithoutNothing(p.volumes, CLAIM_TEMPLATE);
      WithoutConcat(OwnVolumes(p) + secrets, p.volumes, CLAIM_TEMPLATE);
      WithoutConcat(OwnVolumes(p), secrets, CLAIM_TEMPLATE);
    }
  }

  /** Volume names are pairwise distinct in either kind of pod exactly if the references have
      pairwise distinct words, that is, names that stay different when normalised. */
  lemma VolumeNamesDistinctIff(p: Perses, pod: Pod)
    requires Admitted(p)
    ensures Distinct(VolumeNamesOf(PodVolumes(p, pod))) <==>
      forall i, j :: 0 <= i < j < |p.secretRefs| ==> WordsOf(p.secretRefs[i]) != WordsOf(p.secretRefs[j])
  {
    hide WordsOf, VolumeName, OwnPodVolumes, FreePath, PodVolumes;
    var own, names, user := VolumeNamesOf(OwnPodVolumes(p, pod)), SecretNames(p.secretRefs), VolumeNamesOf(p.volumes);
    OwnPodNames(p, pod);
    PodParts(p, pod);
    assert VolumeNamesOf(PodVolumes(p, pod)) == own + names + user;
    forall i | 0 <= i < |names| ensures StartsWith(names[i], "provisioning-") && !OwnName(names[i]) {
      SecretNamesAreReserved(p.secretRefs[i]);
    }
    MiddleDecides(own, names, user);
    DistinctNames(p.secretRefs);
  }

  lemma DistinctNames(refs: seq<SecretRef>)
    ensures Distinct(SecretNames(refs)) <==> forall i, j :: 0 <= i < j < |refs| ==> WordsOf(refs[i]) != WordsOf(refs[j])
  {
    hide WordsOf, VolumeName;
    forall i, j | 0 <= i < j < |refs| ensures SecretNames(refs)[i] == SecretNames(refs)[j] <==> WordsOf(refs[i]) == WordsOf(refs[j]) {
      SameNameIff(refs[i], refs[j]);
    }
  }

  // ---- Paths ----

  predicate OwnPath(m: string) {
    m == "/etc/perses/config" || m == "/etc/perses/plugins" || m == "/perses" || m == "/ca" || m == "/tls"
  }

  lemma OwnPaths(p: Perses)
    ensures Distinct(PathsOf(OwnMounts(p)))
    ensures forall i :: 0 <= i < |OwnMounts(p)| ==> OwnPath(OwnMounts(p)[i].path)
  {
  }

  lemma SecretPathsAreReserved(r: SecretRef)
    requires Storable(r)
    ensures StartsWith(SecretPath(r), "/etc/perses/provisioning") && !OwnPath(SecretPath(r))
  {
    hide SecretPath;
    StorablePath(r);
    assert |SecretPath(r)| >= 33;
    assert SecretPath(r)[..24] == SECRETS_PATH[..24] == "/etc/perses/provisioning";
  }

  lemma UserPathsAreFree(m: string)
    requires FreePath(m)
    ensures !OwnPath(m)
  {
    assert StartsWith("/etc/perses/config", "/etc/perses/config") && StartsWith("/etc/perses/plugins", "/etc/perses/plugins");
  }

  /** Mount paths are pairwise distinct exactly if those of the references are, cleaned, and none of
      them falls on a path of the operator or the user. */
  lemma MountPathsClashIff(p: Perses)
    requires Admitted(p)
    ensures Distinct(PathsOf(AllMounts(p))) <==>
      && Distinct(SecretPaths(p.secretRefs))
      && Apart(PathsOf(OwnMounts(p)), SecretPaths(p.secretRefs)) && Apart(SecretPaths(p.secretRefs), PathsOf(p.mounts))
  {
    hide SecretPath, OwnMounts, OwnPath, FreeName, VolumeName;
    var own, paths, user := PathsOf(OwnMounts(p)), SecretPaths(p.secretRefs), PathsOf(p.mounts);
    OwnPaths(p);
    assert PathsOf(AllMounts(p)) == own + (paths + user);
    forall i | 0 <= i < |user| ensures !OwnPath(user[i]) {
      UserPathsAreFree(user[i]);
    }
    assert Apart(own, user);
    DistinctConcat(paths, user);
    DistinctConcat(own, paths + user);
    ApartFromBoth(own, paths, user);
  }

  lemma ApartFromBoth(own: seq<string>, paths: seq<string>, user: seq<string>)
    requires Apart(own, user)
    ensures Apart(own, paths + user) <==> Apart(own, paths)
  {
    var both := paths + user;
    if Apart(own, paths) {
      forall i, j | 0 <= i < |own| && 0 <= j < |both| ensures own[i] != both[j] {
        if j < |paths| { assert both[j] == paths[j]; } else { assert both[j] == user[j - |paths|]; }
      }
    }
    if Apart(own, both) {
      forall i, j | 0 <= i < |own| && 0 <= j < |paths| ensures own[i] != paths[j] { assert both[j] == paths[j]; }
    }
  }

  // With keys that a secret can have: exactly if no two references spell the same name-key.
  lemma MountPathsDistinctIff(p: Perses)
    requires Admitted(p) && AllStorable(p.secretRefs)
    ensures Distinct(PathsOf(AllMounts(p))) <==>
      forall i, j :: 0 <= i < j < |p.secretRefs| ==> p.secretRefs[i].String() != p.secretRefs[j].String()
  {
    hide SecretPath, OwnMounts, OwnPath, FreeName, VolumeName, AllMounts, Storable;
    var own, paths, user := PathsOf(OwnMounts(p)), SecretPaths(p.secretRefs), PathsOf(p.mounts);
    OwnPaths(p);
    MountPathsClashIff(p);
    forall i | 0 <= i < |paths| ensures StartsWith(paths[i], "/etc/perses/provisioning") && !OwnPath(paths[i]) {
      SecretPathsAreReserved(p.secretRefs[i]);
    }
    DistinctPaths(p.secretRefs);
  }

  lemma DistinctPaths(refs: seq<SecretRef>)
    requires AllStorable(refs)
    ensures Distinct(SecretPaths(refs)) <==> forall i, j :: 0 <= i < j < |refs| ==> refs[i].String() != refs[j].String()
  {
    hide SecretPath, Storable;
    forall i, j | 0 <= i < j < |refs| ensures SecretPaths(refs)[i] == SecretPaths(refs)[j] <==> refs[i].String() == refs[j].String() {
      SamePathIff(refs[i], refs[j]);
    }
  }

  lemma SamePathIff(r: SecretRef, q: SecretRef)
    requires Storable(r) && Storable(q)
    ensures SecretPath(r) == SecretPath(q) <==> r.String() == q.String()
  {
    hide SecretPath;
    StorablePath(r);
    StorablePath(q);
    var n := |SECRETS_PATH + "/"|;
    assert SecretPath(r)[n..] == r.String() && SecretPath(q)[n..] == q.String();
  }

  // Distinct volume names are the stronger condition, so they suffice for both.
  lemma DistinctNamesSuffice(p: Perses, pod: Pod)
    requires Admitted(p) && AllStorable(p.secretRefs) && Distinct(VolumeNamesOf(PodVolumes(p, pod)))
    ensures Distinct(PathsOf(AllMounts(p)))
  {
    hide Admitted, PodVolumes, AllMounts;
    VolumeNamesDistinctIff(p, pod);
    MountPathsDistinctIff(p);
  }

  // ---- Mounts and their volumes ----

  lemma NamesOfConcat(a: seq<Volume>, b: seq<Volume>)
    ensures VolumeNamesOf(a + b) == VolumeNamesOf(a) + VolumeNamesOf(b)
  {
  }

  lemma OwnMountsHaveVolumes(p: Perses, i: nat)
    requires i < |OwnMounts(p)|
    ensures i < |OwnVolumes(p)| && OwnVolumes(p)[i].name == OwnMounts(p)[i].name
  {
  }

  // Every mount names a volume of the pod, whatever the references, once the controller's check passes.
  lemma MountsHaveVolumes(p: Perses, pod: Pod)
    requires MountsDefined(p)
    ensures forall i :: 0 <= i < |AllMounts(p)| ==> Lookup(PodVolumes(p, pod), AllMounts(p)[i].name).Some?
  {
    hide AllMounts, AllVolumes, PodVolumes, Lookup;
    MountsAreListed(p);
    forall i | 0 <= i < |AllMounts(p)| ensures Lookup(PodVolumes(p, pod), AllMounts(p)[i].name).Some? {
      LookupFinds(AllVolumes(p), AllMounts(p)[i].name);
      PodLookup(p, pod, AllMounts(p)[i].name);
    }
  }

  lemma MountsAreListed(p: Perses)
    requires MountsDefined(p)
    ensures forall i :: 0 <= i < |AllMounts(p)| ==> AllMounts(p)[i].name in VolumeNamesOf(AllVolumes(p))
  {
    hide OwnVolumes, OwnMounts, VolumeName, SecretPath;
    NamesOfConcat(OwnVolumes(p) + SecretVolumes(p.secretRefs), p.volumes);
    NamesOfConcat(OwnVolumes(p), SecretVolumes(p.secretRefs));
    var own, secret := OwnVolumes(p), SecretVolumes(p.secretRefs);
    forall i | 0 <= i < |AllMounts(p)| ensures AllMounts(p)[i].name in VolumeNamesOf(AllVolumes(p)) {
      var n, k := |OwnMounts(p)|, |p.secretRefs|;
      if i < n {
        OwnMountsHaveVolumes(p, i);
        assert AllMounts(p)[i].name == VolumeNamesOf(own)[i];
      } else if i < n + k {
        assert AllMounts(p)[i] == SecretMount(p.secretRefs[i - n]);
        assert AllMounts(p)[i].name == VolumeNamesOf(secret)[i - n];
      } else {
        assert AllMounts(p)[i] == p.mounts[i - n - k];
      }
    }
  }

  lemma {:induction false} LookupFirst(vs: seq<Volume>, rest: seq<Volume>, i: nat)
    requires Distinct(VolumeNamesOf(vs)) && i < |vs|
    ensures Lookup(vs + rest, vs[i].name) == Some(vs[i].source)
    decreases |vs|
  {
    if i > 0 {
      assert VolumeNamesOf(vs)[0] != VolumeNamesOf(vs)[i];
      assert VolumeNamesOf(vs[1..]) == VolumeNamesOf(vs)[1..] && (vs + rest)[1..] == vs[1..] + rest;
      LookupFirst(vs[1..], rest, i - 1);
    }
  }

  lemma {:induction false} LookupSkips(vs: seq<Volume>, rest: seq<Volume>, name: string)
    requires forall i :: 0 <= i < |vs| ==> vs[i].name != name
    ensures Lookup(vs + rest, name) == Lookup(rest, name)
  {
    if vs == [] {
      assert vs + rest == rest;
    } else {
      assert (vs + rest)[1..] == vs[1..] + rest;
      LookupSkips(vs[1..], rest, name);
    }
  }

  /** If the references have distinct words, the file mounted for each is its own key of its own
      secret: the path ends in what the volume calls that key, and the mount picks just that. */
  lemma EachReferenceGetsItsKey(p: Perses, pod: Pod, i: nat)
    requires forall i, j :: 0 <= i < j < |p.secretRefs| ==> WordsOf(p.secretRefs[i]) != WordsOf(p.secretRefs[j])
    requires i < |p.secretRefs|
    ensures var r := p.secretRefs[i]; var m := SecretMount(r);
      && m in AllMounts(p)
      && Lookup(PodVolumes(p, pod), m.name) == Some(SecretItem(r.name, r.key, m.subPath))
      && (Storable(r) ==> m.path == SECRETS_PATH + "/" + m.subPath)
  {
    if Storable(p.secretRefs[i]) { StorablePath(p.secretRefs[i]); }
    hide SecretPath, OwnVolumes, OwnMounts, VolumeName, WordsOf, PodVolumes, Lookup;
    var r, own, secrets := p.secretRefs[i], OwnVolumes(p), SecretVolumes(p.secretRefs);
    SecretNamesAreReserved(r);
    PodLookup(p, pod, VolumeName(r));
    OwnNames(p);
    DistinctNames(p.secretRefs);
    assert VolumeNamesOf(secrets) == SecretNames(p.secretRefs);
    assert AllVolumes(p) == own + (secrets + p.volumes);
    LookupSkips(own, secrets + p.volumes, VolumeName(r));
    LookupFirst(secrets, p.volumes, i);
    assert AllMounts(p)[|OwnMounts(p)| + i] == SecretMount(r);
  }

  // ---- What the container sees at a path ----

  function MountAt(ms: seq<Mount>, path: string): Option<Mount> {
    if ms == [] then None
    else if ms[0].path == path then Some(ms[0])
    else MountAt(ms[1..], path)
  }

  function SourceAt(p: Perses, pod: Pod, path: string): Option<Source> {
    match MountAt(AllMounts(p), path)
    case None => None
    case Some(m) => Lookup(PodVolumes(p, pod), m.name)
  }

  lemma {:induction false} MountAtDistinct(ms: seq<Mount>, rest: seq<Mount>, i: nat)
    requires Distinct(PathsOf(ms)) && i < |ms|
    ensures MountAt(ms + rest, ms[i].path) == Some(ms[i])
    decreases |ms|
  {
    if i > 0 {
      assert PathsOf(ms)[0] != PathsOf(ms)[i];
      assert PathsOf(ms[1..]) == PathsOf(ms)[1..] && (ms + rest)[1..] == ms[1..] + rest;
      MountAtDistinct(ms[1..], rest, i - 1);
    }
  }

  lemma {:induction false} NoMountAt(ms: seq<Mount>, path: string)
    requires forall i :: 0 <= i < |ms| ==> ms[i].path != path
    ensures MountAt(ms, path) == None
  {
    if ms != [] { NoMountAt(ms[1..], path); }
  }

  // Nothing the user or a reference adds gets before the operator's own.
  lemma OwnSourceAt(p: Perses, pod: Pod, i: nat)
    requires i < |OwnMounts(p)|
    ensures i < |OwnVolumes(p)| && OwnVolumes(p)[i].name == OwnMounts(p)[i].name
    ensures SourceAt(p, pod, OwnMounts(p)[i].path) ==
      if pod.OfStatefulSet? && OwnMounts(p)[i].name == CLAIM_TEMPLATE then Some(ClaimSource(pod.claim)) else Some(OwnVolumes(p)[i].source)
  {
    hide OwnVolumes, OwnMounts, MountAt, Lookup, SecretVolumes, SecretMounts, PodVolumes;
    PodLookup(p, pod, OwnMounts(p)[i].name);
    OwnNames(p);
    OwnPaths(p);
    OwnMountsHaveVolumes(p, i);
    assert AllMounts(p) == OwnMounts(p) + (SecretMounts(p.secretRefs) + p.mounts);
    assert AllVolumes(p) == OwnVolumes(p) + (SecretVolumes(p.secretRefs) + p.volumes);
    MountAtDistinct(OwnMounts(p), SecretMounts(p.secretRefs) + p.mounts, i);
    LookupFirst(OwnVolumes(p), SecretVolumes(p.secretRefs) + p.volumes, i);
  }

  lemma NothingAt(p: Perses, pod: Pod, path: string)
    requires Admitted(p) && AllStorable(p.secretRefs) && OwnPath(path) && forall i :: 0 <= i < |OwnMounts(p)| ==> OwnMounts(p)[i].path != path
    ensures SourceAt(p, pod, path) == None
  {
    hide OwnMounts, SecretPath, OwnPath, VolumeName, FreePath, Storable;
    var ms := AllMounts(p);
    forall i | 0 <= i < |ms| ensures ms[i].path != path {
      var n, k := |OwnMounts(p)|, |p.secretRefs|;
      if i < n {
        assert ms[i] == OwnMounts(p)[i];
      } else if i < n + k {
        assert ms[i] == SecretMount(p.secretRefs[i - n]);
        SecretPathsAreReserved(p.secretRefs[i - n]);
      } else {
        assert ms[i] == p.mounts[i - n - k];
        UserPathsAreFree(ms[i].path);
      }
    }
    NoMountAt(ms, path);
  }

  // A certificate comes from the kind of object its type names.
  predicate Delivers(source: Option<Source>, cert: Certificate) {
    && (cert.kind == "secret" ==> source == Some(SecretSource(if cert.name.Some? then cert.name.value else "", 420)))
    && (cert.kind == "configmap" ==> source == Some(ConfigMapSource(if cert.name.Some? then cert.name.value else "", 420)))
    && (cert.kind != "secret" && cert.kind != "configmap" ==> source == Some(NoSource))
  }

  lemma CertificateDelivered(name: string, cert: Certificate)
    ensures Delivers(Some(CertVolume(name, cert).source), cert)
  {
    assert "secret" != "configmap" && "file" != "secret" && "file" != "configmap" by {
      assert |"secret"| == 6 && |"configmap"| == 9 && |"file"| == 4;
    }
  }

  // TLS is on, and this certificate of it is given.
  function CertificateOf(p: Perses, ca: bool): Option<Certificate> {
    match p.tls
    case None => None
    case Some(t) => if t.enable == Some(true) then (if ca then t.caCert else t.userCert) else None
  }

  /** Each certificate is found where the server looks for it, and nothing if there is none; data
      of a file database go to the emptyDir or the claim, in a StatefulSet to the pod's own. */
  lemma WhatIsWhere(p: Perses, pod: Pod)
    requires Admitted(p)
    ensures SourceAt(p, pod, "/etc/perses/config") == Some(ConfigMapSource(p.name + "-config", 420))
    ensures SourceAt(p, pod, "/etc/perses/plugins") == Some(EmptyDirSource(""))
    ensures p.file || AllStorable(p.secretRefs) ==> SourceAt(p, pod, "/perses") == DataSource(p, pod)
    ensures CertificateOf(p, true).Some? ==> Delivers(SourceAt(p, pod, "/ca"), CertificateOf(p, true).value)
    ensures CertificateOf(p, false).Some? ==> Delivers(SourceAt(p, pod, "/tls"), CertificateOf(p, false).value)
    ensures AllStorable(p.secretRefs) ==>
      && (CertificateOf(p, true).None? ==> SourceAt(p, pod, "/ca") == None)
      && (CertificateOf(p, false).None? ==> SourceAt(p, pod, "/tls") == None)
  {
    hide Admitted, AllStorable, SourceAt, Delivers;
    ConfigAndData(p, pod);
    Certificates(p, pod);
  }

  // What the server must not write to is mounted read-only.
  lemma WhatIsReadOnly(p: Perses, i: nat)
    requires i < |OwnMounts(p)| + |p.secretRefs|
    ensures i < |AllMounts(p)|
    ensures i < |OwnMounts(p)| ==>
      (AllMounts(p)[i].readOnly <==> AllMounts(p)[i].path != "/etc/perses/plugins" && AllMounts(p)[i].path != "/perses")
    ensures i >= |OwnMounts(p)| ==> AllMounts(p)[i].readOnly
  {
    hide SecretPath, VolumeName;
    if i >= |OwnMounts(p)| { assert AllMounts(p)[i] == SecretMount(p.secretRefs[i - |OwnMounts(p)|]); }
  }

  // What the user adds is there, as it was given.
  lemma UserPartsAreThere(p: Perses, pod: Pod, i: nat)
    requires Admitted(p)
    ensures i < |p.volumes| ==> Lookup(PodVolumes(p, pod), p.volumes[i].name) == Some(p.volumes[i].source)
    ensures i < |p.mounts| ==> p.mounts[i] in AllMounts(p)
  {
    hide OwnVolumes, OwnMounts, VolumeName, SecretPath, PodVolumes, Lookup;
    if i < |p.volumes| {
      var name := p.volumes[i].name;
      PodLookup(p, pod, name);
      OwnNames(p);
      var front := OwnVolumes(p) + SecretVolumes(p.secretRefs);
      forall j | 0 <= j < |front| ensures front[j].name != name {
        if j >= |OwnVolumes(p)| {
          assert front[j] == SecretVolume(p.secretRefs[j - |OwnVolumes(p)|]);
          SecretNamesAreReserved(p.secretRefs[j - |OwnVolumes(p)|]);
        } else {
          assert front[j] == OwnVolumes(p)[j];
        }
      }
      LookupSkips(front, p.volumes, name);
      LookupFirst(p.volumes, [], i);
      assert p.volumes + [] == p.volumes;
    }
    if i < |p.mounts| { assert AllMounts(p)[|OwnMounts(p)| + |p.secretRefs| + i] == p.mounts[i]; }
  }

  function DataSource(p: Perses, pod: Pod): Option<Source> {
    if !p.file then None
    else match pod
      case OfStatefulSet(claim) => Some(ClaimSource(claim))
      case OfDeployment => Some(if p.emptyDir.Some? then EmptyDirSource(p.emptyDir.value) else ClaimSource(p.name + "-storage"))
  }

  lemma ConfigAndData(p: Perses, pod: Pod)
    requires Admitted(p)
    ensures SourceAt(p, pod, "/etc/perses/config") == Some(ConfigMapSource(p.name + "-config", 420))
    ensures SourceAt(p, pod, "/etc/perses/plugins") == Some(EmptyDirSource(""))
    ensures p.file || AllStorable(p.secretRefs) ==> SourceAt(p, pod, "/perses") == DataSource(p, pod)
  {
    hide Admitted, AllStorable, SourceAt, CertVolume;
    assert "config" != CLAIM_TEMPLATE by { assert |"config"| == 6 && |CLAIM_TEMPLATE| == 7; }
    assert "plugins" != CLAIM_TEMPLATE by { assert "plugins"[0] != CLAIM_TEMPLATE[0]; }
    OwnSourceAt(p, pod, 0);
    OwnSourceAt(p, pod, 1);
    if p.file { OwnSourceAt(p, pod, 2); } else if AllStorable(p.secretRefs) { NothingAt(p, pod, "/perses"); }
  }

  lemma Certificates(p: Perses, pod: Pod)
    requires Admitted(p)
    ensures p.HasCa() ==> Delivers(SourceAt(p, pod, "/ca"), p.tls.value.caCert.value)
    ensures p.HasUserCert() ==> Delivers(SourceAt(p, pod, "/tls"), p.tls.value.userCert.value)
    ensures AllStorable(p.secretRefs) ==>
      (!p.HasCa() ==> SourceAt(p, pod, "/ca") == None) && (!p.HasUserCert() ==> SourceAt(p, pod, "/tls") == None)
  {
    hide Admitted, AllStorable, SourceAt, CertVolume, Delivers;
    assert |"ca"| == 2 && |"tls"| == 3 && |CLAIM_TEMPLATE| == 7;
    var ca := if p.file then 3 else 2;
    if p.HasCa() {
      OwnSourceAt(p, pod, ca);
      CertificateDelivered("ca", p.tls.value.caCert.value);
    } else if AllStorable(p.secretRefs) {
      NothingAt(p, pod, "/ca");
    }
    if p.HasUserCert() {
      OwnSourceAt(p, pod, if p.HasCa() then ca + 1 else ca);
      CertificateDelivered("tls", p.tls.value.userCert.value);
    } else if AllStorable(p.secretRefs) {
      NothingAt(p, pod, "/tls");
    }
  }

  /** A required Deployment waits for a claim exactly if both databases are configured without an
      emptyDir; the StatefulSet required beside it makes claims for its own pods only. */
  lemma DeploymentNeedsAClaimIff(p: Perses)
    requires Admitted(p) && p.RequiresDeployment()
    ensures p.file || AllStorable(p.secretRefs) ==>
      ((exists claim :: SourceAt(p, OfDeployment, "/perses") == Some(ClaimSource(claim))) <==> p.sql && p.RequiresStatefulSet())
    ensures p.RequiresStatefulSet() ==> SourceAt(p, OfDeployment, "/perses") == Some(ClaimSource(p.name + "-storage"))
  {
    hide SourceAt, Admitted, AllStorable;
    ConfigAndData(p, OfDeployment);
  }
}
