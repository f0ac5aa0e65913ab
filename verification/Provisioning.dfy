/** Provisioning secrets: the list of secret versions recorded in the status, and which Perses
    objects a changed secret wakes. */
module Provisioning {
  import opened Wrappers
  import opened Sequences

  datatype SecretVersion = SecretVersion(name: string, version: string)

  // ---- Byte-wise order of names ----

  predicate Less(a: string, b: string)
    decreases |a|
  {
    if b == [] then false
    else if a == [] then true
    else if a[0] != b[0] then a[0] < b[0]
    else Less(a[1..], b[1..])
  }

  lemma {:induction false} LessTotal(a: string, b: string)
    ensures !Less(a, a)
    ensures a == b || Less(a, b) || Less(b, a)
    ensures !(Less(a, b) && Less(b, a))
    decreases |a|
  {
    if a != [] {
      LessTotal(a[1..], if b == [] then [] else b[1..]);
      if b != [] { assert a == [a[0]] + a[1..] && b == [b[0]] + b[1..]; }
    }
  }

  lemma {:induction false} LessTransitive(a: string, b: string, c: string)
    requires Less(a, b) && Less(b, c)
    ensures Less(a, c)
    decreases |a|
  {
    if a != [] && a[0] == b[0] && b[0] == c[0] { LessTransitive(a[1..], b[1..], c[1..]); }
  }

  // The strings agree up to a place where the first one ends or has the smaller character.
  predicate ComesFirstAt(a: string, b: string, n: nat) {
    && n <= |a| && n < |b| && a[..n] == b[..n]
    && (n == |a| || a[n] < b[n])
  }

  lemma {:induction false} LessIs(a: string, b: string)
    ensures Less(a, b) <==> exists n: nat :: ComesFirstAt(a, b, n)
    decreases |a|
  {
    if a == [] || b == [] {
      if b != [] { assert ComesFirstAt(a, b, 0); }
    } else if a[0] != b[0] {
      if a[0] < b[0] { assert ComesFirstAt(a, b, 0); }
      forall n: nat | ComesFirstAt(a, b, n) ensures a[0] < b[0] {
        if n > 0 { assert a[..n][0] == b[..n][0]; }
      }
    } else {
      LessIs(a[1..], b[1..]);
      assert a == [a[0]] + a[1..] && b == [b[0]] + b[1..];
      if Less(a, b) {
        var n: nat :| ComesFirstAt(a[1..], b[1..], n);
        assert a[..n + 1] == [a[0]] + a[1..][..n] && b[..n + 1] == [b[0]] + b[1..][..n];
        assert ComesFirstAt(a, b, n + 1);
      }
      if exists n: nat :: ComesFirstAt(a, b, n) {
        var n: nat :| ComesFirstAt(a, b, n);
        assert n > 0;
        assert a[1..][..n - 1] == a[..n][1..] && b[1..][..n - 1] == b[..n][1..];
        assert ComesFirstAt(a[1..], b[1..], n - 1);
      }
    }
  }

  // ---- The recorded list ----

  predicate StrictlySorted(l: seq<SecretVersion>) {
    forall i, j :: 0 <= i < j < |l| ==> Less(l[i].name, l[j].name)
  }

  // The list has the entries of the map, all of them and nothing else.
  predicate Lists(l: seq<SecretVersion>, m: map<string, string>) {
    && (forall i :: 0 <= i < |l| ==> l[i].name in m && l[i].version == m[l[i].name])
    && (forall n :: n in m ==> SecretVersion(n, m[n]) in l)
  }

  // Sorted lists of the same map are equal, so it does not matter how the list was sorted or in
  // which order the map was iterated.
  lemma {:induction false} CanonicalList(l: seq<SecretVersion>, k: seq<SecretVersion>, m: map<string, string>)
    requires StrictlySorted(l) && StrictlySorted(k) && Lists(l, m) && Lists(k, m)
    ensures l == k
    decreases |l|
  {
    hide StrictlySorted, Lists;
    if l != [] && k != [] {
      SmallestFirst(l, k, m);
      WithoutHead(l, m);
      WithoutHead(k, m);
      CanonicalList(l[1..], k[1..], m - {l[0].name});
      assert l == [l[0]] + l[1..] && k == [k[0]] + k[1..];
    } else {
      EmptyLists(l, m);
      EmptyLists(k, m);
    }
  }

  lemma EmptyLists(l: seq<SecretVersion>, m: map<string, string>)
    requires Lists(l, m)
    ensures l == [] <==> m == map[]
  {
    if l == [] {
      assert m.Keys == {};
    } else {
      assert l[0].name in m;
    }
  }

  lemma HeadIsLeast(l: seq<SecretVersion>, i: nat)
    requires StrictlySorted(l) && i < |l|
    ensures l[i] == l[0] || Less(l[0].name, l[i].name)
  {
  }

  lemma SmallestFirst(l: seq<SecretVersion>, k: seq<SecretVersion>, m: map<string, string>)
    requires StrictlySorted(l) && StrictlySorted(k) && Lists(l, m) && Lists(k, m) && l != [] && k != []
    ensures l[0] == k[0]
  {
    assert l[0] == SecretVersion(l[0].name, m[l[0].name]) && k[0] == SecretVersion(k[0].name, m[k[0].name]);
    var i :| 0 <= i < |l| && l[i] == k[0];
    var j :| 0 <= j < |k| && k[j] == l[0];
    LessTotal(l[0].name, k[0].name);
    HeadIsLeast(l, i);
    HeadIsLeast(k, j);
  }

  lemma WithoutHead(l: seq<SecretVersion>, m: map<string, string>)
    requires l != [] && StrictlySorted(l) && Lists(l, m)
    ensures StrictlySorted(l[1..]) && Lists(l[1..], m - {l[0].name})
  {
    var rest := m - {l[0].name};
    forall i | 0 <= i < |l| - 1 ensures l[1..][i].name in rest {
      LessTotal(l[0].name, l[i + 1].name);
    }
    forall n | n in rest ensures SecretVersion(n, rest[n]) in l[1..] {
      assert SecretVersion(n, m[n]) in l && SecretVersion(n, m[n]) != l[0];
    }
  }

  function Insert(l: seq<SecretVersion>, v: SecretVersion): seq<SecretVersion> {
    if l == [] then [v]
    else if Less(v.name, l[0].name) then [v] + l
    else [l[0]] + Insert(l[1..], v)
  }

  lemma {:induction false} InsertMembers(l: seq<SecretVersion>, v: SecretVersion)
    ensures forall x :: x in Insert(l, v) <==> x == v || x in l
  {
    if l != [] && !Less(v.name, l[0].name) {
      InsertMembers(l[1..], v);
      assert l == [l[0]] + l[1..];
    }
  }

  lemma {:induction false} InsertSorted(l: seq<SecretVersion>, v: SecretVersion)
    requires StrictlySorted(l) && forall i :: 0 <= i < |l| ==> l[i].name != v.name
    ensures StrictlySorted(Insert(l, v))
  {
    if l != [] {
      LessTotal(v.name, l[0].name);
      if Less(v.name, l[0].name) {
        forall i | 0 <= i < |l| ensures Less(v.name, l[i].name) {
          if i > 0 { LessTransitive(v.name, l[0].name, l[i].name); }
        }
      } else {
        var r := Insert(l[1..], v);
        InsertSorted(l[1..], v);
        InsertMembers(l[1..], v);
        forall i | 0 <= i < |r| ensures Less(l[0].name, r[i].name) {
          assert r[i] in r;
          if r[i] != v { assert r[i] in l[1..]; }
        }
      }
    }
  }

  lemma InsertLists(l: seq<SecretVersion>, m: map<string, string>, n: string, v: string)
    requires StrictlySorted(l) && Lists(l, m) && n !in m
    ensures StrictlySorted(Insert(l, SecretVersion(n, v))) && Lists(Insert(l, SecretVersion(n, v)), m[n := v])
  {
    var r := Insert(l, SecretVersion(n, v));
    InsertSorted(l, SecretVersion(n, v));
    InsertMembers(l, SecretVersion(n, v));
    forall i | 0 <= i < |r| ensures r[i].name in m[n := v] && r[i].version == m[n := v][r[i].name] {
      assert r[i] in r;
    }
  }

  // The list of a map of versions.
  ghost function Record(m: map<string, string>): (l: seq<SecretVersion>)
    ensures StrictlySorted(l) && Lists(l, m)
    decreases |m|
  {
    if m == map[] then [] else
      assert m.Keys == {} ==> m == map[];
      var n :| n in m.Keys;
      assert |m - {n}| < |m| by { assert (m - {n}).Keys == m.Keys - {n}; }
      assert (m - {n})[n := m[n]] == m;
      InsertLists(Record(m - {n}), m - {n}, n, m[n]);
      Insert(Record(m - {n}), SecretVersion(n, m[n]))
  }

  // The versions of the referenced secrets; None as soon as one of them cannot be read.
  function Versions(refs: seq<string>, secrets: map<string, string>): Option<map<string, string>> {
    if forall n :: n in refs ==> n in secrets then Some(map n | n in refs :: secrets[n]) else None
  }

  ghost function Recorded(refs: seq<string>, secrets: map<string, string>): Option<seq<SecretVersion>> {
    match Versions(refs, secrets)
    case None => None
    case Some(m) => Some(Record(m))
  }

  // The recorded list depends on which secrets are referenced, not on order or repetition.
  lemma OrderAndRepeatsDoNotMatter(refs: seq<string>, other: seq<string>, secrets: map<string, string>)
    requires forall n :: n in refs <==> n in other
    ensures Recorded(refs, secrets) == Recorded(other, secrets)
  {
    if Versions(refs, secrets).Some? {
      assert Versions(refs, secrets).value == Versions(other, secrets).value;
    }
  }

  // Secrets that cannot be read just now matter only by failing.
  lemma ReadableIsRecorded(refs: seq<string>, secrets: map<string, string>, unreadable: set<string>)
    ensures Recorded(refs, secrets - unreadable).Some? ==> Recorded(refs, secrets) == Recorded(refs, secrets - unreadable)
  {
    if Versions(refs, secrets - unreadable).Some? {
      assert Versions(refs, secrets).value == Versions(refs, secrets - unreadable).value;
    }
  }

  // One entry per distinct referenced secret.
  lemma OneEntryEach(refs: seq<string>, secrets: map<string, string>)
    requires Recorded(refs, secrets).Some?
    ensures var l := Recorded(refs, secrets).value;
      && (forall n :: n in refs <==> exists i :: 0 <= i < |l| && l[i].name == n)
      && (forall i, j :: 0 <= i < j < |l| ==> l[i].name != l[j].name)
      && (forall i :: 0 <= i < |l| ==> l[i].name in secrets && l[i].version == secrets[l[i].name])
  {
    var l, m := Recorded(refs, secrets).value, Versions(refs, secrets).value;
    forall n | n in refs ensures exists i :: 0 <= i < |l| && l[i].name == n {
      assert n in m && SecretVersion(n, m[n]) in l;
    }
    forall i, j | 0 <= i < j < |l| ensures l[i].name != l[j].name {
      LessTotal(l[i].name, l[j].name);
    }
  }

  lemma NothingRecorded(secrets: map<string, string>)
    ensures Recorded([], secrets) == Some([])
  {
    assert Versions([], secrets).value == map[];
    EmptyLists(Record(map[]), map[]);
  }

  // ---- As it runs ----

  // Each distinct name is read once; the first one that cannot be read ends the run.
  method ReadVersions(refs: seq<string>, secrets: map<string, string>) returns (m: Option<map<string, string>>, asked: seq<string>)
    ensures m == Versions(refs, secrets)
    ensures forall i, j :: 0 <= i < j < |asked| ==> asked[i] != asked[j]
    ensures m.Some? ==> forall n :: n in asked <==> n in refs
  {
    var seen: map<string, string> := map[];
    asked := [];
    for i := 0 to |refs|
      invariant seen.Keys == (set n | n in refs[..i]) && forall n :: n in seen ==> n in secrets && seen[n] == secrets[n]
      invariant forall n :: n in asked <==> n in seen
      invariant forall i, j :: 0 <= i < j < |asked| ==> asked[i] != asked[j]
    {
      assert refs[..i + 1] == refs[..i] + [refs[i]];
      if refs[i] in seen { continue; }
      asked := asked + [refs[i]];
      if refs[i] !in secrets {
        return None, asked;
      }
      seen := seen[refs[i] := secrets[refs[i]]];
    }
    assert refs[..|refs|] == refs;
    assert seen == Versions(refs, secrets).value;
    m := Some(seen);
  }

  // The map is iterated in any order, then the entries are sorted by name.
  method ListVersions(m: map<string, string>) returns (l: seq<SecretVersion>)
    ensures StrictlySorted(l) && Lists(l, m)
    ensures l == Record(m)
  {
    var left := m.Keys;
    ghost var done: map<string, string> := map[];
    l := [];
    while left != {}
      invariant left <= m.Keys && done == map n | n in m && n !in left :: m[n]
      invariant StrictlySorted(l) && Lists(l, done)
      decreases left
    {
      var n :| n in left;
      InsertLists(l, done, n, m[n]);
      left := left - {n};
      l := Insert(l, SecretVersion(n, m[n]));
      done := done[n := m[n]];
    }
    assert done == m;
    CanonicalList(l, Record(m), m);
  }

  // ---- Which Perses objects a secret wakes ----

  datatype PersesRefs = PersesRefs(name: string, refs: seq<string>)

  function Woken(items: seq<PersesRefs>, secret: string): seq<string> {
    if items == [] then []
    else (if secret in items[0].refs then [items[0].name] else []) + Woken(items[1..], secret)
  }

  // The two nested loops, the inner one left at the first match.
  method FindPersesForSecret(items: seq<PersesRefs>, secret: string) returns (requests: seq<string>)
    ensures requests == Woken(items, secret)
  {
    requests := [];
    for i := 0 to |items|
      invariant requests + Woken(items[i..], secret) == Woken(items, secret)
    {
      assert items[i..][0] == items[i] && items[i..][1..] == items[i + 1..];
      var j := 0;
      while j < |items[i].refs| && items[i].refs[j] != secret
        invariant 0 <= j <= |items[i].refs| && secret !in items[i].refs[..j]
      {
        j := j + 1;
      }
      if j < |items[i].refs| {
        requests := requests + [items[i].name];
      } else {
        assert items[i].refs[..j] == items[i].refs;
      }
    }
  }

  lemma {:induction false} WokenAre(items: seq<PersesRefs>, secret: string)
    ensures forall i :: 0 <= i < |items| && secret in items[i].refs ==> items[i].name in Woken(items, secret)
    ensures forall n :: n in Woken(items, secret) ==> exists i :: 0 <= i < |items| && items[i].name == n && secret in items[i].refs
  {
    if items != [] {
      WokenAre(items[1..], secret);
      forall n | n in Woken(items, secret)
        ensures exists i :: 0 <= i < |items| && items[i].name == n && secret in items[i].refs
      {
        if n in Woken(items[1..], secret) {
          var i :| 0 <= i < |items| - 1 && items[1..][i].name == n && secret in items[1..][i].refs;
          assert items[i + 1].name == n;
        } else {
          assert items[0].name == n && secret in items[0].refs;
        }
      }
    }
  }

  lemma {:induction false} WokenOnce(items: seq<PersesRefs>, secret: string)
    requires forall i, j :: 0 <= i < j < |items| ==> items[i].name != items[j].name
    ensures Distinct(Woken(items, secret))
  {
    if items != [] {
      WokenOnce(items[1..], secret);
      WokenAre(items[1..], secret);
      var w := Woken(items[1..], secret);
      forall j | 0 <= j < |w| ensures w[j] != items[0].name {
        assert w[j] in w;
        var i :| 0 <= i < |items| - 1 && items[1..][i].name == w[j];
        assert items[i + 1].name == w[j];
      }
      var all := Woken(items, secret);
      if secret in items[0].refs {
        assert all == [items[0].name] + w;
        DistinctCons(items[0].name, w);
      } else {
        assert all == w;
      }
    }
  }

  /** A secret that changes wakes exactly the objects whose recorded list it can change: where
      it is not referenced nothing changes, and where it is and every reference can be read, a new
      version always shows. */
  lemma WakesWhoItConcerns(items: seq<PersesRefs>, secret: string, secrets: map<string, string>, version: string, i: nat)
    requires forall i, j :: 0 <= i < j < |items| ==> items[i].name != items[j].name
    requires i < |items|
    ensures items[i].name !in Woken(items, secret) ==>
      Recorded(items[i].refs, secrets[secret := version]) == Recorded(items[i].refs, secrets)
    ensures items[i].name in Woken(items, secret) && secret in secrets && secrets[secret] != version
              && Recorded(items[i].refs, secrets).Some? ==>
      Recorded(items[i].refs, secrets[secret := version]) != Recorded(items[i].refs, secrets)
  {
    WokenAre(items, secret);
    if secret in items[i].refs {
      if secret in secrets && secrets[secret] != version && Recorded(items[i].refs, secrets).Some? {
        NewVersionShows(items[i].refs, secret, secrets, version);
      }
    } else {
      OtherSecretsAreIgnored(items[i].refs, secret, secrets, version);
    }
  }

  lemma OtherSecretsAreIgnored(refs: seq<string>, secret: string, secrets: map<string, string>, version: string)
    requires secret !in refs
    ensures Recorded(refs, secrets[secret := version]) == Recorded(refs, secrets)
  {
    if Versions(refs, secrets).Some? {
      assert Versions(refs, secrets[secret := version]).value == Versions(refs, secrets).value;
    }
  }

  lemma NewVersionShows(refs: seq<string>, secret: string, secrets: map<string, string>, version: string)
    requires secret in refs && secret in secrets && secrets[secret] != version && Recorded(refs, secrets).Some?
    ensures Recorded(refs, secrets[secret := version]) != Recorded(refs, secrets)
  {
    var m, n := Versions(refs, secrets).value, Versions(refs, secrets[secret := version]).value;
    assert secret in n && n[secret] == version;
    assert SecretVersion(secret, n[secret]) in Record(n);
    assert SecretVersion(secret, version) !in Record(m);
  }
}
