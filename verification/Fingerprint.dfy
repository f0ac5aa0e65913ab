/** The configuration fingerprint of a Perses instance, as the string that is built, and
    what can be read back from it. */
module Fingerprint {
  import opened Wrappers
  import CacheProtocol
  import ClientCache

  datatype OAuth = OAuth(kind: string, name: Option<string>, ns: Option<string>, tokenUrl: string, clientIdPath: Option<string>)

  datatype Config = Config(
    ns: string, name: string, generation: int, port: Option<int>,
    apiPrefix: string, tls: bool, kubernetesAuth: bool, clientTls: bool,
    oauth: Option<OAuth>, serverUrl: Option<string>)

  // ---- Decimal rendering ----

  function Digit(d: nat): char
    requires d < 10
  {
    ['0', '1', '2', '3', '4', '5', '6', '7', '8', '9'][d]
  }

  predicate IsDigit(c: char) { '0' <= c <= '9' }

  function DigitValue(c: char): nat
    requires IsDigit(c)
  {
    (c as int) - ('0' as int)
  }

  function Digits(n: nat): string {
    if n < 10 then [Digit(n)] else Digits(n / 10) + [Digit(n % 10)]
  }

  function Decimal(n: int): string {
    if n < 0 then "-" + Digits(-n) else Digits(n)
  }

  function Value(s: string): nat
    requires forall i :: 0 <= i < |s| ==> IsDigit(s[i])
  {
    if s == [] then 0 else Value(s[..|s| - 1]) * 10 + DigitValue(s[|s| - 1])
  }

  lemma {:induction false} DigitsReadBack(n: nat)
    ensures Digits(n) != [] && (forall i :: 0 <= i < |Digits(n)| ==> IsDigit(Digits(n)[i]))
    ensures Value(Digits(n)) == n
  {
    if n >= 10 {
      DigitsReadBack(n / 10);
      assert Digits(n)[..|Digits(n)| - 1] == Digits(n / 10);
    } else {
      assert Digits(n)[..0] == [];
    }
  }

  lemma DecimalInjective(m: int, n: int)
    requires Decimal(m) == Decimal(n)
    ensures m == n
  {
    DigitsReadBack(if m < 0 then -m else m);
    DigitsReadBack(if n < 0 then -n else n);
    assert IsDigit(Decimal(m)[0]) <==> m >= 0;
    assert IsDigit(Decimal(n)[0]) <==> n >= 0;
    if m < 0 {
      assert Decimal(m)[1..] == Digits(-m) && Decimal(n)[1..] == Digits(-n);
    }
  }

  // ---- Comma-terminated fields ----

  predicate CommaFree(s: string) { ',' !in s }

  // One field: a label, a value and the comma that ends it.
  function Field(tag: string, value: string): string { tag + value + "," }

  lemma DecimalCommaFree(n: int)
    ensures CommaFree(Decimal(n))
  {
    DigitsReadBack(if n < 0 then -n else n);
  }

  // Reading stops at the first comma: equal strings have equal first values and equal rests.
  lemma FirstField(tag: string, a: string, b: string, x: string, y: string)
    requires CommaFree(a) && CommaFree(b)
    requires Field(tag, a) + x == Field(tag, b) + y
    ensures a == b && x == y
  {
    var s, t := Field(tag, a) + x, Field(tag, b) + y;
    var n := |tag|;
    assert s[n + |a|] == ',' && t[n + |b|] == ',';
    assert forall i :: 0 <= i < |a| ==> s[n + i] == a[i] != ',';
    assert forall i :: 0 <= i < |b| ==> t[n + i] == b[i] != ',';
    assert |a| == |b|;
    assert s[n..n + |a|] == a && t[n..n + |b|] == b;
    assert s[n + |a| + 1..] == x && t[n + |b| + 1..] == y;
  }

  // ---- The fingerprint ----

  function Flag(b: bool): string { if b then "true" else "false" }

  function PortPart(port: Option<int>): string {
    if port.Some? then Field("port=", Decimal(port.value)) else ""
  }

  function OAuthPart(o: Option<OAuth>): string {
    if o.None? then "" else
    Field("oauth=type:", o.value.kind) + (Field("name:", o.value.name.GetOr("")) + (Field("ns:", o.value.ns.GetOr(""))
      + (Field("tokenURL:", o.value.tokenUrl) + Field("idPath:", o.value.clientIdPath.GetOr("")))))
  }

  function UrlPart(u: Option<string>): string {
    if u.Some? then Field("serverURL=", u.value) else ""
  }

  function Tail(c: Config): string {
    Field("apiPrefix=", c.apiPrefix) + (Field("tls=", Flag(c.tls)) + (Field("k8sAuth=", Flag(c.kubernetesAuth))
      + (Field("clientTLS=", Flag(c.clientTls)) + (OAuthPart(c.oauth) + UrlPart(c.serverUrl)))))
  }

  function Of(c: Config): string {
    Field("ns=", c.ns) + (Field("name=", c.name) + (Field("gen=", Decimal(c.generation)) + (PortPart(c.port) + Tail(c))))
  }

  // ---- The same string as a list of parts ----

  function Concat(parts: seq<string>): string { if parts == [] then "" else parts[0] + Concat(parts[1..]) }

  function TrueOrFalse(b: bool): string { if b then "true" else "false" }
  function OrNothing(o: Option<string>): string { if o.Some? then o.value else "" }

  function OAuthParts(o: OAuth): seq<string> {
    ["oauth=type:" + o.kind + ",", "name:" + OrNothing(o.name) + ",", "ns:" + OrNothing(o.ns) + ",", "tokenURL:" + o.tokenUrl + ",",
     "idPath:" + OrNothing(o.clientIdPath) + ","]
  }

  function FlagParts(c: Config): seq<string> {
    ["apiPrefix=" + c.apiPrefix + ",", "tls=" + TrueOrFalse(c.tls) + ",", "k8sAuth=" + TrueOrFalse(c.kubernetesAuth) + ",",
     "clientTLS=" + TrueOrFalse(c.clientTls) + ","]
  }

  function Parts(c: Config): seq<string> {
    ["ns=" + c.ns + ",", "name=" + c.name + ",", "gen=" + Decimal(c.generation) + ","]
    + ((if c.port.Some? then ["port=" + Decimal(c.port.value) + ","] else [])
       + (FlagParts(c)
          + ((if c.oauth.Some? then OAuthParts(c.oauth.value) else [])
             + (if c.serverUrl.Some? then ["serverURL=" + c.serverUrl.value + ","] else []))))
  }

  lemma {:induction false} ConcatAppend(a: seq<string>, b: seq<string>)
    ensures Concat(a + b) == Concat(a) + Concat(b)
  {
    if a == [] {
      assert a + b == b;
    } else {
      assert (a + b)[1..] == a[1..] + b;
      ConcatAppend(a[1..], b);
      Regroup(a[0], Concat(a[1..]), Concat(b));
    }
  }

  lemma ConcatCons(x: string, rest: seq<string>)
    ensures Concat([x] + rest) == x + Concat(rest)
  {
    assert ([x] + rest)[1..] == rest;
  }

  lemma ConcatOne(x: string)
    ensures Concat([]) == "" && Concat([x]) == x
  {
  }

  lemma ThreeParts(x: string, y: string, z: string)
    ensures Concat([x, y, z]) == x + (y + z)
  {
    hide Concat;
    assert [x, y, z] == [x] + ([y] + [z]);
    ConcatCons(x, [y] + [z]);
    ConcatCons(y, [z]);
    ConcatOne(z);
  }

  lemma FourParts(w: string, x: string, y: string, z: string)
    ensures Concat([w, x, y, z]) == w + (x + (y + z))
  {
    hide Concat;
    assert [w, x, y, z] == [w] + [x, y, z];
    ConcatCons(w, [x, y, z]);
    ThreeParts(x, y, z);
  }

  lemma OAuthSpelled(o: OAuth)
    ensures OAuthPart(Some(o)) == Concat(OAuthParts(o))
  {
    hide Concat;
    var p := OAuthParts(o);
    assert p == [p[0]] + [p[1], p[2], p[3], p[4]];
    ConcatCons(p[0], [p[1], p[2], p[3], p[4]]);
    FourParts(p[1], p[2], p[3], p[4]);
  }

  lemma TailSpelled(c: Config, end: seq<string>)
    requires end == (if c.oauth.Some? then OAuthParts(c.oauth.value) else []) + (if c.serverUrl.Some? then ["serverURL=" + c.serverUrl.value + ","] else [])
    ensures Tail(c) == Concat(FlagParts(c) + end)
  {
    hide Concat, OAuthPart, OAuthParts;
    var o, u := if c.oauth.Some? then OAuthParts(c.oauth.value) else [], if c.serverUrl.Some? then ["serverURL=" + c.serverUrl.value + ","] else [];
    ConcatOne("serverURL=" + c.serverUrl.GetOr("") + ",");
    ConcatAppend(o, u);
    NoOAuth();
    if c.oauth.Some? { OAuthSpelled(c.oauth.value); }
    assert Concat(end) == OAuthPart(c.oauth) + UrlPart(c.serverUrl);
    var f := FlagParts(c);
    ConcatAppend(f, end);
    FourParts(f[0], f[1], f[2], f[3]);
    Regroup(f[2], f[3], Concat(end));
    Regroup(f[1], f[2] + f[3], Concat(end));
    Regroup(f[0], f[1] + (f[2] + f[3]), Concat(end));
  }

  lemma NoOAuth()
    ensures OAuthPart(None) == ""
  {
  }

  // The fingerprint is all its parts one after the other, the optional ones where they are present.
  lemma SpelledOut(c: Config)
    ensures Of(c) == Concat(Parts(c))
  {
    hide Concat, Tail, OAuthParts, FlagParts, Decimal;
    var end := (if c.oauth.Some? then OAuthParts(c.oauth.value) else []) + (if c.serverUrl.Some? then ["serverURL=" + c.serverUrl.value + ","] else []);
    var port := if c.port.Some? then ["port=" + Decimal(c.port.value) + ","] else [];
    var first := ["ns=" + c.ns + ",", "name=" + c.name + ",", "gen=" + Decimal(c.generation) + ","];
    TailSpelled(c, end);
    ConcatOne("port=" + Decimal(c.port.GetOr(0)) + ",");
    ConcatAppend(port, FlagParts(c) + end);
    ConcatAppend(first, port + (FlagParts(c) + end));
    ThreeParts(first[0], first[1], first[2]);
    Regroup(first[1], first[2], PortPart(c.port) + Tail(c));
    Regroup(first[0], first[1] + first[2], PortPart(c.port) + Tail(c));
  }

  // Names of Kubernetes objects contain no comma; then the leading fields can be read back.
  lemma Decodes(c: Config, d: Config)
    requires CommaFree(c.ns) && CommaFree(d.ns) && CommaFree(c.name) && CommaFree(d.name)
    requires Of(c) == Of(d)
    ensures c.ns == d.ns && c.name == d.name && c.generation == d.generation && c.port == d.port
    ensures Tail(c) == Tail(d)
  {
    var pc, pd := PortPart(c.port) + Tail(c), PortPart(d.port) + Tail(d);
    var gc, gd := Field("gen=", Decimal(c.generation)) + pc, Field("gen=", Decimal(d.generation)) + pd;
    var nc, nd := Field("name=", c.name) + gc, Field("name=", d.name) + gd;
    FirstField("ns=", c.ns, d.ns, nc, nd);
    FirstField("name=", c.name, d.name, gc, gd);
    DecimalCommaFree(c.generation);
    DecimalCommaFree(d.generation);
    FirstField("gen=", Decimal(c.generation), Decimal(d.generation), pc, pd);
    DecimalInjective(c.generation, d.generation);
    PortDecodes(c.port, d.port, Tail(c), Tail(d));
  }

  lemma PortDecodes(p: Option<int>, q: Option<int>, x: string, y: string)
    requires x != "" && y != "" && x[0] == 'a' && y[0] == 'a'
    requires PortPart(p) + x == PortPart(q) + y
    ensures p == q && x == y
  {
    var s, t := PortPart(p) + x, PortPart(q) + y;
    assert s[0] == (if p.Some? then 'p' else 'a') && t[0] == (if q.Some? then 'p' else 'a');
    if p.Some? {
      DecimalCommaFree(p.value);
      DecimalCommaFree(q.value);
      FirstField("port=", Decimal(p.value), Decimal(q.value), x, y);
      DecimalInjective(p.value, q.value);
    } else {
      assert s == x && t == y;
    }
  }

  // ---- The other fields, when they contain no comma either ----

  predicate OAuthCommaFree(o: OAuth) {
    CommaFree(o.kind) && CommaFree(o.name.GetOr("")) && CommaFree(o.ns.GetOr("")) && CommaFree(o.tokenUrl)
    && CommaFree(o.clientIdPath.GetOr(""))
  }

  predicate Plain(c: Config) {
    && CommaFree(c.ns) && CommaFree(c.name) && CommaFree(c.apiPrefix)
    && (c.oauth.Some? ==> OAuthCommaFree(c.oauth.value))
    && (c.serverUrl.Some? ==> CommaFree(c.serverUrl.value))
  }

  // An absent name and an empty one render alike.
  function Shown(o: OAuth): OAuth {
    OAuth(o.kind, Some(o.name.GetOr("")), Some(o.ns.GetOr("")), o.tokenUrl, Some(o.clientIdPath.GetOr("")))
  }

  lemma Regroup(a: string, b: string, x: string)
    ensures (a + b) + x == a + (b + x)
  {
  }

  lemma OAuthShape(o: OAuth, x: string)
    ensures OAuthPart(Some(o)) + x ==
      Field("oauth=type:", o.kind) + (Field("name:", o.name.GetOr("")) + (Field("ns:", o.ns.GetOr(""))
        + (Field("tokenURL:", o.tokenUrl) + (Field("idPath:", o.clientIdPath.GetOr("")) + x))))
  {
    hide Field;
    var f5 := Field("idPath:", o.clientIdPath.GetOr(""));
    var f4 := Field("tokenURL:", o.tokenUrl);
    var f3 := Field("ns:", o.ns.GetOr(""));
    var f2 := Field("name:", o.name.GetOr(""));
    Regroup(Field("oauth=type:", o.kind), f2 + (f3 + (f4 + f5)), x);
    Regroup(f2, f3 + (f4 + f5), x);
    Regroup(f3, f4 + f5, x);
    Regroup(f4, f5, x);
  }

  lemma OAuthDecodes(o: OAuth, p: OAuth, x: string, y: string)
    requires OAuthCommaFree(o) && OAuthCommaFree(p)
    requires OAuthPart(Some(o)) + x == OAuthPart(Some(p)) + y
    ensures Shown(o) == Shown(p) && x == y
  {
    hide Field, OAuthPart, CommaFree;
    var o5, p5 := Field("idPath:", o.clientIdPath.GetOr("")) + x, Field("idPath:", p.clientIdPath.GetOr("")) + y;
    var o4, p4 := Field("tokenURL:", o.tokenUrl) + o5, Field("tokenURL:", p.tokenUrl) + p5;
    var o3, p3 := Field("ns:", o.ns.GetOr("")) + o4, Field("ns:", p.ns.GetOr("")) + p4;
    var o2, p2 := Field("name:", o.name.GetOr("")) + o3, Field("name:", p.name.GetOr("")) + p3;
    OAuthShape(o, x);
    OAuthShape(p, y);
    FirstField("oauth=type:", o.kind, p.kind, o2, p2);
    FirstField("name:", o.name.GetOr(""), p.name.GetOr(""), o3, p3);
    FirstField("ns:", o.ns.GetOr(""), p.ns.GetOr(""), o4, p4);
    FirstField("tokenURL:", o.tokenUrl, p.tokenUrl, o5, p5);
    FirstField("idPath:", o.clientIdPath.GetOr(""), p.clientIdPath.GetOr(""), x, y);
  }

  lemma EndDecodes(o: Option<OAuth>, u: Option<string>, p: Option<OAuth>, v: Option<string>)
    requires (o.Some? ==> OAuthCommaFree(o.value)) && (p.Some? ==> OAuthCommaFree(p.value))
    requires (u.Some? ==> CommaFree(u.value)) && (v.Some? ==> CommaFree(v.value))
    requires OAuthPart(o) + UrlPart(u) == OAuthPart(p) + UrlPart(v)
    ensures u == v && o.Some? == p.Some? && (o.Some? ==> Shown(o.value) == Shown(p.value))
  {
    var s, t := OAuthPart(o) + UrlPart(u), OAuthPart(p) + UrlPart(v);
    if o.Some? { assert s[0] == 'o'; }
    if p.Some? { assert t[0] == 'o'; }
    assert o.None? && u.Some? ==> s[0] == 's';
    assert p.None? && v.Some? ==> t[0] == 's';
    assert o.None? && u.None? ==> s == "";
    assert p.None? && v.None? ==> t == "";
    if o.Some? {
      OAuthDecodes(o.value, p.value, UrlPart(u), UrlPart(v));
    } else {
      assert s == UrlPart(u) && t == UrlPart(v);
    }
    if u.Some? {
      FirstField("serverURL=", u.value, v.value, "", "");
    }
  }

  lemma TailDecodes(c: Config, d: Config)
    requires Plain(c) && Plain(d) && Tail(c) == Tail(d)
    ensures c.apiPrefix == d.apiPrefix && c.tls == d.tls && c.kubernetesAuth == d.kubernetesAuth && c.clientTls == d.clientTls
    ensures c.serverUrl == d.serverUrl && c.oauth.Some? == d.oauth.Some?
    ensures c.oauth.Some? ==> Shown(c.oauth.value) == Shown(d.oauth.value)
  {
    var c4, d4 := OAuthPart(c.oauth) + UrlPart(c.serverUrl), OAuthPart(d.oauth) + UrlPart(d.serverUrl);
    var c3, d3 := Field("clientTLS=", Flag(c.clientTls)) + c4, Field("clientTLS=", Flag(d.clientTls)) + d4;
    var c2, d2 := Field("k8sAuth=", Flag(c.kubernetesAuth)) + c3, Field("k8sAuth=", Flag(d.kubernetesAuth)) + d3;
    var c1, d1 := Field("tls=", Flag(c.tls)) + c2, Field("tls=", Flag(d.tls)) + d2;
    FlagsDiffer();
    FirstField("apiPrefix=", c.apiPrefix, d.apiPrefix, c1, d1);
    FirstField("tls=", Flag(c.tls), Flag(d.tls), c2, d2);
    FirstField("k8sAuth=", Flag(c.kubernetesAuth), Flag(d.kubernetesAuth), c3, d3);
    FirstField("clientTLS=", Flag(c.clientTls), Flag(d.clientTls), c4, d4);
    EndDecodes(c.oauth, c.serverUrl, d.oauth, d.serverUrl);
  }

  lemma FlagsDiffer()
    ensures Flag(true) != Flag(false) && CommaFree(Flag(true)) && CommaFree(Flag(false))
  {
    assert Flag(true)[0] != Flag(false)[0];
  }

  lemma NameParts()
    ensures Field("ns=", "a") + Field("name=", "b,name=c") == Field("ns=", "a,name=b") + Field("name=", "c")
  {
    assert Field("ns=", "a") + Field("name=", "b,name=c") == "ns=a,name=b,name=c,";
    assert Field("ns=", "a,name=b") + Field("name=", "c") == "ns=a,name=b,name=c,";
  }

  lemma OfShape(c: Config, ns: string, name: string)
    ensures Of(c.(ns := ns, name := name)) ==
      (Field("ns=", ns) + Field("name=", name)) + (Field("gen=", Decimal(c.generation)) + (PortPart(c.port) + Tail(c)))
  {
    hide Field, Decimal, PortPart;
    Regroup(Field("ns=", ns), Field("name=", name), Field("gen=", Decimal(c.generation)) + (PortPart(c.port) + Tail(c)));
  }

  // With a comma in a name the fingerprint is ambiguous.
  lemma CommaCollision(c: Config)
    ensures Of(c.(ns := "a", name := "b,name=c")) == Of(c.(ns := "a,name=b", name := "c"))
  {
    hide Of, Field, Decimal, PortPart, Tail;
    NameParts();
    OfShape(c, "a", "b,name=c");
    OfShape(c, "a,name=b", "c");
  }

  // ---- Together with the cache ----

  function Want(c: Config): CacheProtocol.Origin {
    CacheProtocol.Origin(c.ns + "/" + c.name, Of(c))
  }

  /** A client handed out for configuration `c` that was built for configuration `d`: `d` is the
      same instance at the same generation, so a cache hit never serves an older generation. */
  lemma NeverAnOlderGeneration(s: CacheProtocol.State, i: nat, c: Config, d: Config)
    requires CacheProtocol.Inv(s) && i < |s.answers| && s.answers[i].want == Want(c)
    requires s.answers[i].client < |s.origins| && s.origins[s.answers[i].client] == Want(d)
    requires CommaFree(c.ns) && CommaFree(d.ns) && CommaFree(c.name) && CommaFree(d.name)
    ensures c.ns == d.ns && c.name == d.name && c.generation == d.generation && c.port == d.port
  {
    Decodes(c, d);
  }
}
