/** Any number of goroutines calling CreateClient and ForgetInstance, interleaved between
    the sections that hold the lock, with a clock that never runs backwards. */
module CacheProtocol {
  import opened Wrappers
  import opened ClientCache

  type Thread = nat

  // What a client was built for.
  datatype Origin = Origin(key: string, fingerprint: string)

  datatype Phase =
    | Called(want: Origin)
    | Missed(want: Origin)
    | Built(want: Origin, client: ClientId)

  // A finished call. `age` is the age of the entry when a cached client was returned.
  datatype Return = Return(want: Origin, client: ClientId, cached: bool, age: int)

  datatype State = State(
    ttl: int,
    now: Time,
    store: Store,
    origins: seq<Origin>,           // origins[c] is what client c was built for
    threads: map<Thread, Phase>,
    answers: seq<Return>,
    sweeps: seq<Time>)              // when sweeps were executed

  function Initial(ttl: int, start: Time): State {
    State(ttl, start, Store(map[], 0, {}), [], map[], [], [])
  }

  datatype Event =
    | Tick(t: Time)
    | Call(thread: Thread, want: Origin)
    | Lookup(thread: Thread)
    | Build(thread: Thread, ok: bool)
    | StoreNew(thread: Thread, t2: Time, t3: Time)
    | ForgetKey(key: string)

  predicate Enabled(s: State, e: Event) {
    match e
    case Tick(t) => s.now <= t
    case Call(g, _) => g !in s.threads
    case Lookup(g) => g in s.threads && s.threads[g].Called?
    case Build(g, _) => g in s.threads && s.threads[g].Missed?
    case StoreNew(g, t2, t3) => g in s.threads && s.threads[g].Built? && s.now <= t2 <= t3
    case ForgetKey(_) => true
  }

  function Age(s: State, key: string): int {
    if key in s.store.cache then s.now - s.store.cache[key].createdAt else 0
  }

  function Hit(s: State, w: Origin): Option<ClientId> {
    CacheHit(s.store.cache, s.ttl, w.key, w.fingerprint, s.now)
  }

  function AfterLookup(s: State, g: Thread, w: Origin): State {
    match Hit(s, w)
    case Some(c) => s.(threads := s.threads - {g}, answers := s.answers + [Return(w, c, true, Age(s, w.key))])
    case None => s.(threads := s.threads[g := Missed(w)])
  }

  function AfterStore(s: State, g: Thread, w: Origin, c: ClientId, t2: Time, t3: Time): State {
    var (store, back) := StoreSection(s.store, s.ttl, w.key, w.fingerprint, c, s.now, t2, t3);
    var hit := Hit(s, w).Some?;
    s.(now := t3, store := store, threads := s.threads - {g},
       answers := s.answers + [Return(w, back, hit, if hit then Age(s, w.key) else 0)],
       sweeps := if !hit && SweepIsDue(s.store, s.ttl, t3) then s.sweeps + [t3] else s.sweeps)
  }

  function Apply(s: State, e: Event): State
    requires Enabled(s, e)
  {
    match e
    case Tick(t) => s.(now := t)
    case Call(g, w) => s.(threads := s.threads[g := Called(w)])
    case Lookup(g) => AfterLookup(s, g, s.threads[g].want)
    case Build(g, ok) =>
      if !ok then s.(threads := s.threads - {g})
      else s.(origins := s.origins + [s.threads[g].want],
              threads := s.threads[g := Built(s.threads[g].want, |s.origins|)])
    case StoreNew(g, t2, t3) => AfterStore(s, g, s.threads[g].want, s.threads[g].client, t2, t3)
    case ForgetKey(key) => s.(store := Forget(s.store, key))
  }

  // ---- What every run keeps ----

  // Cached clients are open, were built for the entry's key and fingerprint, and no two entries share one.
  predicate EntriesSound(s: State) {
    && (forall k :: k in s.store.cache ==>
          var e := s.store.cache[k];
          e.client < |s.origins| && s.origins[e.client] == Origin(k, e.fingerprint) && e.client !in s.store.closed)
  }

  // A client just built is known to its goroutine alone.
  predicate HeldPrivately(s: State) {
    && (forall g :: g in s.threads && s.threads[g].Built? ==>
          && s.threads[g].client < |s.origins|
          && s.origins[s.threads[g].client] == s.threads[g].want
          && s.threads[g].client !in s.store.closed
          && forall k :: k in s.store.cache ==> s.store.cache[k].client != s.threads[g].client)
    && (forall g, h :: g in s.threads && h in s.threads && g != h && s.threads[g].Built? && s.threads[h].Built? ==>
          s.threads[g].client != s.threads[h].client)
  }

  // Sweeping is late by less than one ttl.
  predicate SweptRecently(s: State) {
    && s.store.lastSweep <= s.now
    && (forall k :: k in s.store.cache ==>
          s.store.lastSweep - s.ttl < s.store.cache[k].createdAt <= s.now)
  }

  predicate SweepsApart(s: State) {
    && (s.sweeps != [] ==> s.sweeps[|s.sweeps| - 1] == s.store.lastSweep)
    && (forall i :: 0 <= i < |s.sweeps| - 1 ==> s.sweeps[i] + s.ttl <= s.sweeps[i + 1])
  }

  predicate ReturnsSound(s: State) {
    forall i :: 0 <= i < |s.answers| ==>
      var r := s.answers[i];
      r.client < |s.origins| && s.origins[r.client] == r.want && (r.cached ==> r.age < s.ttl)
  }

  predicate ClosedWereBuilt(s: State) {
    forall c :: c in s.store.closed ==> c < |s.origins|
  }

  predicate StoreSound(s: State) {
    ValidTtl(s.ttl) && EntriesSound(s) && HeldPrivately(s) && SweptRecently(s) && ClosedWereBuilt(s)
  }

  predicate Inv(s: State) {
    StoreSound(s) && SweepsApart(s) && ReturnsSound(s)
  }

  lemma BuildKeepsInv(s: State, g: Thread, ok: bool)
    requires Inv(s) && Enabled(s, Build(g, ok))
    ensures Inv(Apply(s, Build(g, ok)))
  {
  }

  lemma LookupKeepsStore(s: State, g: Thread)
    requires StoreSound(s) && Enabled(s, Lookup(g))
    ensures StoreSound(Apply(s, Lookup(g)))
  {
    hide CacheHit;
  }

  lemma LookupKeepsInv(s: State, g: Thread)
    requires Inv(s) && Enabled(s, Lookup(g))
    ensures Inv(Apply(s, Lookup(g)))
  {
    hide HeldPrivately, SweptRecently, ClosedWereBuilt;
    LookupKeepsStore(s, g);
  }

  // The entry goes in, whatever it replaces is closed.
  function WithEntry(s: State, g: Thread, t2: Time): State
    requires g in s.threads && s.threads[g].Built?
  {
    var w := s.threads[g].want;
    s.(now := t2, store := Put(s.store, w.key, w.fingerprint, s.threads[g].client, t2), threads := s.threads - {g})
  }

  lemma PutKeepsStore(s: State, g: Thread, t2: Time)
    requires StoreSound(s) && g in s.threads && s.threads[g].Built? && s.now <= t2
    ensures StoreSound(WithEntry(s, g, t2))
  {
  }

  lemma SweepKeepsStore(s: State, t3: Time)
    requires StoreSound(s) && s.now <= t3
    ensures StoreSound(s.(now := t3, store := Sweep(s.store, s.ttl, t3)))
  {
  }

  // The histories do not bear on the store.
  lemma HistoryIsApart(s: State, t: State)
    requires StoreSound(s) && t == s.(answers := t.answers, sweeps := t.sweeps)
    ensures StoreSound(t)
  {
  }

  lemma StoreKeepsStore(s: State, g: Thread, t2: Time, t3: Time)
    requires StoreSound(s) && Enabled(s, StoreNew(g, t2, t3))
    ensures StoreSound(Apply(s, StoreNew(g, t2, t3)))
  {
    hide StoreSound, Sweep, Put, CacheHit;
    var t := Apply(s, StoreNew(g, t2, t3));
    if Hit(s, s.threads[g].want).None? {
      PutKeepsStore(s, g, t2);
      var p := WithEntry(s, g, t2);
      SweepKeepsStore(p, t3);
      HistoryIsApart(p.(now := t3, store := Sweep(p.store, s.ttl, t3)), t);
    } else {
      DropKeepsStore(s, g, t3);
      HistoryIsApart(s.(now := t3, threads := s.threads - {g}), t);
    }
  }

  lemma DropKeepsStore(s: State, g: Thread, t3: Time)
    requires StoreSound(s) && s.now <= t3
    ensures StoreSound(s.(now := t3, threads := s.threads - {g}))
  {
  }

  lemma StoreKeepsHistory(s: State, g: Thread, t2: Time, t3: Time)
    requires Inv(s) && Enabled(s, StoreNew(g, t2, t3))
    ensures SweepsApart(Apply(s, StoreNew(g, t2, t3))) && ReturnsSound(Apply(s, StoreNew(g, t2, t3)))
  {
  }

  lemma StoreKeepsInv(s: State, g: Thread, t2: Time, t3: Time)
    requires Inv(s) && Enabled(s, StoreNew(g, t2, t3))
    ensures Inv(Apply(s, StoreNew(g, t2, t3)))
  {
    hide StoreSound, SweepsApart, ReturnsSound, Apply;
    StoreKeepsStore(s, g, t2, t3);
    StoreKeepsHistory(s, g, t2, t3);
  }

  lemma ForgetKeepsInv(s: State, key: string)
    requires Inv(s)
    ensures Inv(Apply(s, ForgetKey(key)))
  {
  }

  lemma StepKeepsInv(s: State, e: Event)
    requires Inv(s) && Enabled(s, e)
    ensures Inv(Apply(s, e))
  {
    match e
    case Build(g, ok) => BuildKeepsInv(s, g, ok);
    case Lookup(g) => LookupKeepsInv(s, g);
    case StoreNew(g, t2, t3) => StoreKeepsInv(s, g, t2, t3);
    case ForgetKey(key) => ForgetKeepsInv(s, key);
    case _ =>
  }

  ghost predicate IsRun(s: State, run: seq<Event>)
    decreases |run|
  {
    run == [] || (Enabled(s, run[0]) && IsRun(Apply(s, run[0]), run[1..]))
  }

  ghost function End(s: State, run: seq<Event>): State
    requires IsRun(s, run)
    decreases |run|
  {
    if run == [] then s else End(Apply(s, run[0]), run[1..])
  }

  // Time and history only move forward.
  lemma StepMovesOn(s: State, e: Event)
    requires Enabled(s, e)
    ensures s.now <= Apply(s, e).now && s.answers <= Apply(s, e).answers && s.origins <= Apply(s, e).origins
  {
    hide StoreSection, CacheHit, Forget;
  }

  lemma {:induction false} RunKeepsInv(s: State, run: seq<Event>)
    requires Inv(s) && IsRun(s, run)
    ensures Inv(End(s, run)) && s.now <= End(s, run).now
    ensures s.answers <= End(s, run).answers && s.origins <= End(s, run).origins
    decreases |run|
  {
    hide Inv, Apply;
    if run != [] {
      StepKeepsInv(s, run[0]);
      StepMovesOn(s, run[0]);
      RunKeepsInv(Apply(s, run[0]), run[1..]);
    }
  }

  /** Main result, for every interleaving: a returned client was built for the caller's key and
      fingerprint, a cached one was younger than the ttl when checked, no cached client has ever
      been closed, executed sweeps are a ttl apart and no entry escapes them for long. */
  lemma CacheIsSafe(ttl: int, start: Time, run: seq<Event>)
    requires ValidTtl(ttl) && start >= 0 && IsRun(Initial(ttl, start), run)
    ensures var s := End(Initial(ttl, start), run);
      EntriesSound(s) && ReturnsSound(s) && SweptRecently(s) && SweepsApart(s)
  {
    RunKeepsInv(Initial(ttl, start), run);
  }

  // When a call that stored its client ends, every entry is younger than twice the ttl.
  lemma StoredMeansSwept(s: State, g: Thread, t2: Time, t3: Time, key: string)
    requires Inv(s) && Enabled(s, StoreNew(g, t2, t3)) && Hit(s, s.threads[g].want).None?
    requires key in Apply(s, StoreNew(g, t2, t3)).store.cache
    ensures Age(Apply(s, StoreNew(g, t2, t3)), key) < 2 * s.ttl
    ensures SweepIsDue(s.store, s.ttl, t3) ==> Age(Apply(s, StoreNew(g, t2, t3)), key) < s.ttl
  {
  }

  // ---- What the sections do, spelled out ----

  // The cache has a client for the same key and fingerprint that is younger than the ttl.
  predicate Usable(s: State, w: Origin) {
    && w.key in s.store.cache && s.store.cache[w.key].fingerprint == w.fingerprint
    && s.now - s.store.cache[w.key].createdAt < s.ttl
  }

  /** The first section ends the call with the cached client exactly if that is usable, and changes
      nothing in the cache either way. */
  lemma LookupAnswersIff(s: State, g: Thread)
    requires Inv(s) && Enabled(s, Lookup(g))
    ensures var w, t := s.threads[g].want, Apply(s, Lookup(g));
      && t.store == s.store && t.now == s.now
      && (if Usable(s, w) then
            g !in t.threads && t.answers == s.answers + [Return(w, s.store.cache[w.key].client, true, s.now - s.store.cache[w.key].createdAt)]
          else
            g in t.threads && t.threads[g] == Missed(w) && t.answers == s.answers)
  {
  }

  predicate Kept(s: State, t3: Time, e: Entry) { t3 - s.store.lastSweep >= s.ttl ==> t3 - e.createdAt < s.ttl }

  /** The second section returns the cached client and drops the one just built exactly if the cached
      one has become usable meanwhile. Otherwise it returns the one just built, in the place of the
      entry under its key, whose client is closed; and if a whole ttl has passed since the last
      sweep, exactly the entries of that age are closed and removed. */
  lemma StoreAnswersIff(s: State, g: Thread, t2: Time, t3: Time)
    requires Inv(s) && Enabled(s, StoreNew(g, t2, t3))
    ensures var w, c, t := s.threads[g].want, s.threads[g].client, Apply(s, StoreNew(g, t2, t3));
      && g !in t.threads && |t.answers| == |s.answers| + 1 && t.answers[|s.answers|].want == w
      && (if Usable(s, w) then
            t.store == s.store && t.answers[|s.answers|].client == s.store.cache[w.key].client
          else
            && t.answers[|s.answers|].client == c
            && t.store.lastSweep == (if t3 - s.store.lastSweep >= s.ttl then t3 else s.store.lastSweep)
            && StoredAs(s, t, w, Entry(c, w.fingerprint, t2), t3))
  {
    var w, c := s.threads[g].want, s.threads[g].client;
    if !Usable(s, w) { StoringSpelled(s, w, c, t2, t3); }
  }

  // The cache and the closed clients after an entry was stored at time `t3`.
  ghost predicate StoredAs(s: State, t: State, w: Origin, entry: Entry, t3: Time) {
    && (forall k :: k in t.store.cache <==> (k == w.key && Kept(s, t3, entry)) || (k != w.key && k in s.store.cache && Kept(s, t3, s.store.cache[k])))
    && (forall k :: k in t.store.cache ==> t.store.cache[k] == if k == w.key then entry else s.store.cache[k])
    && (forall x :: x in t.store.closed <==>
          || x in s.store.closed
          || (w.key in s.store.cache && x == s.store.cache[w.key].client)
          || (x == entry.client && !Kept(s, t3, entry))
          || (exists k :: k in s.store.cache && k != w.key && x == s.store.cache[k].client && !Kept(s, t3, s.store.cache[k])))
  }

  lemma StoringSpelled(s: State, w: Origin, c: ClientId, t2: Time, t3: Time)
    requires Inv(s) && s.now <= t2 <= t3
    ensures var t := s.(store := Sweep(Put(s.store, w.key, w.fingerprint, c, t2), s.ttl, t3)); StoredAs(s, t, w, Entry(c, w.fingerprint, t2), t3)
  {
    var p := Put(s.store, w.key, w.fingerprint, c, t2);
    var t := Sweep(p, s.ttl, t3);
    var entry := Entry(c, w.fingerprint, t2);
    assert p.cache[w.key] == entry;
    assert forall k :: k in p.cache <==> k == w.key || k in s.store.cache;
    assert forall k :: k in p.cache && k != w.key ==> p.cache[k] == s.store.cache[k];
    assert forall k :: k in p.cache ==> (SweepIsDue(p, s.ttl, t3) && Expired(p.cache[k], s.ttl, t3) <==> !Kept(s, t3, p.cache[k]));
    forall x ensures x in t.closed <==>
      || x in s.store.closed
      || (w.key in s.store.cache && x == s.store.cache[w.key].client)
      || (x == c && !Kept(s, t3, entry))
      || (exists k :: k in s.store.cache && k != w.key && x == s.store.cache[k].client && !Kept(s, t3, s.store.cache[k]))
    {
      SweptClients(s, p, w, entry, t3, x);
    }
  }

  lemma SweptClients(s: State, p: Store, w: Origin, entry: Entry, t3: Time, x: ClientId)
    requires p.cache == s.store.cache[w.key := entry] && p.lastSweep == s.store.lastSweep
    requires forall k :: k in p.cache ==> (SweepIsDue(p, s.ttl, t3) && Expired(p.cache[k], s.ttl, t3) <==> !Kept(s, t3, p.cache[k]))
    ensures x in Sweep(p, s.ttl, t3).closed <==>
      || x in p.closed
      || (x == entry.client && !Kept(s, t3, entry))
      || (exists k :: k in s.store.cache && k != w.key && x == s.store.cache[k].client && !Kept(s, t3, s.store.cache[k]))
  {
    assert p.cache[w.key] == entry;
    assert forall k :: k in s.store.cache && k != w.key ==> k in p.cache && p.cache[k] == s.store.cache[k];
    if SweepIsDue(p, s.ttl, t3) {
      if x in ExpiredClients(p.cache, s.ttl, t3) {
        var k :| k in p.cache && Expired(p.cache[k], s.ttl, t3) && p.cache[k].client == x;
        assert k != w.key ==> k in s.store.cache && p.cache[k] == s.store.cache[k];
      }
      if exists k :: k in s.store.cache && k != w.key && x == s.store.cache[k].client && !Kept(s, t3, s.store.cache[k]) {
        var k :| k in s.store.cache && k != w.key && x == s.store.cache[k].client && !Kept(s, t3, s.store.cache[k]);
        assert k in p.cache && p.cache[k] == s.store.cache[k];
      }
    } else {
      assert forall k :: k in p.cache ==> Kept(s, t3, p.cache[k]);
      forall k | k in s.store.cache && k != w.key ensures Kept(s, t3, s.store.cache[k]) { assert Kept(s, t3, p.cache[k]); }
    }
  }

  // ---- Where every client ends up ----

  // The clients built by calls that then found another one in the cache.
  ghost function Losers(s: State, run: seq<Event>): set<ClientId>
    requires IsRun(s, run)
    decreases |run|
  {
    if run == [] then {}
    else
      var e := run[0];
      (if e.StoreNew? && Usable(s, s.threads[e.thread].want) then {s.threads[e.thread].client} else {}) + Losers(Apply(s, e), run[1..])
  }

  ghost predicate InUse(s: State, c: ClientId) {
    || (exists k :: k in s.store.cache && s.store.cache[k].client == c)
    || c in s.store.closed
    || (exists g :: g in s.threads && s.threads[g].Built? && s.threads[g].client == c)
  }

  lemma StepAccounts(s: State, e: Event, c: ClientId)
    requires Inv(s) && Enabled(s, e) && c < |Apply(s, e).origins| && (c < |s.origins| ==> InUse(s, c))
    ensures InUse(Apply(s, e), c) || (e.StoreNew? && Usable(s, s.threads[e.thread].want) && c == s.threads[e.thread].client)
  {
    var t := Apply(s, e);
    match e
    case Build(g, ok) =>
      if c == |s.origins| { assert t.threads[g].client == c; } else { StepOthers(s, e, c); }
    case StoreNew(g, t2, t3) =>
      StoreAnswersIff(s, g, t2, t3);
      if !Usable(s, s.threads[g].want) { StoreAccounts(s, g, t2, t3, c); } else { StepOthers(s, e, c); }
    case _ => StepOthers(s, e, c);
  }

  // A client that somebody holds, or that is in the cache, is closed when it leaves.
  lemma StepOthers(s: State, e: Event, c: ClientId)
    requires Enabled(s, e) && InUse(s, c) && (e.StoreNew? ==> Apply(s, e).store == s.store)
    ensures InUse(Apply(s, e), c) || (e.StoreNew? && c == s.threads[e.thread].client)
  {
    hide CacheHit, StoreSection;
    var t := Apply(s, e);
    if exists k :: k in s.store.cache && s.store.cache[k].client == c {
      var k :| k in s.store.cache && s.store.cache[k].client == c;
      if e.ForgetKey? && e.key == k { assert c in t.store.closed; } else { assert k in t.store.cache && t.store.cache[k].client == c; }
    } else if c !in s.store.closed {
      var g :| g in s.threads && s.threads[g].Built? && s.threads[g].client == c;
      assert (e.StoreNew? && e.thread == g) || (g in t.threads && t.threads[g] == s.threads[g]);
    }
  }

  lemma StoreAccounts(s: State, g: Thread, t2: Time, t3: Time, c: ClientId)
    requires Inv(s) && Enabled(s, StoreNew(g, t2, t3)) && InUse(s, c) && !Usable(s, s.threads[g].want)
    ensures InUse(Apply(s, StoreNew(g, t2, t3)), c)
  {
    hide CacheHit, StoreSection;
    var w, mine, t := s.threads[g].want, s.threads[g].client, Apply(s, StoreNew(g, t2, t3));
    StoreAnswersIff(s, g, t2, t3);
    if c == mine {
      assert w.key in t.store.cache ==> t.store.cache[w.key].client == c;
    } else if exists k :: k in s.store.cache && s.store.cache[k].client == c {
      var k :| k in s.store.cache && s.store.cache[k].client == c;
      assert k != w.key && Kept(s, t3, s.store.cache[k]) ==> k in t.store.cache && t.store.cache[k].client == c;
    } else if c !in s.store.closed {
      var h :| h in s.threads && s.threads[h].Built? && s.threads[h].client == c;
      assert h in t.threads && t.threads[h] == s.threads[h];
    }
  }

  lemma {:induction false} RunAccounts(s: State, run: seq<Event>, c: ClientId)
    requires Inv(s) && IsRun(s, run) && c < |End(s, run).origins| && (c < |s.origins| ==> InUse(s, c))
    ensures InUse(End(s, run), c) || c in Losers(s, run)
    decreases |run|
  {
    hide Apply, Inv, InUse, Usable;
    if run != [] {
      var t := Apply(s, run[0]);
      StepKeepsInv(s, run[0]);
      if c < |t.origins| {
        StepAccounts(s, run[0], c);
        if !InUse(t, c) { return; }
      }
      RunAccounts(t, run[1..], c);
    }
  }

  /** Every client ever built is in the cache, closed, held by a call that is about to store it, or
      the loser of a recheck: replacing, forgetting and sweeping all close what they take out. */
  lemma EveryClientIsAccounted(ttl: int, start: Time, run: seq<Event>, c: ClientId)
    requires ValidTtl(ttl) && start >= 0 && IsRun(Initial(ttl, start), run) && c < |End(Initial(ttl, start), run).origins|
    ensures InUse(End(Initial(ttl, start), run), c) || c in Losers(Initial(ttl, start), run)
  {
    RunAccounts(Initial(ttl, start), run, c);
  }

  // ---- What the cache does not promise ----

  /** The client a storing call returns is still open unless that very call swept it: both a due
      sweep and an entry that aged a whole ttl between two clock readings are needed. */
  lemma ReturnedOpenIff(s: State, g: Thread, t2: Time, t3: Time)
    requires Inv(s) && Enabled(s, StoreNew(g, t2, t3)) && Hit(s, s.threads[g].want).None?
    ensures var t := Apply(s, StoreNew(g, t2, t3));
      s.threads[g].client in t.store.closed <==> SweepIsDue(s.store, s.ttl, t3) && t3 - t2 >= s.ttl
  {
    var w, c := s.threads[g].want, s.threads[g].client;
    var p := Put(s.store, w.key, w.fingerprint, c, t2);
    assert p.cache[w.key].client == c;
    assert c !in p.closed;
  }

  // Forgetting an instance is undone by a call that had already built its client.
  lemma ForgetDoesNotStick(s: State, g: Thread, t2: Time, t3: Time)
    requires Inv(s) && Enabled(s, StoreNew(g, t2, t3)) && t3 - t2 < s.ttl
    ensures var w := s.threads[g].want;
      var t := Apply(Apply(s, ForgetKey(w.key)), StoreNew(g, t2, t3));
      w.key in t.store.cache && t.store.cache[w.key] == Entry(s.threads[g].client, w.fingerprint, t2)
  {
    var w := s.threads[g].want;
    assert Hit(Apply(s, ForgetKey(w.key)), w).None?;
  }

  // Whoever is in flight for the key will still look it up or store it.
  predicate Wanted(s: State, key: string) {
    exists g :: g in s.threads && s.threads[g].want.key == key
  }

  predicate NoNewCall(run: seq<Event>, key: string) {
    forall i :: 0 <= i < |run| && run[i].Call? ==> run[i].want.key != key
  }

  lemma UnwantedStep(s: State, e: Event, key: string)
    requires Enabled(s, e) && key !in s.store.cache && !Wanted(s, key) && (e.Call? ==> e.want.key != key)
    ensures key !in Apply(s, e).store.cache && !Wanted(Apply(s, e), key)
  {
    hide CacheHit;
    var t := Apply(s, e);
    forall g | g in t.threads ensures t.threads[g].want.key != key {
      if g in s.threads { assert s.threads[g].want.key != key; }
    }
  }

  lemma {:induction false} UnwantedStaysOut(s: State, run: seq<Event>, key: string)
    requires IsRun(s, run) && NoNewCall(run, key) && key !in s.store.cache && !Wanted(s, key)
    ensures key !in End(s, run).store.cache
    decreases |run|
  {
    hide Apply;
    if run != [] {
      assert run[0].Call? ==> run[0].want.key != key;
      UnwantedStep(s, run[0], key);
      assert NoNewCall(run[1..], key) by {
        forall i | 0 <= i < |run[1..]| && run[1..][i].Call? ensures run[1..][i].want.key != key { assert run[i + 1].Call?; }
      }
      UnwantedStaysOut(Apply(s, run[0]), run[1..], key);
    }
  }

  lemma OneStep(s: State, e: Event, rest: seq<Event>, key: string)
    requires Enabled(s, e) && !e.Call? && IsRun(Apply(s, e), rest) && NoNewCall(rest, key)
    ensures IsRun(s, [e] + rest) && NoNewCall([e] + rest, key) && End(s, [e] + rest) == End(Apply(s, e), rest)
  {
    assert ([e] + rest)[1..] == rest;
  }

  function StepsLeft(p: Phase): nat {
    match p
    case Called(_) => 2
    case Missed(_) => 1
    case Built(_, _) => 0
  }

  // A call in flight brings the key back, with all clock readings at the same time.
  lemma StoresAgain(s: State, g: Thread) returns (run: seq<Event>)
    requires s.ttl > 0 && g in s.threads && s.threads[g].want.key !in s.store.cache
    ensures var key := s.threads[g].want.key; IsRun(s, run) && NoNewCall(run, key) && key in End(s, run).store.cache
    decreases StepsLeft(s.threads[g])
  {
    var key := s.threads[g].want.key;
    match s.threads[g]
    case Built(w, c) =>
      var e := StoreNew(g, s.now, s.now);
      assert key in Apply(s, e).store.cache;
      OneStep(s, e, [], key);
      run := [e] + [];
    case Missed(w) =>
      var e := Build(g, true);
      var rest := StoresAgain(Apply(s, e), g);
      OneStep(s, e, rest, key);
      run := [e] + rest;
    case Called(w) =>
      var e := Lookup(g);
      assert Apply(s, e).threads[g] == Missed(w);
      var rest := StoresAgain(Apply(s, e), g);
      OneStep(s, e, rest, key);
      run := [e] + rest;
  }

  ghost predicate StaysOut(s: State, key: string) {
    forall run :: IsRun(s, run) && NoNewCall(run, key) ==> key !in End(s, run).store.cache
  }

  /** A forgotten instance stays forgotten, until the next call for it, exactly if no call for it
      was in flight. */
  lemma ForgettingSticksIff(s: State, key: string)
    requires s.ttl > 0
    ensures StaysOut(Apply(s, ForgetKey(key)), key) <==> !Wanted(s, key)
  {
    var t := Apply(s, ForgetKey(key));
    assert t.threads == s.threads && key !in t.store.cache;
    if Wanted(s, key) {
      var g :| g in s.threads && s.threads[g].want.key == key;
      var run := StoresAgain(t, g);
    } else {
      forall run | IsRun(t, run) && NoNewCall(run, key) ensures key !in End(t, run).store.cache {
        UnwantedStaysOut(t, run, key);
      }
    }
  }

  // A client that lost the race to another goroutine.
  predicate Orphan(s: State, c: ClientId) {
    && c < |s.origins| && c !in s.store.closed
    && (forall k :: k in s.store.cache ==> s.store.cache[k].client != c)
    && (forall g :: g in s.threads && s.threads[g].Built? ==> s.threads[g].client != c)
  }

  // The client of a storing call is orphaned exactly if another one was found in the cache.
  lemma LoserIsOrphan(s: State, g: Thread, t2: Time, t3: Time)
    requires Inv(s) && Enabled(s, StoreNew(g, t2, t3))
    ensures Orphan(Apply(s, StoreNew(g, t2, t3)), s.threads[g].client) <==> Hit(s, s.threads[g].want).Some?
  {
    var w, c, t := s.threads[g].want, s.threads[g].client, Apply(s, StoreNew(g, t2, t3));
    if Hit(s, w).None? {
      var p := Put(s.store, w.key, w.fingerprint, c, t2);
      assert p.cache[w.key].client == c;
      if SweepIsDue(p, s.ttl, t3) && Expired(p.cache[w.key], s.ttl, t3) {
        assert c in ExpiredClients(p.cache, s.ttl, t3);
      } else {
        assert w.key in t.store.cache && t.store.cache[w.key].client == c;
      }
    }
  }

  lemma OrphanStep(s: State, e: Event, c: ClientId)
    requires Orphan(s, c) && Enabled(s, e)
    ensures Orphan(Apply(s, e), c)
  {
    if e.StoreNew? {
      var w := s.threads[e.thread].want;
      var p := Put(s.store, w.key, w.fingerprint, s.threads[e.thread].client, e.t2);
      assert c !in p.closed && forall k :: k in p.cache ==> p.cache[k].client != c;
    }
  }

  // It is never cached and nothing ever closes its connections.
  lemma {:induction false} OrphanStaysOpen(s: State, run: seq<Event>, c: ClientId)
    requires Orphan(s, c) && IsRun(s, run)
    ensures Orphan(End(s, run), c)
    decreases |run|
  {
    if run != [] {
      OrphanStep(s, run[0], c);
      OrphanStaysOpen(Apply(s, run[0]), run[1..], c);
    }
  }
}
