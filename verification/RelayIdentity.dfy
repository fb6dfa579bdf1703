/** Quotas per identity: the relay counts spellings of a key, not keys. */
module RelayIdentity {
  import opened ByteStrings
  import opened Hex
  import opened RelayAdmission
  import opened RelayLimits
  import opened RelayForwarding

  /** Two spellings of the same public key. */
  predicate SameIdentity(a: Key, b: Key) {
    Decode(a).Some? && Decode(a) == Decode(b)
  }

  ghost predicate OneSpelling(keys: set<Key>) {
    forall a, b :: a in keys && b in keys && SameIdentity(a, b) ==> a == b
  }

  /** Admissions of an identity, in whatever spelling, at times in [lo, hi). */
  function OfIdentity(log: seq<Request>, id: Bytes, lo: int, hi: int): nat {
    if log == [] then 0
    else
      var q := log[|log| - 1];
      OfIdentity(log[..|log| - 1], id, lo, hi) + if Decode(q.key) == Some(id) && lo <= q.now < hi then 1 else 0
  }

  function MinuteOf(log: seq<Request>, id: Bytes, t: int): nat {
    OfIdentity(log, id, t, t + 60)
  }

  /** Among these keys no identity ever gets more than 120 admissions in a minute. */
  ghost predicate IdentityGuaranteed(keys: set<Key>) {
    forall run, id, t :: ClockForward(run) && KeysOf(run) <= keys ==> MinuteOf(AdmittedOf(run), id, t) <= 120
  }

  // ---- One spelling each ----

  lemma {:induction false} CountsTheKey(log: seq<Request>, keys: set<Key>, key: Key, id: Bytes, lo: int, hi: int)
    requires OneSpelling(keys) && key in keys && Decode(key) == Some(id) && forall i :: 0 <= i < |log| ==> log[i].key in keys
    ensures OfIdentity(log, id, lo, hi) == Admissions(log, key, lo, hi)
  {
    if log != [] {
      var q := log[|log| - 1];
      CountsTheKey(log[..|log| - 1], keys, key, id, lo, hi);
      assert Decode(q.key) == Some(id) <==> q.key == key by {
        assert q.key in keys && (SameIdentity(q.key, key) ==> q.key == key);
      }
    }
  }

  lemma {:induction false} CountsNobody(log: seq<Request>, id: Bytes, lo: int, hi: int)
    requires forall i :: 0 <= i < |log| ==> Decode(log[i].key) != Some(id)
    ensures OfIdentity(log, id, lo, hi) == 0
  {
    if log != [] {
      CountsNobody(log[..|log| - 1], id, lo, hi);
    }
  }

  lemma AdmittedKeys(run: seq<Request>, keys: set<Key>)
    requires KeysOf(run) <= keys
    ensures forall i :: 0 <= i < |AdmittedOf(run)| ==> AdmittedOf(run)[i].key in keys
  {
    forall i | 0 <= i < |AdmittedOf(run)| ensures AdmittedOf(run)[i].key in keys {
      AdmittedArePresented(run, AdmittedOf(run)[i]);
      var j :| 0 <= j < |run| && run[j] == AdmittedOf(run)[i];
      assert run[j].key in KeysOf(run);
    }
  }

  lemma OneSpellingHolds(keys: set<Key>, run: seq<Request>, id: Bytes, t: int)
    requires |keys| < MAX_RELAY_TRACKED && OneSpelling(keys) && ClockForward(run) && KeysOf(run) <= keys
    ensures MinuteOf(AdmittedOf(run), id, t) <= 120
  {
    SubsetSize(KeysOf(run), keys);
    AdmittedKeys(run, keys);
    if key :| key in keys && Decode(key) == Some(id) {
      CountsTheKey(AdmittedOf(run), keys, key, id, t, t + 60);
      RateLimit(run, key, t);
    } else {
      CountsNobody(AdmittedOf(run), id, t, t + 60);
    }
  }

  // ---- Bursts ----

  /** n requests by one key at one time. */
  function Burst(key: Key, nonce: nat, now: nat, n: nat): (r: seq<Request>)
    ensures |r| == n && forall i :: 0 <= i < n ==> r[i] == Request(key, nonce + i, now, now)
  {
    seq(n, i requires 0 <= i => Request(key, nonce + i, now, now))
  }

  /** After i requests of a burst that began in v0, in window w. */
  ghost predicate InBurst(v: Verifier, v0: Verifier, key: Key, w: Window, nonce: nat, i: nat) {
    if i == 0 then v.rate == v0.rate && v.lastNonce == v0.lastNonce
    else v.rate == v0.rate[key := Window(w.start, w.count + i)] && v.lastNonce == v0.lastNonce[key := nonce + i - 1]
  }

  /** Few keys so far, and this one may send n more from `nonce` on. */
  ghost predicate Room(v: Verifier, few: set<Key>, key: Key, now: nat, nonce: nat, n: nat) {
    && |few| < MAX_RELAY_TRACKED && key in few && v.rate.Keys <= few && v.lastNonce.Keys <= few
    && WindowAt(v.rate, key, now).count + n <= RELAY_MAX_PER_WINDOW && (key in v.lastNonce ==> v.lastNonce[key] < nonce)
  }

  lemma CheckedInWindow(v: Verifier, q: Request)
    requires |v.rate| < MAX_RELAY_TRACKED && |v.lastNonce| < MAX_RELAY_TRACKED && q.now == q.timestamp
    requires q.key in v.lastNonce ==> v.lastNonce[q.key] < q.nonce
    requires WindowAt(v.rate, q.key, q.now).count < RELAY_MAX_PER_WINDOW
    ensures var w := WindowAt(v.rate, q.key, q.now);
            Checked(v, q) == (v.(rate := v.rate[q.key := Window(w.start, w.count + 1)], lastNonce := v.lastNonce[q.key := q.nonce]), Admitted)
  {
  }

  lemma BurstStep(v: Verifier, v0: Verifier, few: set<Key>, key: Key, now: nat, nonce: nat, n: nat, i: nat, v': Verifier)
    requires Room(v0, few, key, now, nonce, n) && InBurst(v, v0, key, WindowAt(v0.rate, key, now), nonce, i) && i < n
    requires v' == Checked(v, Request(key, nonce + i, now, now)).0
    ensures Checked(v, Request(key, nonce + i, now, now)).1 == Admitted
    ensures InBurst(v', v0, key, WindowAt(v0.rate, key, now), nonce, i + 1)
  {
    SubsetSize(v.rate.Keys, few);
    SubsetSize(v.lastNonce.Keys, few);
    var w := WindowAt(v0.rate, key, now);
    assert WindowAt(v.rate, key, now) == Window(w.start, w.count + i);
    CheckedInWindow(v, Request(key, nonce + i, now, now));
    assert v.rate[key := Window(w.start, w.count + i + 1)] == v0.rate[key := Window(w.start, w.count + i + 1)];
    assert v.lastNonce[key := nonce + i] == v0.lastNonce[key := nonce + i];
  }

  // The state and the admissions after a run, under seal.
  ghost predicate Reached(run: seq<Request>, v: Verifier, log: seq<Request>) {
    Sealed(_ => After(run) == v && AdmittedOf(run) == log)
  }

  lemma ReachedMeans(run: seq<Request>, v: Verifier, log: seq<Request>)
    ensures Reached(run, v, log) <==> After(run) == v && AdmittedOf(run) == log
  {
    var p := (k: Seal) => After(run) == v && AdmittedOf(run) == log;
    assert p(Seal) <==> After(run) == v && AdmittedOf(run) == log;
  }

  lemma StretchFrom(run: seq<Request>, v0: Verifier, log: seq<Request>, more: seq<Request>, found: (nat, Verifier) -> bool) returns (v': Verifier)
    requires Reached(run, v0, log) && found(0, v0) && Sealed(_ => Continues(more, found))
    ensures Reached(run + more, v', log + more) && found(|more|, v')
  {
    var p := (k: Seal) => Continues(more, found);
    assert p(Seal);
    ReachedMeans(run, v0, log);
    forall i, v | 0 <= i < |more| && found(i, v) ensures Checked(v, more[i]).1 == Admitted && found(i + 1, Checked(v, more[i]).0) {
      assert Admits(v, more[i]) && found(i + 1, Next(v, more[i]));
    }
    Stretch(run, more, found);
    v' := After(run + more);
    ReachedMeans(run + more, v', log + more);
  }

  /** A burst within the quota is admitted whole and touches nothing but its key's entries. */
  lemma BurstAdmitted(run: seq<Request>, v0: Verifier, log: seq<Request>, few: set<Key>, key: Key, now: nat, nonce: nat, n: nat, w: Window)
    returns (v': Verifier)
    requires Reached(run, v0, log) && Room(v0, few, key, now, nonce, n) && n > 0 && w == WindowAt(v0.rate, key, now)
    ensures Reached(run + Burst(key, nonce, now, n), v', log + Burst(key, nonce, now, n))
    ensures v'.rate == v0.rate[key := Window(w.start, w.count + n)] && v'.lastNonce == v0.lastNonce[key := nonce + n - 1]
  {
    var found := (i: nat, v: Verifier) => InBurst(v, v0, key, w, nonce, i);
    v' := BurstRuns(run, v0, log, few, key, now, nonce, n, w, found);
    BurstBooks(v', v0, key, w, nonce, n);
  }

  lemma BurstBooks(v: Verifier, v0: Verifier, key: Key, w: Window, nonce: nat, n: nat)
    requires InBurst(v, v0, key, w, nonce, n) && n > 0
    ensures v.rate == v0.rate[key := Window(w.start, w.count + n)] && v.lastNonce == v0.lastNonce[key := nonce + n - 1]
  {
  }

  lemma BurstRuns(run: seq<Request>, v0: Verifier, log: seq<Request>, few: set<Key>, key: Key, now: nat, nonce: nat, n: nat, w: Window,
                  found: (nat, Verifier) -> bool) returns (v': Verifier)
    requires Reached(run, v0, log) && Room(v0, few, key, now, nonce, n) && w == WindowAt(v0.rate, key, now)
    requires forall i, v :: found(i, v) == InBurst(v, v0, key, w, nonce, i)
    ensures Reached(run + Burst(key, nonce, now, n), v', log + Burst(key, nonce, now, n)) && InBurst(v', v0, key, w, nonce, n)
  {
    assert found(0, v0) == InBurst(v0, v0, key, w, nonce, 0);
    BurstGoesOn(v0, few, key, now, nonce, n, w, Burst(key, nonce, now, n), found);
    v' := StretchFrom(run, v0, log, Burst(key, nonce, now, n), found);
    assert found(n, v') == InBurst(v', v0, key, w, nonce, n);
  }

  /** Whatever a stretch finds at each request, it is admitted and leaves what the next one finds. */
  ghost predicate Continues(more: seq<Request>, found: (nat, Verifier) -> bool) {
    forall i, v :: 0 <= i < |more| && found(i, v) ==> Admits(v, more[i]) && found(i + 1, Next(v, more[i]))
  }

  ghost predicate Admits(v: Verifier, q: Request) {
    Checked(v, q).1 == Admitted
  }

  ghost function Next(v: Verifier, q: Request): Verifier {
    Checked(v, q).0
  }

  lemma BurstGoesOn(v0: Verifier, few: set<Key>, key: Key, now: nat, nonce: nat, n: nat, w: Window, more: seq<Request>, found: (nat, Verifier) -> bool)
    requires Room(v0, few, key, now, nonce, n) && w == WindowAt(v0.rate, key, now) && more == Burst(key, nonce, now, n)
    requires forall i, v :: found(i, v) == InBurst(v, v0, key, w, nonce, i)
    ensures Sealed(_ => Continues(more, found))
  {
    forall i, v | 0 <= i < |more| && found(i, v) ensures Admits(v, more[i]) && found(i + 1, Next(v, more[i])) {
      assert more[i] == Request(key, nonce + i, now, now);
      BurstStep(v, v0, few, key, now, nonce, n, i, Checked(v, more[i]).0);
    }
  }

  lemma OneCounted(log: seq<Request>, q: Request, id: Bytes, lo: int, hi: int)
    ensures OfIdentity(log + [q], id, lo, hi) == OfIdentity(log, id, lo, hi) + if Decode(q.key) == Some(id) && lo <= q.now < hi then 1 else 0
  {
    assert (log + [q])[..|log|] == log;
  }

  lemma BurstLast(log: seq<Request>, key: Key, nonce: nat, now: nat, n: nat)
    requires n > 0
    ensures log + Burst(key, nonce, now, n) == log + Burst(key, nonce, now, n - 1) + [Request(key, nonce + n - 1, now, now)]
  {
  }

  lemma {:induction false} BurstCount(log: seq<Request>, key: Key, nonce: nat, now: nat, n: nat, id: Bytes, lo: int, hi: int)
    requires Decode(key) == Some(id)
    ensures OfIdentity(log + Burst(key, nonce, now, n), id, lo, hi) == OfIdentity(log, id, lo, hi) + if lo <= now < hi then n else 0
    decreases n
  {
    if n == 0 {
      assert log + Burst(key, nonce, now, 0) == log;
    } else {
      BurstCount(log, key, nonce, now, n - 1, id, lo, hi);
      BurstLast(log, key, nonce, now, n);
      OneCounted(log + Burst(key, nonce, now, n - 1), Request(key, nonce + n - 1, now, now), id, lo, hi);
    }
  }

  // ---- Two spellings of one key ----

  /** Requests by these two spellings, no later than `clock`, so many of them in the minute from 1. */
  ghost predicate Timeline(run: seq<Request>, a: Key, b: Key, id: Bytes, clock: nat, count: nat) {
    && ClockForward(run) && (forall i :: 0 <= i < |run| ==> run[i].now <= clock && run[i].key in {a, b})
    && MinuteOf(run, id, 1) == count
  }

  lemma TimelineGrows(run: seq<Request>, a: Key, b: Key, id: Bytes, clock: nat, count: nat, key: Key, nonce: nat, now: nat, n: nat)
    requires Timeline(run, a, b, id, clock, count) && clock <= now && key in {a, b} && Decode(key) == Some(id)
    ensures Timeline(run + Burst(key, nonce, now, n), a, b, id, now, count + if 1 <= now < 61 then n else 0)
  {
    LaterRequests(run, a, b, clock, now, Burst(key, nonce, now, n));
    BurstCount(run, key, nonce, now, n, id, 1, 61);
  }

  lemma LaterRequests(run: seq<Request>, a: Key, b: Key, clock: nat, now: nat, more: seq<Request>)
    requires ClockForward(run) && (forall i :: 0 <= i < |run| ==> run[i].now <= clock && run[i].key in {a, b}) && clock <= now
    requires forall i :: 0 <= i < |more| ==> more[i].now == now && more[i].key in {a, b}
    ensures ClockForward(run + more) && forall i :: 0 <= i < |run + more| ==> (run + more)[i].now <= now && (run + more)[i].key in {a, b}
  {
    var all := run + more;
    forall i | 0 <= i < |all| ensures all[i].now <= now && all[i].key in {a, b} && (i >= |run| ==> all[i].now == now) {
      assert all[i] == if i < |run| then run[i] else more[i - |run|];
    }
    forall i, j | 0 <= i < j < |all| ensures all[i].now <= all[j].now {
      if j < |run| {
        assert all[i] == run[i] && all[j] == run[j];
      }
    }
  }

  /** Each spelling's window and highest nonce. */
  datatype Books = Books(wa: Window, wb: Window, na: nat, nb: nat)

  ghost predicate Holds(v: Verifier, a: Key, b: Key, k: Books) {
    v.rate == map[a := k.wa, b := k.wb] && v.lastNonce == map[a := k.na, b := k.nb]
  }

  /** A run in which everything was admitted. */
  ghost predicate Stage(run: seq<Request>, v: Verifier, a: Key, b: Key, id: Bytes, clock: nat, count: nat, k: Books) {
    Reached(run, v, run) && Timeline(run, a, b, id, clock, count) && Holds(v, a, b, k)
  }

  function NextWindow(w: Window, now: nat, n: nat): Window {
    if AbsDiff(now, w.start) < RELAY_RATE_WINDOW_SECS then Window(w.start, w.count + n) else Window(now, n)
  }

  lemma SomeRoom(v: Verifier, a: Key, b: Key, k: Books, now: nat, n: nat)
    requires a != b && Holds(v, a, b, k) && NextWindow(k.wa, now, n).count <= RELAY_MAX_PER_WINDOW
    ensures Room(v, {a, b}, a, now, k.na + 1, n)
    ensures WindowAt(v.rate, a, now) == NextWindow(k.wa, now, 0)
  {
    assert |{a, b}| == 2;
  }

  /** The first spelling sends n more. */
  lemma FirstSends(run: seq<Request>, v: Verifier, a: Key, b: Key, id: Bytes, clock: nat, count: nat, k: Books, now: nat, n: nat)
    returns (run': seq<Request>, v': Verifier)
    requires a != b && Decode(a) == Some(id) && Stage(run, v, a, b, id, clock, count, k)
    requires clock <= now && n > 0 && NextWindow(k.wa, now, n).count <= RELAY_MAX_PER_WINDOW
    ensures Stage(run', v', a, b, id, now, count + if 1 <= now < 61 then n else 0, k.(wa := NextWindow(k.wa, now, n), na := k.na + n))
  {
    SomeRoom(v, a, b, k, now, n);
    v' := BurstAdmitted(run, v, run, {a, b}, a, now, k.na + 1, n, NextWindow(k.wa, now, 0));
    run' := run + Burst(a, k.na + 1, now, n);
    TimelineGrows(run, a, b, id, clock, count, a, k.na + 1, now, n);
    HoldsNext(v, v', a, b, k, NextWindow(k.wa, now, n), k.na + n);
  }

  lemma HoldsNext(v: Verifier, v': Verifier, a: Key, b: Key, k: Books, w: Window, nonce: nat)
    requires a != b && Holds(v, a, b, k) && v'.rate == v.rate[a := w] && v'.lastNonce == v.lastNonce[a := nonce]
    ensures Holds(v', a, b, k.(wa := w, na := nonce))
  {
    assert v'.rate.Keys == {a, b} && v'.rate == map[a := w, b := k.wb];
    assert v'.lastNonce.Keys == {a, b} && v'.lastNonce == map[a := nonce, b := k.nb];
  }

  lemma Swapped(run: seq<Request>, v: Verifier, a: Key, b: Key, id: Bytes, clock: nat, count: nat, k: Books)
    requires a != b && Stage(run, v, a, b, id, clock, count, k)
    ensures Stage(run, v, b, a, id, clock, count, Books(k.wb, k.wa, k.nb, k.na))
  {
    assert {a, b} == {b, a};
    assert map[a := k.wa, b := k.wb] == map[b := k.wb, a := k.wa] && map[a := k.na, b := k.nb] == map[b := k.nb, a := k.na];
  }

  /** Both spellings send n more. */
  lemma BothSend(run: seq<Request>, v: Verifier, a: Key, b: Key, id: Bytes, clock: nat, count: nat, w: Window, last: nat, now: nat, n: nat)
    returns (run': seq<Request>, v': Verifier)
    requires a != b && Decode(a) == Some(id) == Decode(b) && Stage(run, v, a, b, id, clock, count, Books(w, w, last, last))
    requires clock <= now && 1 <= now < 61 && n > 0 && NextWindow(w, now, n).count <= RELAY_MAX_PER_WINDOW
    ensures var w' := NextWindow(w, now, n);
            Stage(run', v', a, b, id, now, count + 2 * n, Books(w', w', last + n, last + n))
  {
    var run1, v1 := FirstSends(run, v, a, b, id, clock, count, Books(w, w, last, last), now, n);
    var w' := NextWindow(w, now, n);
    Swapped(run1, v1, a, b, id, now, count + n, Books(w', w, last + n, last));
    run', v' := FirstSends(run1, v1, b, a, id, now, count + n, Books(w, w', last, last + n), now, n);
    Swapped(run', v', b, a, id, now, count + 2 * n, Books(w', w', last + n, last + n));
  }

  lemma OneReached(run: seq<Request>, v: Verifier, log: seq<Request>, q: Request, v': Verifier)
    requires Reached(run, v, log) && Checked(v, q) == (v', Admitted)
    ensures Reached(run + [q], v', log + [q])
  {
    ReachedMeans(run, v, log);
    Appended(run, q);
    ReachedMeans(run + [q], v', log + [q]);
  }

  lemma OpeningChecks(a: Key, b: Key, v1: Verifier, v2: Verifier)
    requires a != b && v1 == Verifier(map[a := 0], map[a := Window(0, 1)], map[])
    requires v2 == Verifier(map[a := 0, b := 0], map[a := Window(0, 1), b := Window(0, 1)], map[])
    ensures Checked(NewVerifier, Request(a, 0, 0, 0)) == (v1, Admitted) && Checked(v1, Request(b, 0, 0, 0)) == (v2, Admitted)
  {
    CheckedInWindow(NewVerifier, Request(a, 0, 0, 0));
    assert |v1.rate| == 1 && |v1.lastNonce| == 1;
    CheckedInWindow(v1, Request(b, 0, 0, 0));
  }

  lemma EarlyRequest(run: seq<Request>, a: Key, b: Key, id: Bytes, q: Request)
    requires Timeline(run, a, b, id, 0, 0) && q.now == 0 && q.key in {a, b}
    ensures Timeline(run + [q], a, b, id, 0, 0)
  {
    assert (run + [q])[..|run|] == run;
  }

  lemma Opening(a: Key, b: Key, id: Bytes) returns (run: seq<Request>, v: Verifier)
    requires a != b && Decode(a) == Some(id) == Decode(b)
    ensures Stage(run, v, a, b, id, 0, 0, Books(Window(0, 1), Window(0, 1), 0, 0))
  {
    var qa, qb := Request(a, 0, 0, 0), Request(b, 0, 0, 0);
    var v1 := Verifier(map[a := 0], map[a := Window(0, 1)], map[]);
    v := Verifier(map[a := 0, b := 0], map[a := Window(0, 1), b := Window(0, 1)], map[]);
    OpeningChecks(a, b, v1, v);
    ReachedMeans([], NewVerifier, []);
    OneReached([], NewVerifier, [], qa, v1);
    OneReached([] + [qa], v1, [] + [qa], qb, v);
    run := [] + [qa] + [qb];
    EarlyRequest([], a, b, id, qa);
    EarlyRequest([] + [qa], a, b, id, qb);
  }

  /** One request each at 0, the rest of the windows at 59, and two more each in new windows at 60. */
  lemma TwoSpellingsRun(a: Key, b: Key, id: Bytes) returns (run: seq<Request>)
    requires a != b && Decode(a) == Some(id) == Decode(b)
    ensures AdmittedOf(run) == run && Timeline(run, a, b, id, 60, 122)
  {
    var run0, v0 := Opening(a, b, id);
    var run1, v1 := BothSend(run0, v0, a, b, id, 0, 0, Window(0, 1), 0, 59, 59);
    var v2;
    run, v2 := BothSend(run1, v1, a, b, id, 59, 118, Window(0, 60), 59, 60, 2);
    ReachedMeans(run, v2, run);
  }

  /**
   * Among fewer than 4096 keys, 120 admissions a minute is a bound per identity if and only
   * if no identity is spelled in two ways.
   */
  lemma IdentityGuaranteedIff(keys: set<Key>)
    requires |keys| < MAX_RELAY_TRACKED
    ensures IdentityGuaranteed(keys) <==> OneSpelling(keys)
  {
    if OneSpelling(keys) {
      forall run, id, t | ClockForward(run) && KeysOf(run) <= keys ensures MinuteOf(AdmittedOf(run), id, t) <= 120 {
        OneSpellingHolds(keys, run, id, t);
      }
    } else {
      var a, b :| a in keys && b in keys && SameIdentity(a, b) && a != b;
      var run := TwoSpellingsRun(a, b, Decode(a).value);
      assert KeysOf(run) <= {a, b};
      assert MinuteOf(AdmittedOf(run), Decode(a).value, 1) > 120;
    }
  }

  /** Keys as the program itself writes them have one spelling each. */
  lemma WrittenOnce(keys: set<Key>)
    requires forall k :: k in keys ==> exists b :: k == Encode(b)
    ensures OneSpelling(keys)
  {
    forall a, b | a in keys && b in keys && SameIdentity(a, b) ensures a == b {
      var x :| a == Encode(x);
      var y :| b == Encode(y);
      EncodeDecode(x);
      EncodeDecode(y);
    }
  }

  /** A key with a letter in its hexadecimal form has a second spelling. */
  lemma LettersSpellTwice(b: Bytes, i: nat)
    requires i < |Encode(b)| && 97 <= Encode(b)[i] <= 102
    ensures !OneSpelling({Encode(b), Upper(Encode(b))})
  {
    EncodeDecode(b);
    UpperSpells(Encode(b));
    assert SameIdentity(Encode(b), Upper(Encode(b)));
  }

  // ---- The same packet under two spellings ----

  /** Verification looks at the key, not at its spelling. */
  ghost predicate SpellingBlind(verify: (Key, Bytes, Bytes) -> bool) {
    forall a, b, m, s :: SameIdentity(a, b) ==> verify(a, m, s) == verify(b, m, s)
  }

  /** A packet brings its key in lower case, and its sender becomes known in upper case before it arrives again. */
  ghost predicate Respelled(p: Packet, e: Surroundings, e': Surroundings) {
    && Decode(p.originKey).Some? && Upper(p.originKey) != p.originKey
    && p.from !in e.known && p.from in e'.known && e'.known[p.from] == Upper(p.originKey)
    && e'.verify == e.verify && SpellingBlind(e.verify) && e.verify(p.originKey, SignedPart(p), p.signature)
    && AbsDiff(e.now, p.timestamp) <= RELAY_MAX_AGE_SECS && AbsDiff(e'.now, p.timestamp) <= RELAY_MAX_AGE_SECS
  }

  /** Then it is acted on twice: a run in which one validly signed packet is handled two times. */
  lemma RespelledActsTwice(uids: set<Uid>, u: Uid, p: Packet, e: Surroundings, e': Surroundings) returns (net: Net)
    requires u in uids && Respelled(p, e, e')
    ensures NetReaches(uids, DoubleArrival(u, p, e, e'), net) && u in net.nodes
    ensures exists i, j :: 0 <= i < j < |net.nodes[u].handled| && net.nodes[u].handled[i].packet == net.nodes[u].handled[j].packet
  {
    UpperSpells(p.originKey);
    assert SameIdentity(p.originKey, Upper(p.originKey));
    assert Presentable(e, p) && Presentable(e', p);
    net := DoubleArrivalHappens(uids, u, p, e, e');
    PacketTwiceIff(uids, u, p, e, e', net);
  }

  /** Such packets and surroundings exist. */
  lemma RespelledExists(from: Uid, to: Uid, payload: Bytes, now: nat) returns (p: Packet, e: Surroundings, e': Surroundings)
    ensures Respelled(p, e, e')
  {
    var key := Encode([171]);
    assert key == [97, 98];
    EncodeDecode([171]);
    UpperSpells(key);
    assert key[0] == 97;
    p := Packet(true, from, to, key, 1, now, RELAY_MAX_HOPS, [], payload);
    e := Surroundings(map[], {}, map[], (k, m, s) => Decode(k) == Some([171]), true, now);
    e' := e.(known := map[from := Upper(key)]);
  }
}
