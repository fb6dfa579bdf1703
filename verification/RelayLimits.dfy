/** Where the relay's guarantees end: what a flood of new identities undoes, and the exact bounds. */
module RelayLimits {
  import opened ByteStrings
  import opened RelayAdmission

  // ---- Tables of bounded size ----

  lemma {:induction false} TablesCapped(run: seq<Request>)
    ensures |After(run).rate| <= MAX_RELAY_TRACKED && |After(run).lastNonce| <= MAX_RELAY_TRACKED
  {
    if run != [] {
      TablesCapped(run[..|run| - 1]);
    }
  }

  /** A new key goes in: the table is emptied, or grows by one. */
  lemma EvictInsert<T>(table: map<Bytes, T>, key: Bytes, value: T, limit: nat)
    requires key !in table
    ensures var table' := Evict(table, limit)[key := value];
            if |table| >= limit then table' == map[key := value] else |table'| == |table| + 1 && table'.Keys == table.Keys + {key}
  {
    var table' := Evict(table, limit)[key := value];
    if |table| < limit {
      assert table'.Keys == table.Keys + {key};
      assert |table'.Keys| == |table.Keys| + 1;
    }
  }

  /** Every recorded key was presented. */
  lemma TableKeys(run: seq<Request>)
    ensures After(run).rate.Keys <= KeysOf(run) && After(run).lastNonce.Keys <= KeysOf(run)
  {
    TableBounded(run);
    NonceKeys(run);
    forall key | key in KeysOf(AdmittedOf(run)) ensures key in KeysOf(run) {
      var i :| 0 <= i < |AdmittedOf(run)| && AdmittedOf(run)[i].key == key;
      AdmittedArePresented(run, AdmittedOf(run)[i]);
    }
  }

  // ---- A flood of new keys ----

  /** What n new keys make of a table: emptied of the old ones, or grown by one entry each. */
  ghost predicate Flooded<T(!new)>(table: map<Bytes, T>, past: set<Bytes>, seen: set<Bytes>, n: nat) {
    (table.Keys !! past || |table| >= n) && table.Keys <= past + seen
  }

  lemma FloodedStep<T(!new)>(table: map<Bytes, T>, past: set<Bytes>, seen: set<Bytes>, n: nat, key: Bytes, value: T, limit: nat)
    requires Flooded(table, past, seen, n) && key !in past && key !in seen
    ensures key !in table && Flooded(Evict(table, limit)[key := value], past, seen + {key}, n + 1)
  {
    EvictInsert(table, key, value, limit);
  }

  /** A key without a rate entry starts a window of its own. */
  lemma NewcomerAdmitted(v: Verifier, q: Request)
    requires q.key !in v.rate && AbsDiff(q.now, q.timestamp) <= RELAY_MAX_AGE_SECS
    requires q.key in v.lastNonce ==> v.lastNonce[q.key] < q.nonce
    ensures Checked(v, q) == (v.(rate := Evict(v.rate, MAX_RELAY_TRACKED)[q.key := Window(q.now, 1)],
                                 lastNonce := Evict(v.lastNonce, MAX_RELAY_TRACKED)[q.key := q.nonce]),
                              Admitted)
  {
  }

  /** One request each, in time, from identities nobody has seen. */
  ghost predicate IsFlood(flood: seq<Request>, past: set<Key>) {
    && (forall i, j :: 0 <= i < j < |flood| ==> flood[i].key != flood[j].key)
    && (forall i :: 0 <= i < |flood| ==> flood[i].key !in past)
    && (forall i :: 0 <= i < |flood| ==> AbsDiff(flood[i].now, flood[i].timestamp) <= RELAY_MAX_AGE_SECS)
  }

  ghost predicate BothFlooded(v: Verifier, past: set<Key>, flood: seq<Request>, i: nat)
    requires i <= |flood|
  {
    Flooded(v.rate, past, KeysOf(flood[..i]), i) && Flooded(v.lastNonce, past, KeysOf(flood[..i]), i)
  }

  lemma KeysGrow(flood: seq<Request>, i: nat, past: set<Key>)
    requires i < |flood| && IsFlood(flood, past)
    ensures KeysOf(flood[..i + 1]) == KeysOf(flood[..i]) + {flood[i].key} && flood[i].key !in KeysOf(flood[..i])
  {
    var before, all := flood[..i], flood[..i + 1];
    assert all == before + [flood[i]];
    assert forall k :: 0 <= k < i ==> all[k] == before[k];
    assert all[i] == flood[i];
  }

  lemma FloodStep(v: Verifier, past: set<Key>, flood: seq<Request>, i: nat)
    requires i < |flood| && IsFlood(flood, past) && BothFlooded(v, past, flood, i)
    ensures Checked(v, flood[i]).1 == Admitted && BothFlooded(Checked(v, flood[i]).0, past, flood, i + 1)
  {
    var q, seen := flood[i], KeysOf(flood[..i]);
    KeysGrow(flood, i, past);
    FloodedStep(v.rate, past, seen, i, q.key, Window(q.now, 1), MAX_RELAY_TRACKED);
    FloodedStep(v.lastNonce, past, seen, i, q.key, q.nonce, MAX_RELAY_TRACKED);
    NewcomerAdmitted(v, q);
  }

  lemma Appended(run: seq<Request>, q: Request)
    ensures After(run + [q]) == Checked(After(run), q).0
    ensures AdmittedOf(run + [q]) == AdmittedOf(run) + if Checked(After(run), q).1 == Admitted then [q] else []
  {
    assert (run + [q])[..|run|] == run;
  }

  lemma SplitLast(a: seq<Request>, b: seq<Request>)
    requires b != []
    ensures a + b == a + b[..|b| - 1] + [b[|b| - 1]]
  {
  }

  /** If every request of a stretch is admitted from a state it may find, they all are, one after the other. */
  lemma {:induction false} Stretch(run: seq<Request>, more: seq<Request>, found: (nat, Verifier) -> bool)
    requires found(0, After(run))
    requires forall i, v :: 0 <= i < |more| && found(i, v) ==> Checked(v, more[i]).1 == Admitted && found(i + 1, Checked(v, more[i]).0)
    ensures found(|more|, After(run + more)) && AdmittedOf(run + more) == AdmittedOf(run) + more
    decreases |more|
  {
    if more == [] {
      assert run + more == run && AdmittedOf(run) + more == AdmittedOf(run);
    } else {
      var k := |more| - 1;
      Stretch(run, more[..k], found);
      SplitLast(run, more);
      SplitLast(AdmittedOf(run), more);
      Appended(run + more[..k], more[k]);
      assert found(k, After(run + more[..k]));
    }
  }

  /** Everybody in a flood gets in. */
  lemma FloodAdmitted(run: seq<Request>, flood: seq<Request>)
    requires IsFlood(flood, KeysOf(run))
    ensures BothFlooded(After(run + flood), KeysOf(run), flood, |flood|)
    ensures AdmittedOf(run + flood) == AdmittedOf(run) + flood
  {
    var past := KeysOf(run);
    var found := (i: nat, v: Verifier) => i <= |flood| && BothFlooded(v, past, flood, i);
    TableKeys(run);
    assert flood[..0] == [] && KeysOf([]) == {};
    forall i, v | 0 <= i < |flood| && found(i, v) ensures Checked(v, flood[i]).1 == Admitted && found(i + 1, Checked(v, flood[i]).0) {
      FloodStep(v, past, flood, i);
    }
    Stretch(run, flood, found);
  }

  const FLOOD := MAX_RELAY_TRACKED + 1

  lemma ForgottenAdmitted(v: Verifier, q: Request)
    requires q.key !in v.rate && q.key !in v.lastNonce && AbsDiff(q.now, q.timestamp) <= RELAY_MAX_AGE_SECS
    ensures Checked(v, q).1 == Admitted
  {
    NewcomerAdmitted(v, q);
  }

  /**
   * After any run, any 4097 or more requests in time from different new identities all get in
   * and make the relay forget everybody else: any request in time by a key of the run is then
   * admitted, whatever its nonce and however much of its quota is used up.
   */
  lemma FloodAdmitsAnything(run: seq<Request>, flood: seq<Request>, q: Request)
    requires IsFlood(flood, KeysOf(run)) && |flood| >= FLOOD
    requires q.key in KeysOf(run) && AbsDiff(q.now, q.timestamp) <= RELAY_MAX_AGE_SECS
    ensures AdmittedOf(run + flood + [q]) == AdmittedOf(run) + flood + [q]
  {
    FloodAdmitted(run, flood);
    TablesCapped(run + flood);
    ForgottenAdmitted(After(run + flood), q);
    Appended(run + flood, q);
  }

  /** A message admitted once is admitted again after a flood, while it is in time. */
  lemma ReplayAfterFlood(run: seq<Request>, flood: seq<Request>, q: Request, now: nat)
    requires IsFlood(flood, KeysOf(run)) && |flood| >= FLOOD && q in AdmittedOf(run) && AbsDiff(now, q.timestamp) <= RELAY_MAX_AGE_SECS
    ensures AdmittedOf(run + flood + [q.(now := now)]) == AdmittedOf(run) + flood + [q.(now := now)]
  {
    AdmittedArePresented(run, q);
    FloodAdmitsAnything(run, flood, q.(now := now));
  }

  /** However many admissions a key has had in a minute, after a flood within it there is one more. */
  lemma QuotaAfterFlood(run: seq<Request>, flood: seq<Request>, q: Request, t: nat)
    requires IsFlood(flood, KeysOf(run)) && |flood| >= FLOOD && q.key in KeysOf(run)
    requires AbsDiff(q.now, q.timestamp) <= RELAY_MAX_AGE_SECS && t <= q.now < t + 60
    ensures Admissions(AdmittedOf(run + flood + [q]), q.key, t, t + 60) == Admissions(AdmittedOf(run), q.key, t, t + 60) + 1
  {
    FloodAdmitsAnything(run, flood, q);
    OtherKeys(AdmittedOf(run), flood, q.key, t, t + 60);
    OneMore(AdmittedOf(run) + flood, q, q.key, t, t + 60);
  }

  // ---- New keys never run out ----

  lemma {:induction false} Longest(past: set<Bytes>) returns (bound: nat)
    ensures forall key :: key in past ==> |key| <= bound
    decreases past
  {
    if past == {} {
      bound := 0;
    } else {
      var key :| key in past;
      bound := Longest(past - {key});
      bound := if |key| > bound then |key| else bound;
    }
  }

  /** Outside any finite set of keys there is a flood of any size, all at one time. */
  lemma FloodExists(past: set<Key>, now: nat, n: nat) returns (flood: seq<Request>)
    ensures |flood| == n && IsFlood(flood, past) && forall i :: 0 <= i < n ==> flood[i].now == now
  {
    var bound := Longest(past);
    flood := seq(n, i requires 0 <= i => Request(Zeros(bound + 1 + i), 0, now, now));
    forall i | 0 <= i < n ensures flood[i].key == Zeros(bound + 1 + i) && flood[i].key !in past {
      assert flood[i] == Request(Zeros(bound + 1 + i), 0, now, now);
      assert |flood[i].key| > bound;
    }
    forall i, j | 0 <= i < j < n ensures flood[i].key != flood[j].key {
      assert |flood[i].key| == bound + 1 + i && |flood[j].key| == bound + 1 + j;
    }
  }

  lemma {:induction false} OtherKeys(log: seq<Request>, more: seq<Request>, key: Key, lo: int, hi: int)
    requires key !in KeysOf(more)
    ensures Admissions(log + more, key, lo, hi) == Admissions(log, key, lo, hi)
    decreases |more|
  {
    if more == [] {
      assert log + more == log;
    } else {
      var k := |more| - 1;
      assert log + more == log + more[..k] + [more[k]];
      KeysPrefix(more, k);
      assert more[k].key in KeysOf(more);
      OtherKeys(log, more[..k], key, lo, hi);
      OneMore(log + more[..k], more[k], key, lo, hi);
    }
  }

  // ---- A sender that starts over ----

  /** The requests of a sender whose nonces begin at 1 again, at the given times. */
  function Resent(key: Key, times: seq<nat>): (r: seq<Request>)
    ensures |r| == |times| && forall i :: 0 <= i < |r| ==> r[i] == Request(key, i + 1, times[i], times[i])
  {
    seq(|times|, i requires 0 <= i < |times| => Request(key, i + 1, times[i], times[i]))
  }

  /** While at most `last` requests have been sent again, nothing has changed; later the recorded nonce is one of them. */
  ghost predicate Restarting(v: Verifier, v0: Verifier, key: Key, last: nat, i: nat) {
    if i <= last then v == v0 else key in v.lastNonce ==> v.lastNonce[key] <= i
  }

  lemma RestartStep(v: Verifier, v0: Verifier, key: Key, last: nat, i: nat, t: nat)
    requires key in v0.lastNonce && v0.lastNonce[key] == last && Restarting(v, v0, key, last, i)
    ensures Checked(v, Request(key, i + 1, t, t)).1 == Replayed <==> i < last
    ensures Restarting(Checked(v, Request(key, i + 1, t, t)).0, v0, key, last, i + 1)
  {
  }

  lemma {:induction false} RestartState(run: seq<Request>, key: Key, times: seq<nat>)
    requires key in After(run).lastNonce
    ensures Restarting(After(run + Resent(key, times)), After(run), key, After(run).lastNonce[key], |times|)
    decreases |times|
  {
    if times == [] {
      assert run + Resent(key, times) == run;
    } else {
      var k := |times| - 1;
      RestartState(run, key, times[..k]);
      var before, q := run + Resent(key, times[..k]), Request(key, k + 1, times[k], times[k]);
      assert run + Resent(key, times) == before + [q];
      Appended(before, q);
      RestartStep(After(before), After(run), key, After(run).lastNonce[key], k, times[k]);
    }
  }

  /**
   * A sender that restarts begins with nonce 1 again: of its requests exactly as many are
   * refused as replays as the highest nonce on record for its key, and none after those.
   */
  lemma RestartRefusedIff(run: seq<Request>, key: Key, times: seq<nat>, i: nat)
    requires key in After(run).lastNonce && i < |times|
    ensures Checked(After(run + Resent(key, times[..i])), Resent(key, times)[i]).1 == Replayed <==> i < After(run).lastNonce[key]
  {
    RestartState(run, key, times[..i]);
    RestartStep(After(run + Resent(key, times[..i])), After(run), key, After(run).lastNonce[key], i, times[i]);
  }

  // ---- The exact number of keys ----

  /** The first `n` of an endless supply of keys. */
  function Pool(n: nat): set<Key> {
    set i | 0 <= i < n :: Zeros(i)
  }

  lemma {:induction false} PoolSize(n: nat)
    ensures |Pool(n)| == n
  {
    if n > 0 {
      PoolSize(n - 1);
      assert Pool(n) == Pool(n - 1) + {Zeros(n - 1)};
      assert forall key :: key in Pool(n - 1) ==> |key| < n - 1;
    }
  }

  // The key whose limits are broken, and one request by each of 4095 others.
  const A: Key := Zeros(0)
  const OTHERS := MAX_RELAY_TRACKED - 1

  function Others(nonce: nat, t: nat, k: nat): (r: seq<Request>)
    ensures |r| == k && forall i :: 0 <= i < k ==> r[i] == Request(Zeros(i + 1), nonce, t, t)
  {
    seq(k, i requires 0 <= i => Request(Zeros(i + 1), nonce, t, t))
  }

  /** All that `A` has in the rate table is one fresh entry, and every nonce so far is below `nonce`. */
  ghost predicate LapStart(v: Verifier, t: nat, nonce: nat) {
    && v.rate == map[A := Window(t, 1)]
    && forall key :: key in v.lastNonce ==> v.lastNonce[key] < nonce
  }

  /** The first k others have had their turn. */
  ghost predicate InLap(v: Verifier, t: nat, nonce: nat, k: nat) {
    v.rate.Keys == Pool(k + 1) && LapNonces(v.lastNonce, nonce, k)
  }

  /** The next of the others finds no entry of its own in the rate table, and an older nonce at most. */
  lemma LapTurn(v: Verifier, t: nat, nonce: nat, k: nat, q: Request)
    requires InLap(v, t, nonce, k) && k < OTHERS && q == Request(Zeros(k + 1), nonce, t, t)
    ensures q.key !in v.rate && (q.key in v.lastNonce ==> v.lastNonce[q.key] < nonce)
  {
    PoolStep(k + 1);
    assert |q.key| == k + 1;
  }

  lemma LapStep(v: Verifier, t: nat, nonce: nat, k: nat, v': Verifier)
    requires InLap(v, t, nonce, k) && k < OTHERS && v' == Checked(v, Request(Zeros(k + 1), nonce, t, t)).0
    ensures Checked(v, Request(Zeros(k + 1), nonce, t, t)).1 == Admitted && InLap(v', t, nonce, k + 1)
    ensures v.lastNonce.Keys == Pool(k + 1) ==> v'.lastNonce.Keys == Pool(k + 2)
  {
    var q := Request(Zeros(k + 1), nonce, t, t);
    LapTurn(v, t, nonce, k, q);
    NewcomerAdmitted(v, q);
    LapRates(v.rate, k + 1, k + 2, Window(t, 1), v'.rate);
    if v.lastNonce.Keys == Pool(k + 1) {
      LapRates(v.lastNonce, k + 1, k + 2, nonce, v'.lastNonce);
    }
    NoncesInLap(v.lastNonce, nonce, k, v'.lastNonce);
  }

  lemma LapRates<T>(table: map<Key, T>, n: nat, m: nat, value: T, table': map<Key, T>)
    requires table.Keys == Pool(n) && n < MAX_RELAY_TRACKED && m == n + 1 && table' == Evict(table, MAX_RELAY_TRACKED)[Zeros(n) := value]
    ensures table'.Keys == Pool(m)
  {
    PoolInsert(table, n, value);
  }

  lemma PoolInsert<T>(table: map<Key, T>, n: nat, value: T)
    requires table.Keys == Pool(n) && n < MAX_RELAY_TRACKED
    ensures Evict(table, MAX_RELAY_TRACKED)[Zeros(n) := value].Keys == Pool(n + 1)
  {
    PoolStep(n);
    assert |table.Keys| == n;
  }

  ghost predicate LapNonces(last: map<Key, nat>, nonce: nat, k: nat) {
    forall key :: key in last ==> last[key] < nonce || (last[key] == nonce && 1 <= |key| <= k)
  }

  lemma NoncesInLap(last: map<Key, nat>, nonce: nat, k: nat, last': map<Key, nat>)
    requires LapNonces(last, nonce, k) && last' == Evict(last, MAX_RELAY_TRACKED)[Zeros(k + 1) := nonce]
    ensures LapNonces(last', nonce, k + 1)
  {
  }

  lemma PoolStep(n: nat)
    ensures |Pool(n)| == n && Zeros(n) !in Pool(n) && Pool(n + 1) == Pool(n) + {Zeros(n)}
  {
    PoolSize(n);
  }

  ghost predicate InFirstLap(v: Verifier, first: bool, i: nat) {
    first ==> v.lastNonce.Keys == Pool(i + 1)
  }

  lemma LapGoesOn(t: nat, nonce: nat, first: bool, others: seq<Request>, found: (nat, Verifier) -> bool)
    requires others == Others(nonce, t, OTHERS)
    requires forall i, v :: found(i, v) == (InLap(v, t, nonce, i) && InFirstLap(v, first, i))
    ensures forall i, v :: 0 <= i < |others| && found(i, v) ==> Checked(v, others[i]).1 == Admitted && found(i + 1, Checked(v, others[i]).0)
  {
    forall i, v | 0 <= i < |others| && found(i, v) ensures Checked(v, others[i]).1 == Admitted && found(i + 1, Checked(v, others[i]).0) {
      assert others[i] == Request(Zeros(i + 1), nonce, t, t);
      LapStep(v, t, nonce, i, Checked(v, others[i]).0);
    }
  }

  lemma LapAdmitted(run: seq<Request>, t: nat, nonce: nat)
    requires LapStart(After(run), t, nonce)
    ensures InLap(After(run + Others(nonce, t, OTHERS)), t, nonce, OTHERS)
    ensures AdmittedOf(run + Others(nonce, t, OTHERS)) == AdmittedOf(run) + Others(nonce, t, OTHERS)
    ensures After(run).lastNonce.Keys == {A} ==> After(run + Others(nonce, t, OTHERS)).lastNonce.Keys == Pool(MAX_RELAY_TRACKED)
  {
    var first := After(run).lastNonce.Keys == {A};
    var found := (i: nat, v: Verifier) => InLap(v, t, nonce, i) && InFirstLap(v, first, i);
    assert Pool(1) == {A};
    LapGoesOn(t, nonce, first, Others(nonce, t, OTHERS), found);
    Stretch(run, Others(nonce, t, OTHERS), found);
  }

  /** With the table full, A's next request starts from nothing. */
  lemma LapEnds(v: Verifier, t: nat, nonce: nat, v': Verifier)
    requires InLap(v, t, nonce, OTHERS) && v' == Checked(v, Request(A, nonce, t, t)).0
    ensures Checked(v, Request(A, nonce, t, t)).1 == Admitted && LapStart(v', t, nonce + 1)
  {
    PoolSize(MAX_RELAY_TRACKED);
    assert |v.rate.Keys| == MAX_RELAY_TRACKED;
  }

  /** One request by A, then laps of everybody else followed by A again, all at time t. */
  function Laps(t: nat, n: nat): seq<Request> {
    if n == 0 then [Request(A, 0, t, t)] else Laps(t, n - 1) + Others(n, t, OTHERS) + [Request(A, n, t, t)]
  }

  lemma {:induction false} LapsAdmitted(t: nat, n: nat)
    ensures LapStart(After(Laps(t, n)), t, n + 1) && AdmittedOf(Laps(t, n)) == Laps(t, n)
  {
    if n == 0 {
      FirstOfLaps(t);
    } else {
      LapsAdmitted(t, n - 1);
      NextLap(Laps(t, n - 1), t, n);
    }
  }

  lemma NextLap(run: seq<Request>, t: nat, n: nat)
    requires LapStart(After(run), t, n) && AdmittedOf(run) == run
    ensures var next := run + Others(n, t, OTHERS) + [Request(A, n, t, t)];
            LapStart(After(next), t, n + 1) && AdmittedOf(next) == next
  {
    var others, q := Others(n, t, OTHERS), Request(A, n, t, t);
    LapAdmitted(run, t, n);
    Appended(run + others, q);
    LapEnds(After(run + others), t, n, Checked(After(run + others), q).0);
  }

  lemma {:induction false} LapsCount(t: nat, n: nat)
    ensures Admissions(Laps(t, n), A, t, t + 60) == n + 1
  {
    if n == 0 {
      FirstOfLaps(t);
    } else {
      LapsCount(t, n - 1);
      var run, others, q := Laps(t, n - 1), Others(n, t, OTHERS), Request(A, n, t, t);
      OtherKeys(run, others, A, t, t + 60);
      OneMore(run + others, q, A, t, t + 60);
    }
  }

  lemma {:induction false} LapsFrom(t: nat, n: nat)
    ensures forall i :: 0 <= i < |Laps(t, n)| ==> Laps(t, n)[i].now == t && Laps(t, n)[i].key in Pool(MAX_RELAY_TRACKED)
  {
    if n == 0 {
      FirstOfLaps(t);
    } else {
      LapsFrom(t, n - 1);
      forall i | 0 <= i < OTHERS ensures Others(n, t, OTHERS)[i].key in Pool(MAX_RELAY_TRACKED) {}
      FirstOfLaps(t);
    }
  }

  lemma FirstOfLaps(t: nat)
    ensures After(Laps(t, 0)) == Verifier(map[A := 0], map[A := Window(t, 1)], map[])
    ensures AdmittedOf(Laps(t, 0)) == Laps(t, 0) && Admissions(Laps(t, 0), A, t, t + 60) == 1
    ensures A in Pool(MAX_RELAY_TRACKED)
  {
    var q := Request(A, 0, t, t);
    assert [] + [q] == Laps(t, 0);
    Appended([], q);
    OneMore([], q, A, t, t + 60);
  }

  lemma LapsKeys(t: nat, n: nat)
    ensures |KeysOf(Laps(t, n))| <= MAX_RELAY_TRACKED && ClockForward(Laps(t, n))
  {
    LapsFrom(t, n);
    PoolSize(MAX_RELAY_TRACKED);
    SubsetSize(KeysOf(Laps(t, n)), Pool(MAX_RELAY_TRACKED));
  }

  /** Every key of every run with a forward clock and at most `keys` keys stays within 120 a minute. */
  ghost predicate RateGuaranteed(keys: nat) {
    forall run, key, t :: ClockForward(run) && |KeysOf(run)| <= keys ==> InMinute(AdmittedOf(run), key, t) <= 120
  }

  /** The rate limit is guaranteed for fewer than 4096 keys and for no larger number. */
  lemma RateGuaranteedIff(keys: nat)
    ensures RateGuaranteed(keys) <==> keys < MAX_RELAY_TRACKED
  {
    if keys < MAX_RELAY_TRACKED {
      forall run, key, t | ClockForward(run) && |KeysOf(run)| <= keys ensures InMinute(AdmittedOf(run), key, t) <= 120 {
        RateLimit(run, key, t);
      }
    } else {
      NoRateBound(0, 120);
      assert InMinute(AdmittedOf(Laps(0, 120)), A, 0) > 120;
    }
  }

  /** With 4096 keys there is no bound at all: any number of admissions within one second. */
  lemma NoRateBound(t: nat, n: nat)
    ensures ClockForward(Laps(t, n)) && |KeysOf(Laps(t, n))| <= MAX_RELAY_TRACKED
    ensures InMinute(AdmittedOf(Laps(t, n)), A, t) == n + 1
  {
    LapsAdmitted(t, n);
    LapsCount(t, n);
    LapsKeys(t, n);
  }

  // ---- The exact number of admitted keys for replay protection ----

  ghost predicate Increasing(log: seq<Request>) {
    forall i, j :: 0 <= i < j < |log| && log[i].key == log[j].key ==> log[i].nonce < log[j].nonce
  }

  ghost predicate NoncesGuaranteed(keys: nat) {
    forall run :: |KeysOf(AdmittedOf(run))| <= keys ==> Increasing(AdmittedOf(run))
  }

  /** A, 4095 others, one of them again, then A's very first message again. */
  function ReplayRun(t: nat): seq<Request> {
    Laps(t, 0) + Others(1, t, OTHERS) + [Request(Zeros(1), 2, t, t)] + [Request(A, 0, t, t)]
  }

  lemma ReplayRunAdmitted(t: nat)
    ensures AdmittedOf(ReplayRun(t)) == ReplayRun(t)
  {
    var first, others, q, again := Laps(t, 0), Others(1, t, OTHERS), Request(Zeros(1), 2, t, t), Request(A, 0, t, t);
    FirstOfLaps(t);
    LapAdmitted(first, t, 1);
    ReplayOfFirst(After(first + others), t);
    Appended(first + others, q);
    Appended(first + others + [q], again);
  }

  lemma ReplayRunRepeats(t: nat)
    ensures |KeysOf(ReplayRun(t))| <= MAX_RELAY_TRACKED && !Increasing(ReplayRun(t))
  {
    var all := ReplayRun(t);
    assert all[0] == Request(A, 0, t, t) == all[|all| - 1];
    forall i | 0 <= i < |all| ensures all[i].key in Pool(MAX_RELAY_TRACKED) {
      if 1 <= i <= OTHERS {
        assert all[i] == Others(1, t, OTHERS)[i - 1];
      }
    }
    PoolSize(MAX_RELAY_TRACKED);
    SubsetSize(KeysOf(all), Pool(MAX_RELAY_TRACKED));
  }

  lemma ReplayOfFirst(v: Verifier, t: nat)
    requires InLap(v, t, 1, OTHERS) && v.lastNonce.Keys == Pool(MAX_RELAY_TRACKED)
    ensures var (v1, verdict) := Checked(v, Request(Zeros(1), 2, t, t));
            verdict == Admitted && Checked(v1, Request(A, 0, t, t)).1 == Admitted
  {
    PoolSize(MAX_RELAY_TRACKED);
    assert |v.rate.Keys| == MAX_RELAY_TRACKED && |v.lastNonce.Keys| == MAX_RELAY_TRACKED;
  }

  /** Replay protection is guaranteed for fewer than 4096 admitted keys and for no larger number. */
  lemma NoncesGuaranteedIff(keys: nat)
    ensures NoncesGuaranteed(keys) <==> keys < MAX_RELAY_TRACKED
  {
    if keys < MAX_RELAY_TRACKED {
      forall run | |KeysOf(AdmittedOf(run))| <= keys ensures Increasing(AdmittedOf(run)) {
        NoncesHold(run);
      }
    } else {
      ReplayRunAdmitted(0);
      ReplayRunRepeats(0);
      assert |KeysOf(AdmittedOf(ReplayRun(0)))| <= keys;
    }
  }

  // ---- Pins ----

  ghost predicate PinsGuaranteed(senders: nat) {
    forall run :: |SendersOf(run)| <= senders ==> FirstKeyRule(run)
  }

  /** One attempt each by the first n senders, all with the empty key. */
  function Arrivals(n: nat): (r: seq<Attempt>)
    ensures |r| == n && forall i :: 0 <= i < n ==> r[i] == Attempt(Zeros(i), [])
  {
    seq(n, i requires 0 <= i => Attempt(Zeros(i), []))
  }

  lemma PinAppended(run: seq<Attempt>, a: Attempt)
    ensures PinnedAfter(run + [a]) == Pin(PinnedAfter(run), a.sender, a.key).0
  {
    assert (run + [a])[..|run|] == run;
  }

  lemma ArrivalsLast(n: nat)
    requires n > 0
    ensures Arrivals(n) == Arrivals(n - 1) + [Attempt(Zeros(n - 1), [])]
  {
  }

  lemma NewSenderPinned(v: Verifier, sender: Uid, key: Key)
    requires sender !in v.pins
    ensures Pin(v, sender, key).0.pins == Evict(v.pins, MAX_RELAY_PINS)[sender := key] && Pin(v, sender, key).1
  {
  }

  lemma {:induction false} ArrivalsPinned(n: nat)
    requires n <= MAX_RELAY_PINS
    ensures PinnedAfter(Arrivals(n)).pins.Keys == Pool(n)
  {
    if n > 0 {
      ArrivalsPinned(n - 1);
      ArrivalsLast(n);
      PinAppended(Arrivals(n - 1), Attempt(Zeros(n - 1), []));
      PoolStep(n - 1);
      NewSenderPinned(PinnedAfter(Arrivals(n - 1)), Zeros(n - 1), []);
      PoolInsert(PinnedAfter(Arrivals(n - 1)).pins, n - 1, []);
    }
  }

  /** 4097 senders, then the first one with another key. */
  function ImpostorRun(): seq<Attempt> {
    Arrivals(MAX_RELAY_PINS + 1) + [Attempt(Zeros(0), [0])]
  }

  lemma ImpostorAccepted()
    ensures |SendersOf(ImpostorRun())| <= MAX_RELAY_PINS + 1 && !FirstKeyRule(ImpostorRun())
  {
    var n := MAX_RELAY_PINS;
    var run := ImpostorRun();
    ArrivalsPinned(n);
    PoolSize(n);
    assert |PinnedAfter(Arrivals(n)).pins.Keys| == n;
    assert Arrivals(n + 1)[..n] == Arrivals(n) && run[..n + 1] == Arrivals(n + 1);
    assert PinnedAfter(Arrivals(n + 1)).pins == map[Zeros(n) := []];
    assert Accepted(run, n + 1) && IsFirst(run, 0) && run[0].key == [];
    PoolSize(n + 1);
    SubsetSize(SendersOf(run), Pool(n + 1));
  }

  /** First keys are guaranteed for up to 4096 senders and for no larger number. */
  lemma PinsGuaranteedIff(senders: nat)
    ensures PinsGuaranteed(senders) <==> senders <= MAX_RELAY_PINS
  {
    if senders <= MAX_RELAY_PINS {
      forall run | |SendersOf(run)| <= senders ensures FirstKeyRule(run) {
        OnlyFirstKeyAccepted(run);
      }
    } else {
      ImpostorAccepted();
    }
  }

  /** Attempts by different senders nobody has seen. */
  ghost predicate AreStrangers(strangers: seq<Attempt>, past: set<Uid>) {
    && (forall i, j :: 0 <= i < j < |strangers| ==> strangers[i].sender != strangers[j].sender)
    && (forall i :: 0 <= i < |strangers| ==> strangers[i].sender !in past)
  }

  ghost predicate PinFlooded(v: Verifier, past: set<Uid>, seen: set<Uid>, n: nat) {
    Flooded(v.pins, past, seen, n) && |v.pins| <= MAX_RELAY_PINS
  }

  lemma StrangerStep(v: Verifier, past: set<Uid>, seen: set<Uid>, n: nat, a: Attempt, v': Verifier)
    requires PinFlooded(v, past, seen, n) && a.sender !in past && a.sender !in seen && v' == Pin(v, a.sender, a.key).0
    ensures PinFlooded(v', past, seen + {a.sender}, n + 1)
  {
    FloodedStep(v.pins, past, seen, n, a.sender, a.key, MAX_RELAY_PINS);
    NewSenderPinned(v, a.sender, a.key);
    EvictInsert(v.pins, a.sender, a.key, MAX_RELAY_PINS);
  }

  lemma StrangersLast(run: seq<Attempt>, strangers: seq<Attempt>, k: nat)
    requires k + 1 == |strangers| && forall i, j :: 0 <= i < j < |strangers| ==> strangers[i].sender != strangers[j].sender
    ensures run + strangers == run + strangers[..k] + [strangers[k]]
    ensures SendersOf(strangers) == SendersOf(strangers[..k]) + {strangers[k].sender} && strangers[k].sender !in SendersOf(strangers[..k])
  {
    SendersStep(strangers, k);
  }

  lemma {:induction false} StrangersFlood(run: seq<Attempt>, strangers: seq<Attempt>, past: set<Uid>)
    requires PinFlooded(PinnedAfter(run), past, {}, 0) && AreStrangers(strangers, past)
    ensures PinFlooded(PinnedAfter(run + strangers), past, SendersOf(strangers), |strangers|)
    decreases |strangers|
  {
    if strangers == [] {
      assert run + strangers == run && SendersOf(strangers) == {};
    } else {
      var k := |strangers| - 1;
      StrangersFlood(run, strangers[..k], past);
      StrangersLast(run, strangers, k);
      PinAppended(run + strangers[..k], strangers[k]);
      StrangerStep(PinnedAfter(run + strangers[..k]), past, SendersOf(strangers[..k]), k, strangers[k], PinnedAfter(run + strangers));
    }
  }

  lemma {:induction false} PinsCapped(run: seq<Attempt>)
    ensures |PinnedAfter(run).pins| <= MAX_RELAY_PINS
  {
    if run != [] {
      PinsCapped(run[..|run| - 1]);
    }
  }

  /** After any run, any 4097 or more strangers make the relay forget a sender's key: any other key then passes. */
  lemma ImpostorAfterStrangers(run: seq<Attempt>, strangers: seq<Attempt>, a: Attempt)
    requires AreStrangers(strangers, SendersOf(run)) && |strangers| > MAX_RELAY_PINS && a.sender in SendersOf(run)
    ensures Accepted(run + strangers + [a], |run| + |strangers|)
  {
    PinsAreSenders(run);
    PinsCapped(run);
    StrangersFlood(run, strangers, SendersOf(run));
    var all := run + strangers + [a];
    assert all[..|run| + |strangers|] == run + strangers;
    NewSenderPinned(PinnedAfter(run + strangers), a.sender, a.key);
  }
}
