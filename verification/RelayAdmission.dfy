/** Admission control for relayed messages: nonces, freshness, rate limit, key pins. */
module RelayAdmission {
  import opened ByteStrings

  const RELAY_MAX_AGE_SECS := 60
  const RELAY_RATE_WINDOW_SECS := 60
  const RELAY_MAX_PER_WINDOW := 60
  const MAX_RELAY_TRACKED := 4096
  const MAX_RELAY_PINS := 4096

  type Key = Bytes

  datatype Window = Window(start: nat, count: nat)

  datatype Verifier = Verifier(lastNonce: map<Key, nat>, rate: map<Key, Window>, pins: map<Uid, Key>)

  const NewVerifier := Verifier(map[], map[], map[])

  datatype Verdict = Admitted | Replayed | Stale | RateLimited

  function AbsDiff(a: nat, b: nat): nat {
    if a < b then b - a else a - b
  }

  /** The window that applies to a request made now. */
  function WindowAt(rate: map<Key, Window>, key: Key, now: nat): Window {
    if key in rate && AbsDiff(now, rate[key].start) < RELAY_RATE_WINDOW_SECS then rate[key] else Window(now, 0)
  }

  /** A table that has reached its bound is emptied before the next insertion. */
  function Evict<T>(table: map<Bytes, T>, bound: nat): map<Bytes, T> {
    if |table| >= bound then map[] else table
  }

  function Check(v: Verifier, key: Key, nonce: nat, timestamp: nat, now: nat): (Verifier, Verdict) {
    if key in v.lastNonce && nonce <= v.lastNonce[key] then (v, Replayed)
    else if AbsDiff(now, timestamp) > RELAY_MAX_AGE_SECS then (v, Stale)
    else
      var rate := Evict(v.rate, MAX_RELAY_TRACKED);
      var window := WindowAt(rate, key, now);
      if window.count >= RELAY_MAX_PER_WINDOW then (v.(rate := rate[key := window]), RateLimited)
      else
        (v.(rate := rate[key := window.(count := window.count + 1)],
            lastNonce := Evict(v.lastNonce, MAX_RELAY_TRACKED)[key := nonce]),
         Admitted)
  }

  /** Trust on first use: a sender's first key is pinned, another one refused. */
  function Pin(v: Verifier, sender: Uid, key: Key): (Verifier, bool) {
    if sender in v.pins then (v, v.pins[sender] == key)
    else (v.(pins := Evict(v.pins, MAX_RELAY_PINS)[sender := key]), true)
  }

  class RelayVerifier {
    var lastNonce: map<Key, nat>
    var rate: map<Key, Window>
    var keyPins: map<Uid, Key>

    function View(): Verifier
      reads this
    {
      Verifier(lastNonce, rate, keyPins)
    }

    constructor ()
      ensures View() == NewVerifier
    {
      lastNonce, rate, keyPins := map[], map[], map[];
    }

    method PinKey(sender: Uid, key: Key) returns (ok: bool)
      modifies this
      ensures (View(), ok) == Pin(old(View()), sender, key)
      ensures sender in old(keyPins) ==> keyPins == old(keyPins) && (ok <==> old(keyPins)[sender] == key)
      ensures sender !in old(keyPins) ==> ok && sender in keyPins && keyPins[sender] == key
      ensures lastNonce == old(lastNonce) && rate == old(rate)
    {
      if sender in keyPins {
        return keyPins[sender] == key;
      }
      if |keyPins| >= MAX_RELAY_PINS {
        keyPins := map[];
      }
      keyPins := keyPins[sender := key];
      ok := true;
    }

    method CheckMessage(key: Key, nonce: nat, timestamp: nat, now: nat) returns (r: Verdict)
      modifies this
      ensures (View(), r) == Check(old(View()), key, nonce, timestamp, now)
      ensures r == Replayed <==> key in old(lastNonce) && nonce <= old(lastNonce)[key]
      ensures r == Stale <==> r != Replayed && (now > timestamp + 60 || timestamp > now + 60)
      ensures r == Replayed || r == Stale ==> View() == old(View())
      ensures keyPins == old(keyPins) && (r != Admitted ==> lastNonce == old(lastNonce))
      ensures r == Admitted ==> key in lastNonce && lastNonce[key] == nonce && key in rate && 1 <= rate[key].count <= 60
      ensures r == RateLimited ==> key in old(rate) && old(rate)[key].count >= 60 && AbsDiff(now, old(rate)[key].start) < 60
    {
      if key in lastNonce && nonce <= lastNonce[key] {
        return Replayed;
      }
      if AbsDiff(now, timestamp) > RELAY_MAX_AGE_SECS {
        return Stale;
      }
      if |rate| >= MAX_RELAY_TRACKED {
        rate := map[];
      }
      ghost var kept := rate;
      if key !in rate {
        rate := rate[key := Window(now, 0)];
      }
      if AbsDiff(now, rate[key].start) >= RELAY_RATE_WINDOW_SECS {
        rate := rate[key := Window(now, 0)];
      }
      assert rate == kept[key := WindowAt(kept, key, now)];
      if rate[key].count >= RELAY_MAX_PER_WINDOW {
        return RateLimited;
      }
      rate := rate[key := rate[key].(count := rate[key].count + 1)];
      assert rate == kept[key := rate[key]];
      if |lastNonce| >= MAX_RELAY_TRACKED {
        lastNonce := map[];
      }
      lastNonce := lastNonce[key := nonce];
      r := Admitted;
    }
  }

  // ---- Runs of checks ----

  datatype Request = Request(key: Key, nonce: nat, timestamp: nat, now: nat)

  function Checked(v: Verifier, q: Request): (Verifier, Verdict) {
    Check(v, q.key, q.nonce, q.timestamp, q.now)
  }

  /** The verifier after a run of checks, starting empty. */
  function After(run: seq<Request>): Verifier {
    if run == [] then NewVerifier else Checked(After(run[..|run| - 1]), run[|run| - 1]).0
  }

  /** The requests of a run that were admitted, in order. */
  function AdmittedOf(run: seq<Request>): seq<Request> {
    if run == [] then []
    else
      var before, q := run[..|run| - 1], run[|run| - 1];
      AdmittedOf(before) + if Checked(After(before), q).1 == Admitted then [q] else []
  }

  /** Admissions of `key` at times in [lo, hi). */
  function Admissions(log: seq<Request>, key: Key, lo: int, hi: int): nat {
    if log == [] then 0
    else
      var q := log[|log| - 1];
      Admissions(log[..|log| - 1], key, lo, hi) + if q.key == key && lo <= q.now < hi then 1 else 0
  }

  predicate ClockForward(run: seq<Request>) {
    forall i, j :: 0 <= i < j < |run| ==> run[i].now <= run[j].now
  }

  function KeysOf(run: seq<Request>): set<Key> {
    set i | 0 <= i < |run| :: run[i].key
  }

  lemma KeysPrefix(run: seq<Request>, k: nat)
    requires k <= |run|
    ensures KeysOf(run[..k]) <= KeysOf(run) && |KeysOf(run[..k])| <= |KeysOf(run)|
  {
    assert forall i :: 0 <= i < k ==> run[..k][i] == run[i];
    SubsetSize(KeysOf(run[..k]), KeysOf(run));
  }

  // ---- Counting admissions ----

  lemma {:induction false} AdmissionsSplit(log: seq<Request>, key: Key, lo: int, mid: int, hi: int)
    requires lo <= mid <= hi
    ensures Admissions(log, key, lo, hi) == Admissions(log, key, lo, mid) + Admissions(log, key, mid, hi)
  {
    if log != [] {
      AdmissionsSplit(log[..|log| - 1], key, lo, mid, hi);
    }
  }

  /** A wider interval holds at least as many admissions. */
  lemma AdmissionsGrow(log: seq<Request>, key: Key, lo: int, lo': int, hi': int, hi: int)
    requires lo <= lo' <= hi' <= hi
    ensures Admissions(log, key, lo', hi') <= Admissions(log, key, lo, hi)
  {
    AdmissionsSplit(log, key, lo, lo', hi);
    AdmissionsSplit(log, key, lo', hi', hi);
  }

  lemma OneMore(log: seq<Request>, q: Request, key: Key, lo: int, hi: int)
    ensures Admissions(log + [q], key, lo, hi) ==
            Admissions(log, key, lo, hi) + if q.key == key && lo <= q.now < hi then 1 else 0
  {
    assert (log + [q])[..|log|] == log;
  }

  // ---- The rate limit ----

  /** Admissions of `key` within the 60 seconds from `t`. */
  function InMinute(log: seq<Request>, key: Key, t: int): nat {
    Admissions(log, key, t, t + 60)
  }

  /** The table's entry for `key` counts exactly the admissions since its start; the minute before it was within limits. */
  ghost predicate WindowOk(log: seq<Request>, key: Key, w: Window) {
    && w.count <= RELAY_MAX_PER_WINDOW
    && CountsFrom(log, key, w.start, w.count)
    && Admissions(log, key, w.start - 60, w.start) <= RELAY_MAX_PER_WINDOW
  }

  ghost predicate MinutesOk(log: seq<Request>, key: Key) {
    forall t :: InMinute(log, key, t) <= 2 * RELAY_MAX_PER_WINDOW
  }

  ghost predicate RateOk(log: seq<Request>, rate: map<Key, Window>, key: Key, clock: nat) {
    && (key in rate ==> rate[key].start <= clock && WindowOk(log, key, rate[key]))
    && (key !in rate ==> forall lo, hi :: Admissions(log, key, lo, hi) == 0)
    && MinutesOk(log, key)
  }

  /** From `start` on, and as far ahead as one likes, there are `count` admissions. */
  ghost predicate CountsFrom(log: seq<Request>, key: Key, start: nat, count: nat) {
    forall hi :: hi >= start + 60 ==> Admissions(log, key, start, hi) == count
  }

  lemma CountGrows(log: seq<Request>, q: Request, start: nat, count: nat)
    requires CountsFrom(log, q.key, start, count) && start <= q.now < start + 60
    ensures CountsFrom(log + [q], q.key, start, count + 1)
  {
    forall hi | hi >= start + 60 ensures Admissions(log + [q], q.key, start, hi) == count + 1 {
      OneMore(log, q, q.key, start, hi);
    }
  }

  /** An admission inside the current window. */
  lemma WindowContinues(log: seq<Request>, q: Request, w: Window)
    requires WindowOk(log, q.key, w) && w.start <= q.now < w.start + 60 && w.count < RELAY_MAX_PER_WINDOW
    ensures WindowOk(log + [q], q.key, w.(count := w.count + 1))
  {
    CountGrows(log, q, w.start, w.count);
    OneMore(log, q, q.key, w.start - 60, w.start);
  }

  /** An admission that opens a new window. */
  lemma WindowOpens(log: seq<Request>, q: Request)
    requires forall hi :: hi >= q.now ==> Admissions(log, q.key, q.now, hi) == 0
    requires Admissions(log, q.key, q.now - 60, q.now) <= RELAY_MAX_PER_WINDOW
    ensures WindowOk(log + [q], q.key, Window(q.now, 1))
  {
    assert CountsFrom(log, q.key, q.now, 0);
    CountGrows(log, q, q.now, 0);
    OneMore(log, q, q.key, q.now - 60, q.now);
  }

  /** A window that is over leaves the next one room. */
  lemma WindowOver(log: seq<Request>, key: Key, w: Window, now: nat)
    requires WindowOk(log, key, w) && w.start + 60 <= now
    ensures forall hi :: hi >= now ==> Admissions(log, key, now, hi) == 0
    ensures Admissions(log, key, now - 60, now) <= RELAY_MAX_PER_WINDOW
  {
    forall hi | hi >= now ensures Admissions(log, key, now, hi) == 0 {
      AdmissionsSplit(log, key, w.start, now, hi);
    }
    AdmissionsGrow(log, key, w.start, now - 60, now, now);
  }

  /** Two neighbouring windows bound every minute. */
  lemma WindowBoundsMinute(log: seq<Request>, key: Key, w: Window, t: int)
    requires WindowOk(log, key, w) && w.start - 60 <= t
    ensures InMinute(log, key, t) <= 2 * RELAY_MAX_PER_WINDOW
  {
    if t >= w.start {
      AdmissionsGrow(log, key, w.start, t, t + 60, t + 60);
    } else {
      AdmissionsSplit(log, key, t, w.start, t + 60);
      AdmissionsGrow(log, key, w.start - 60, t, w.start, w.start);
      AdmissionsGrow(log, key, w.start, w.start, t + 60, w.start + 60);
    }
  }

  lemma MinutesKept(log: seq<Request>, q: Request, w: Window)
    requires MinutesOk(log, q.key) && WindowOk(log + [q], q.key, w) && w.start <= q.now
    ensures MinutesOk(log + [q], q.key)
  {
    forall t ensures InMinute(log + [q], q.key, t) <= 2 * RELAY_MAX_PER_WINDOW {
      OneMore(log, q, q.key, t, t + 60);
      if t <= q.now < t + 60 && w.start - 60 <= t {
        WindowBoundsMinute(log + [q], q.key, w, t);
      } else {
        assert InMinute(log, q.key, t) <= 2 * RELAY_MAX_PER_WINDOW;
      }
    }
  }

  lemma OtherKey(log: seq<Request>, rate: map<Key, Window>, key: Key, clock: nat, q: Request, rate': map<Key, Window>)
    requires RateOk(log, rate, key, clock) && clock <= q.now && q.key != key
    requires if key in rate then key in rate' && rate'[key] == rate[key] else key !in rate'
    ensures RateOk(log + [q], rate', key, q.now)
  {
    forall lo, hi ensures Admissions(log + [q], key, lo, hi) == Admissions(log, key, lo, hi) {
      OneMore(log, q, key, lo, hi);
    }
    forall t ensures InMinute(log + [q], key, t) == InMinute(log, key, t) {}
  }

  /** How a check changes the rate table while the table is not full. */
  lemma CheckedRate(v: Verifier, q: Request)
    requires |v.rate| < MAX_RELAY_TRACKED && (q.key in v.rate ==> v.rate[q.key].start <= q.now)
    ensures var (v', verdict) := Checked(v, q);
            if verdict != Admitted then v'.rate == v.rate
            else
              var w := if q.key in v.rate && q.now < v.rate[q.key].start + 60 then v.rate[q.key] else Window(q.now, 0);
              w.count < RELAY_MAX_PER_WINDOW && v'.rate == v.rate[q.key := w.(count := w.count + 1)]
  {
  }

  lemma AdmittedKeyRate(log: seq<Request>, rate: map<Key, Window>, clock: nat, q: Request, w: Window)
    requires RateOk(log, rate, q.key, clock) && clock <= q.now && w.count < RELAY_MAX_PER_WINDOW
    requires w == if q.key in rate && q.now < rate[q.key].start + 60 then rate[q.key] else Window(q.now, 0)
    ensures RateOk(log + [q], rate[q.key := w.(count := w.count + 1)], q.key, q.now)
  {
    if q.key in rate && q.now < rate[q.key].start + 60 {
      WindowContinues(log, q, w);
    } else {
      if q.key in rate {
        WindowOver(log, q.key, rate[q.key], q.now);
      }
      WindowOpens(log, q);
    }
    MinutesKept(log, q, w.(count := w.count + 1));
  }

  lemma RateStep(log: seq<Request>, v: Verifier, key: Key, clock: nat, q: Request, v': Verifier, log': seq<Request>)
    requires RateOk(log, v.rate, key, clock) && RateOk(log, v.rate, q.key, clock) && clock <= q.now && |v.rate| < MAX_RELAY_TRACKED
    requires v' == Checked(v, q).0 && log' == log + if Checked(v, q).1 == Admitted then [q] else []
    ensures RateOk(log', v'.rate, key, q.now)
  {
    CheckedRate(v, q);
    if Checked(v, q).1 == Admitted {
      var w := if q.key in v.rate && q.now < v.rate[q.key].start + 60 then v.rate[q.key] else Window(q.now, 0);
      if key == q.key {
        AdmittedKeyRate(log, v.rate, clock, q, w);
      } else {
        OtherKey(log, v.rate, key, clock, q, v'.rate);
      }
    } else {
      assert log' == log;
    }
  }

  function LastClock(run: seq<Request>): nat {
    if run == [] then 0 else run[|run| - 1].now
  }

  lemma {:induction false} TableBounded(run: seq<Request>)
    ensures After(run).rate.Keys <= KeysOf(run)
  {
    if run != [] {
      TableBounded(run[..|run| - 1]);
      KeysPrefix(run, |run| - 1);
      assert run[|run| - 1].key in KeysOf(run);
    }
  }

  lemma {:induction false} RateHolds(run: seq<Request>)
    requires ClockForward(run) && |KeysOf(run)| < MAX_RELAY_TRACKED
    ensures forall key :: RateOk(AdmittedOf(run), After(run).rate, key, LastClock(run))
  {
    if run != [] {
      var before, q := run[..|run| - 1], run[|run| - 1];
      KeysPrefix(run, |run| - 1);
      RateHolds(before);
      TableBounded(before);
      SubsetSize(After(before).rate.Keys, KeysOf(before));
      assert LastClock(before) <= q.now;
      forall key ensures RateOk(AdmittedOf(run), After(run).rate, key, q.now) {
        RateStep(AdmittedOf(before), After(before), key, LastClock(before), q, After(run), AdmittedOf(run));
      }
    }
  }

  /**
   * With a nondecreasing clock and fewer than 4096 keys presented: never more than 120
   * admissions of a key in any 60 seconds, nor more than 60 in the window being counted.
   */
  lemma RateLimit(run: seq<Request>, key: Key, t: int)
    requires ClockForward(run) && |KeysOf(run)| < MAX_RELAY_TRACKED
    ensures Admissions(AdmittedOf(run), key, t, t + 60) <= 120
    ensures key in After(run).rate ==>
              var w := After(run).rate[key];
              Admissions(AdmittedOf(run), key, w.start, w.start + 60) == w.count <= 60
  {
    RateHolds(run);
    assert RateOk(AdmittedOf(run), After(run).rate, key, LastClock(run));
    assert InMinute(AdmittedOf(run), key, t) <= 2 * RELAY_MAX_PER_WINDOW;
  }

  lemma AdmitsWhen(v: Verifier, q: Request)
    requires |v.rate| < MAX_RELAY_TRACKED && AbsDiff(q.now, q.timestamp) <= RELAY_MAX_AGE_SECS
    requires q.key in v.lastNonce ==> v.lastNonce[q.key] < q.nonce
    requires q.key in v.rate ==>
               v.rate[q.key].start <= q.now && (q.now < v.rate[q.key].start + 60 ==> v.rate[q.key].count < RELAY_MAX_PER_WINDOW)
    ensures Checked(v, q).1 == Admitted
  {
  }

  lemma {:induction false} NoneAfter(log: seq<Request>, key: Key, lo: int, hi: int)
    requires forall i :: 0 <= i < |log| ==> log[i].now < lo
    ensures Admissions(log, key, lo, hi) == 0
  {
    if log != [] {
      NoneAfter(log[..|log| - 1], key, lo, hi);
    }
  }

  /** What the current window counts happened in the last 60 seconds. */
  lemma RecentCount(log: seq<Request>, key: Key, w: Window, now: nat)
    requires WindowOk(log, key, w) && w.start <= now < w.start + 60 && forall i :: 0 <= i < |log| ==> log[i].now <= now
    ensures w.count <= Admissions(log, key, now - 59, now + 1)
  {
    NoneAfter(log, key, now + 1, w.start + 60);
    AdmissionsSplit(log, key, w.start, now + 1, w.start + 60);
    AdmissionsGrow(log, key, now - 59, w.start, now + 1, now + 1);
  }

  lemma {:induction false} AdmittedArePresented(run: seq<Request>, q: Request)
    ensures q in AdmittedOf(run) ==> q in run
  {
    if run != [] {
      AdmittedArePresented(run[..|run| - 1], q);
    }
  }

  lemma AdmittedEarlier(run: seq<Request>, now: nat)
    requires ClockForward(run) && LastClock(run) <= now
    ensures forall i :: 0 <= i < |AdmittedOf(run)| ==> AdmittedOf(run)[i].now <= now
  {
    forall i | 0 <= i < |AdmittedOf(run)| ensures AdmittedOf(run)[i].now <= now {
      AdmittedArePresented(run, AdmittedOf(run)[i]);
      var j :| 0 <= j < |run| && run[j] == AdmittedOf(run)[i];
      assert j == |run| - 1 || run[j].now <= run[|run| - 1].now;
    }
  }

  lemma RoomInWindow(log: seq<Request>, key: Key, w: Window, clock: nat, now: nat)
    requires WindowOk(log, key, w) && w.start <= clock <= now && forall i :: 0 <= i < |log| ==> log[i].now <= now
    requires Admissions(log, key, now - 59, now + 1) < RELAY_MAX_PER_WINDOW
    ensures w.start <= now && (now < w.start + 60 ==> w.count < RELAY_MAX_PER_WINDOW)
  {
    if now < w.start + 60 {
      RecentCount(log, key, w, now);
    }
  }

  lemma NonceAbove(run: seq<Request>, q: Request)
    requires forall i :: 0 <= i < |AdmittedOf(run)| && AdmittedOf(run)[i].key == q.key ==> AdmittedOf(run)[i].nonce < q.nonce
    ensures q.key in After(run).lastNonce ==> After(run).lastNonce[q.key] < q.nonce
  {
    NonceAdmitted(run, q.key);
  }

  /** The limiter is no stricter than advertised: below 60 admissions in the last minute, a fresh new nonce gets in. */
  lemma HonestAdmitted(run: seq<Request>, q: Request)
    requires ClockForward(run) && |KeysOf(run)| < MAX_RELAY_TRACKED && LastClock(run) <= q.now
    requires AbsDiff(q.now, q.timestamp) <= RELAY_MAX_AGE_SECS
    requires forall i :: 0 <= i < |AdmittedOf(run)| && AdmittedOf(run)[i].key == q.key ==> AdmittedOf(run)[i].nonce < q.nonce
    requires Admissions(AdmittedOf(run), q.key, q.now - 59, q.now + 1) < RELAY_MAX_PER_WINDOW
    ensures Checked(After(run), q).1 == Admitted
  {
    NonceAbove(run, q);
    TableBounded(run);
    SubsetSize(After(run).rate.Keys, KeysOf(run));
    RateHolds(run);
    AdmittedEarlier(run, q.now);
    HonestStep(AdmittedOf(run), After(run), LastClock(run), q);
  }

  lemma HonestStep(log: seq<Request>, v: Verifier, clock: nat, q: Request)
    requires RateOk(log, v.rate, q.key, clock) && |v.rate| < MAX_RELAY_TRACKED && clock <= q.now
    requires forall i :: 0 <= i < |log| ==> log[i].now <= q.now
    requires AbsDiff(q.now, q.timestamp) <= RELAY_MAX_AGE_SECS && (q.key in v.lastNonce ==> v.lastNonce[q.key] < q.nonce)
    requires Admissions(log, q.key, q.now - 59, q.now + 1) < RELAY_MAX_PER_WINDOW
    ensures Checked(v, q).1 == Admitted
  {
    if q.key in v.rate {
      RoomInWindow(log, q.key, v.rate[q.key], clock, q.now);
    }
    AdmitsWhen(v, q);
  }

  /** Nothing is admitted whose timestamp is more than 60 seconds off. */
  lemma {:induction false} AdmittedFresh(run: seq<Request>, i: nat)
    requires i < |AdmittedOf(run)|
    ensures AbsDiff(AdmittedOf(run)[i].now, AdmittedOf(run)[i].timestamp) <= RELAY_MAX_AGE_SECS
  {
    var before := run[..|run| - 1];
    if i < |AdmittedOf(before)| {
      AdmittedFresh(before, i);
    }
  }

  // ---- Replay protection ----

  /** How a check changes the nonce table. */
  lemma CheckedNonce(v: Verifier, q: Request)
    ensures var (v', verdict) := Checked(v, q);
            if verdict == Admitted then
              && (q.key in v.lastNonce ==> v.lastNonce[q.key] < q.nonce)
              && v'.lastNonce == Evict(v.lastNonce, MAX_RELAY_TRACKED)[q.key := q.nonce]
            else v'.lastNonce == v.lastNonce
  {
  }

  /** Every recorded nonce was admitted. */
  lemma {:induction false} NonceAdmitted(run: seq<Request>, key: Key)
    ensures key in After(run).lastNonce ==>
              exists i :: 0 <= i < |AdmittedOf(run)| && AdmittedOf(run)[i].key == key && AdmittedOf(run)[i].nonce == After(run).lastNonce[key]
  {
    if run != [] {
      var before, q := run[..|run| - 1], run[|run| - 1];
      NonceAdmitted(before, key);
      CheckedNonce(After(before), q);
      if key in After(run).lastNonce && !(q.key == key && Checked(After(before), q).1 == Admitted) {
        var i :| 0 <= i < |AdmittedOf(before)| && AdmittedOf(before)[i].key == key && AdmittedOf(before)[i].nonce == After(before).lastNonce[key];
        assert AdmittedOf(run)[i] == AdmittedOf(before)[i];
      } else if key in After(run).lastNonce {
        assert AdmittedOf(run)[|AdmittedOf(run)| - 1] == q;
      }
    }
  }

  lemma NonceKeys(run: seq<Request>)
    ensures After(run).lastNonce.Keys <= KeysOf(AdmittedOf(run)) && |After(run).lastNonce| <= |KeysOf(AdmittedOf(run))|
  {
    forall key | key in After(run).lastNonce ensures key in KeysOf(AdmittedOf(run)) {
      NonceAdmitted(run, key);
    }
    SubsetSize(After(run).lastNonce.Keys, KeysOf(AdmittedOf(run)));
  }

  /** Nonces in the log strictly increase per key, and the table holds at least each of them. */
  ghost predicate NoncesOk(log: seq<Request>, last: map<Key, nat>) {
    && (forall i, j :: 0 <= i < j < |log| && log[i].key == log[j].key ==> log[i].nonce < log[j].nonce)
    && (forall i :: 0 <= i < |log| ==> log[i].key in last && log[i].nonce <= last[log[i].key])
  }

  lemma NoncesStep(log: seq<Request>, last: map<Key, nat>, q: Request)
    requires NoncesOk(log, last) && (q.key in last ==> last[q.key] < q.nonce)
    ensures NoncesOk(log + [q], last[q.key := q.nonce])
  {
  }

  lemma {:induction false} NoncesHold(run: seq<Request>)
    requires |KeysOf(AdmittedOf(run))| < MAX_RELAY_TRACKED
    ensures NoncesOk(AdmittedOf(run), After(run).lastNonce)
  {
    if run != [] {
      var before, q := run[..|run| - 1], run[|run| - 1];
      assert AdmittedOf(run)[..|AdmittedOf(before)|] == AdmittedOf(before);
      KeysPrefix(AdmittedOf(run), |AdmittedOf(before)|);
      NoncesHold(before);
      NonceKeys(before);
      CheckedNonce(After(before), q);
      if Checked(After(before), q).1 == Admitted {
        NoncesStep(AdmittedOf(before), After(before).lastNonce, q);
      }
    }
  }

  /** While fewer than 4096 keys have been admitted, the nonces admitted for a key strictly increase. */
  lemma NoncesIncrease(run: seq<Request>, i: nat, j: nat)
    requires |KeysOf(AdmittedOf(run))| < MAX_RELAY_TRACKED
    requires i < j < |AdmittedOf(run)| && AdmittedOf(run)[i].key == AdmittedOf(run)[j].key
    ensures AdmittedOf(run)[i].nonce < AdmittedOf(run)[j].nonce
  {
    NoncesHold(run);
  }

  // ---- Key pins ----

  datatype Attempt = Attempt(sender: Uid, key: Key)

  function PinnedAfter(run: seq<Attempt>): Verifier {
    if run == [] then NewVerifier else Pin(PinnedAfter(run[..|run| - 1]), run[|run| - 1].sender, run[|run| - 1].key).0
  }

  predicate Accepted(run: seq<Attempt>, i: nat)
    requires i < |run|
  {
    Pin(PinnedAfter(run[..i]), run[i].sender, run[i].key).1
  }

  function SendersOf(run: seq<Attempt>): set<Uid> {
    set i | 0 <= i < |run| :: run[i].sender
  }

  lemma SendersPrefix(run: seq<Attempt>, k: nat)
    requires k <= |run|
    ensures SendersOf(run[..k]) <= SendersOf(run) && |SendersOf(run[..k])| <= |SendersOf(run)|
  {
    assert forall i :: 0 <= i < k ==> run[..k][i] == run[i];
    SubsetSize(SendersOf(run[..k]), SendersOf(run));
  }

  lemma PinStep(v: Verifier, senders: set<Uid>, sender: Uid, key: Key)
    requires v.pins.Keys <= senders && (|senders| <= MAX_RELAY_PINS ==> v.pins.Keys == senders)
    ensures var v', all := Pin(v, sender, key).0, senders + {sender};
            v'.pins.Keys <= all && (|all| <= MAX_RELAY_PINS ==> v'.pins.Keys == all)
  {
    if sender !in senders {
      assert |senders + {sender}| == |senders| + 1;
    } else {
      assert senders + {sender} == senders;
    }
  }

  lemma SendersStep(run: seq<Attempt>, k: nat)
    requires k + 1 == |run|
    ensures SendersOf(run) == SendersOf(run[..k]) + {run[k].sender}
  {
    SendersPrefix(run, k);
  }

  lemma {:induction false} PinsAreSenders(run: seq<Attempt>)
    ensures PinnedAfter(run).pins.Keys <= SendersOf(run)
    ensures |SendersOf(run)| <= MAX_RELAY_PINS ==> PinnedAfter(run).pins.Keys == SendersOf(run)
  {
    if run != [] {
      var k := |run| - 1;
      PinsAreSenders(run[..k]);
      SendersStep(run, k);
      PinStep(PinnedAfter(run[..k]), SendersOf(run[..k]), run[k].sender, run[k].key);
    }
  }

  /** While no more than 4096 senders have been seen, each one's first key stays pinned. */
  lemma {:induction false} FirstKeyPinned(run: seq<Attempt>, first: nat)
    requires |SendersOf(run)| <= MAX_RELAY_PINS && first < |run|
    requires forall i :: 0 <= i < first ==> run[i].sender != run[first].sender
    ensures run[first].sender in PinnedAfter(run).pins && PinnedAfter(run).pins[run[first].sender] == run[first].key
    decreases |run|
  {
    var k := |run| - 1;
    SendersPrefix(run, k);
    PinsAreSenders(run[..k]);
    SendersStep(run, k);
    if first < k {
      FirstKeyPinned(run[..k], first);
    }
  }

  /** Trust on first use: a key passes if and only if it is the one its sender came with first. */
  ghost predicate FirstKeyRule(run: seq<Attempt>) {
    forall first: nat, j: nat :: first <= j < |run| && IsFirst(run, first) && run[first].sender == run[j].sender ==>
      (Accepted(run, j) <==> run[j].key == run[first].key)
  }

  ghost predicate IsFirst(run: seq<Attempt>, first: nat) {
    first < |run| && forall i :: 0 <= i < first ==> run[i].sender != run[first].sender
  }

  /** The rule holds over every run with at most 4096 senders. */
  lemma OnlyFirstKeyAccepted(run: seq<Attempt>)
    requires |SendersOf(run)| <= MAX_RELAY_PINS
    ensures FirstKeyRule(run)
  {
    forall first: nat, j: nat | first <= j < |run| && IsFirst(run, first) && run[first].sender == run[j].sender
      ensures Accepted(run, j) <==> run[j].key == run[first].key
    {
      SendersPrefix(run, j);
      if first < j {
        assert run[..j][first] == run[first];
        FirstKeyPinned(run[..j], first);
      } else {
        PinsAreSenders(run[..j]);
      }
    }
  }
}
