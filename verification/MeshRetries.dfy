/** What becomes of a message whose rounds expire: it is tried again without end. */
module MeshRetries {
  import opened ByteStrings
  import opened RoundNetwork
  import opened MeshDriver
  import opened MeshInvariant
  import opened Mesh
  import opened MeshRestart
  import opened MeshTermination

  /** What a retry that cannot be started leaves: no round of ours in flight. */
  lemma RefusedRetry(x: Context, d: Driver, text: Bytes, group: set<Uid>, now: nat)
    requires x.Valid() && !CanInitiate(x, text, group) && d.pendingMessage == Some(text) && d.pendingRound.None?
    ensures RetryPending(x, d, group, now).pendingRound.None?
  {
    var list := x.uidOrder(group);
    assert Enumerates(list, group);
    EnumerationSize(list, group);
  }

  /** Our round expires: the message is tried again if and only if a round with this text can be started in this group. */
  lemma RetriedIff(x: Context, d: Driver, text: Bytes, group: set<Uid>, now: nat, d': Driver)
    requires Waiting(d, text, group) && x.Valid() && group != {} && d' == ExpireOne(x, d, d.current, now)
    ensures d'.pendingRound.Some? <==> CanInitiate(x, text, group)
    ensures d'.pendingRound.Some? ==> d'.pendingRound == Some(d.current + 1) && d'.retries == 0
  {
    if CanInitiate(x, text, group) {
      StartedAgain(x, d, text, group, now, d');
    } else {
      NotStartedAgain(x, d, text, group, now, d');
    }
  }

  lemma StartedAgain(x: Context, d: Driver, text: Bytes, group: set<Uid>, now: nat, d': Driver)
    requires CanInitiate(x, text, group) && Waiting(d, text, group) && d' == ExpireOne(x, d, d.current, now)
    ensures Restarted(d, text, group, now, d')
  {
    ListedGroup(x, text, group);
    ExpiryRestarts(x, d, text, group, x.uidOrder(group), now, d');
  }

  lemma NotStartedAgain(x: Context, d: Driver, text: Bytes, group: set<Uid>, now: nat, d': Driver)
    requires x.Valid() && !CanInitiate(x, text, group) && Waiting(d, text, group) && group != {} && d' == ExpireOne(x, d, d.current, now)
    ensures d'.pendingRound.None?
  {
    ExpiryIsRetry(x, d, text, group, now);
    RefusedRetry(x, Discard(d, d.current), text, group, now);
  }

  // ---- When a retry starts a round ----

  /**
   * With no round of ours in flight, a retry starts one if and only if fewer than three
   * retries were counted, a message is waiting and a round with it can be started; after three
   * the message is given up.
   */
  lemma RetryStartsIff(x: Context, d: Driver, group: set<Uid>, now: nat, d': Driver)
    requires x.Valid() && d.pendingRound.None? && d' == RetryPending(x, d, group, now)
    ensures d'.pendingRound.Some? <==> d.retries < 3 && d.pendingMessage.Some? && CanInitiate(x, d.pendingMessage.value, group)
    ensures d'.pendingRound.Some? ==> Restarted(d, d.pendingMessage.value, group, now, d')
    ensures d.retries >= 3 ==> d' == d.(pendingMessage := None)
    ensures d.retries < 3 && d'.pendingRound.None? ==> d'.retries == d.retries + 1 && d'.pendingMessage == d.pendingMessage
  {
    if d.retries < 3 && d.pendingMessage.Some? {
      if CanInitiate(x, d.pendingMessage.value, group) {
        ListedGroup(x, d.pendingMessage.value, group);
        RetryWaits(x, d, d.pendingMessage.value, group, x.uidOrder(group), now, d');
      } else {
        RefusedRetry(x, d, d.pendingMessage.value, group, now);
      }
    }
  }

  /**
   * A round of ours that completes without yielding a text, as when somebody sent a bad share
   * or the round was emitted before, is dropped and retried with the same message.
   */
  lemma GarbledRetried(x: Context, d: Driver, m: Message, now: nat, col: Collector, d1: Driver, d': Driver, a: Action) returns (d2: Driver)
    requires m.Share? && m.round in d.collectors && Submit(d.collectors[m.round], m.peer, m.payload) == Some(col)
    requires d1 == AcceptShare(x, d, m.round, col).0 && d1.collectors[m.round].IsComplete()
    requires Decode(x.crypto, d1.collectors[m.round]).None? || m.round in d.emitted
    requires d.pendingRound == Some(m.round) && d.retryAfterPeer.None? && (d', a) == OnRoundShare(x, d, m, true, now)
    ensures a.extracted.None? && d' == RetryPending(x, d2, col.participants, now)
    ensures d2.pendingRound.None? && d2.pendingMessage == d.pendingMessage && d2.retries == d.retries && d2.current == d.current
    ensures d2.collectors == d.collectors - {m.round}
  {
    var text := Decode(x.crypto, d1.collectors[m.round]);
    d2 := Complete(d1, m.round, text).0;
    GarbledLeaves(x, d, m.round, col, d1, text, d2);
    RetryKeepsPeer(x, d2, col.participants, now);
  }

  /** A round of ours that completes with its text is over: the text is emitted, nothing is pending and nothing is started. */
  lemma OwnRoundOver(x: Context, d: Driver, m: Message, now: nat, col: Collector, d1: Driver, text: Bytes, d': Driver, a: Action)
    requires m.Share? && m.round in d.collectors && Submit(d.collectors[m.round], m.peer, m.payload) == Some(col)
    requires d1 == AcceptShare(x, d, m.round, col).0 && d1.collectors[m.round].IsComplete()
    requires Decode(x.crypto, d1.collectors[m.round]) == Some(text) && m.round !in d.emitted
    requires d.pendingRound == Some(m.round) && d.retryAfterPeer.None? && (d', a) == OnRoundShare(x, d, m, true, now)
    ensures a.extracted == Some((m.round, text)) && d'.pendingRound.None? && d'.pendingMessage.None? && d'.myShare.None?
    ensures d'.pendingOutgoing == d.pendingOutgoing && d'.current == d.current
  {
  }

  lemma GarbledLeaves(x: Context, d: Driver, round: nat, col: Collector, d1: Driver, text: Option<Bytes>, d2: Driver)
    requires d1 == AcceptShare(x, d, round, col).0 && (text.None? || round in d.emitted) && d.pendingRound == Some(round)
    requires d2 == Complete(d1, round, text).0
    ensures Complete(d1, round, text).1.None? && d2.retryAfterPeer == d.retryAfterPeer && d2.pendingRound.None?
    ensures d2.pendingMessage == d.pendingMessage && d2.retries == d.retries && d2.current == d.current
    ensures d2.collectors == d.collectors - {round}
  {
    assert d1.collectors - {round} == d.collectors - {round};
  }

  lemma RetryKeepsPeer(x: Context, d: Driver, group: set<Uid>, now: nat)
    ensures RetryPending(x, d, group, now).retryAfterPeer == d.retryAfterPeer
  {
  }

  // ---- Expiry as part of handling a message ----

  /** Whatever else expires with it, before or after, our round is started again. */
  lemma {:induction false} ExpireAllRestarts(x: Context, d: Driver, text: Bytes, group: set<Uid>, list: seq<Uid>, ids: seq<nat>, now: nat)
    requires Startable(x, text, group, list) && Waiting(d, text, group)
    requires NoDuplicates(ids) && d.current in ids && forall id :: id in ids ==> id <= d.current
    ensures Restarted(d, text, group, now, ExpireAll(x, d, ids, now))
    decreases |ids|
  {
    assert ids == [ids[0]] + ids[1..];
    assert forall id :: id in ids[1..] ==> id in ids;
    if ids[0] == d.current {
      ExpiryRestarts(x, d, text, group, list, now, ExpireOne(x, d, d.current, now));
      LateExpiries(x, d, text, group, ExpireOne(x, d, d.current, now), ids[1..], now);
    } else {
      var d1 := d.(collectors := d.collectors - {ids[0]});
      assert ExpireOne(x, d, ids[0], now) == d1;
      ExpireAllRestarts(x, d1, text, group, list, ids[1..], now);
    }
  }

  lemma LateExpiries(x: Context, d: Driver, text: Bytes, group: set<Uid>, d1: Driver, ids: seq<nat>, now: nat)
    requires Restarted(d, text, group, now, d1) && forall id :: id in ids ==> id <= d.current
    ensures Restarted(d, text, group, now, ExpireAll(x, d1, ids, now))
  {
    ExpireOthers(x, d1, ids, now);
  }

  ghost predicate CollectsUpTo(d: Driver, k: nat) {
    forall r :: r in d.collectors ==> r <= k
  }

  /** Any old start that arrives once our round has expired makes us start the next one. */
  lemma HandlingRestarts(x: Context, d: Driver, text: Bytes, group: set<Uid>, list: seq<Uid>, m: Message, accepted: bool, now: nat, d': Driver)
    requires x.Valid() && Startable(x, text, group, list) && Waiting(d, text, group) && CollectsUpTo(d, d.current)
    requires d.collectors[d.current].deadline <= now && m.Start? && m.round <= d.current
    requires d' == Handle(x, d, m, accepted, now).0
    ensures Restarted(d, text, group, now, d')
  {
    var ids := x.roundOrder(Expired(d, now));
    assert Enumerates(ids, Expired(d, now)) && d.current in Expired(d, now);
    forall id | id in ids ensures id <= d.current {
      assert id in Expired(d, now);
    }
    ExpireAllRestarts(x, d, text, group, list, ids, now);
    StaleIgnored(x, DropExpired(x, d, now), m, accepted, now);
  }

  lemma StaleIgnored(x: Context, d: Driver, m: Message, accepted: bool, now: nat)
    requires m.Start? && m.round < d.current && d.pendingRound == Some(d.current)
    ensures React(x, d, m, accepted, now) == (d, NoAction)
  {
  }

  // ---- Runs of the mesh ----

  /** Every round in (lo, hi] was started by us with this text. */
  ghost predicate TriedAgain(d: Driver, lo: nat, hi: nat, text: Bytes) {
    forall r :: lo < r <= hi ==> r in d.hist.initiated && d.hist.initiated[r] == text
  }

  ghost predicate Remembers(d: Driver, d': Driver) {
    forall r :: r <= d.current && r in d.hist.initiated ==> r in d'.hist.initiated && d'.hist.initiated[r] == d.hist.initiated[r]
  }

  /** In a mesh of two or more, a node that is waiting can always start again. */
  lemma WaitingCanStart(cfg: Config, s: System, n: Uid, x: Context, text: Bytes)
    requires Inv(cfg, s) && n in s.nodes && ContextOf(cfg, n, x) && |cfg.parties| >= 2 && Waiting(s.nodes[n], text, cfg.parties)
    ensures Startable(x, text, cfg.parties, x.uidOrder(cfg.parties)) && CollectsUpTo(s.nodes[n], s.nodes[n].current)
  {
    NodeOf(cfg, s, n);
    NodePending(cfg, n, s.nodes[n]);
    NodeBounded(cfg, n, s.nodes[n]);
    ListedGroup(x, text, cfg.parties);
  }

  // Reaches under seal.
  ghost predicate Run(cfg: Config, steps: seq<Step>, s: System) {
    Sealed(_ => Reaches(cfg, steps, s))
  }

  lemma RunMeans(cfg: Config, steps: seq<Step>, s: System)
    ensures Run(cfg, steps, s) <==> Reaches(cfg, steps, s)
  {
    var p := (k: Seal) => Reaches(cfg, steps, s);
    assert p(Seal) <==> Reaches(cfg, steps, s);
  }

  lemma RunInv(cfg: Config, steps: seq<Step>, s: System)
    requires IsGroup(cfg) && cfg.Valid() && Run(cfg, steps, s)
    ensures Inv(cfg, s)
  {
    RunMeans(cfg, steps, s);
    RunKeepsInv(cfg, steps, s);
  }

  lemma RunStep(cfg: Config, steps: seq<Step>, s: System, st: Step, s': System)
    requires Run(cfg, steps, s) && Enabled(cfg, s, st) && s' == Apply(s, st)
    ensures Run(cfg, steps + [st], s')
  {
    RunMeans(cfg, steps, s);
    assert (steps + [st])[..|steps|] == steps && (steps + [st])[|steps|] == st;
    RunMeans(cfg, steps + [st], s');
  }

  /** Node `n` is waiting in round r with that deadline, and a start it has passed is on the network. */
  ghost predicate Trying(cfg: Config, s: System, n: Uid, text: Bytes, m: Message, r: nat, deadline: nat) {
    && n in s.nodes && Waiting(s.nodes[n], text, cfg.parties) && s.nodes[n].current == r
    && s.nodes[n].collectors[r].deadline == deadline && (n, m) in s.sent && m.Start? && m.round <= r
  }

  lemma ReceiveIsHandle(s: System, st: Step, m: Message)
    requires st.n in s.nodes && st.event == Receives(m, true)
    ensures Apply(s, st).nodes[st.n] == Handle(st.x, s.nodes[st.n], m, true, st.now).0 && s.sent <= Apply(s, st).sent
  {
  }

  /** Node `n` receives the same old start once more, when its round has just expired. */
  lemma RetryMove(cfg: Config, s: System, n: Uid, text: Bytes, m: Message, r: nat, now: nat) returns (st: Step, s': System)
    requires Inv(cfg, s) && |cfg.parties| >= 2 && Trying(cfg, s, n, text, m, r, now)
    ensures st.n == n && st.now == now && st.event == Receives(m, true) && Enabled(cfg, s, st) && s' == Apply(s, st)
    ensures Trying(cfg, s', n, text, m, r + 1, now + CHANNEL_ROUND_DEADLINE_SECS)
    ensures s'.nodes[n].hist.initiated == s.nodes[n].hist.initiated[r + 1 := text]
  {
    SetupOf(cfg, s);
    var x := SomeContext(cfg, n);
    WaitingCanStart(cfg, s, n, x, text);
    st := Step(n, x, now, Receives(m, true));
    s' := Apply(s, st);
    ReceiveIsHandle(s, st, m);
    HandlingRestarts(x, s.nodes[n], text, cfg.parties, x.uidOrder(cfg.parties), m, true, now, s'.nodes[n]);
  }

  lemma OneRetry(cfg: Config, steps: seq<Step>, s: System, n: Uid, text: Bytes, m: Message, r: nat, now: nat) returns (st: Step, s': System)
    requires IsGroup(cfg) && cfg.Valid() && Run(cfg, steps, s) && |cfg.parties| >= 2 && Trying(cfg, s, n, text, m, r, now)
    ensures st.n == n && st.now == now && st.event == Receives(m, true) && Run(cfg, steps + [st], s')
    ensures Trying(cfg, s', n, text, m, r + 1, now + CHANNEL_ROUND_DEADLINE_SECS)
    ensures s'.nodes[n].hist.initiated == s.nodes[n].hist.initiated[r + 1 := text]
  {
    RunInv(cfg, steps, s);
    st, s' := RetryMove(cfg, s, n, text, m, r, now);
    RunStep(cfg, steps, s, st, s');
  }

  /** The same old start is received k times, each time when the latest round has just expired. */
  ghost predicate Retrying(more: seq<Step>, n: Uid, m: Message, first: nat) {
    forall i :: 0 <= i < |more| ==>
      more[i].n == n && more[i].event == Receives(m, true) && more[i].now == first + i * CHANNEL_ROUND_DEADLINE_SECS
  }

  /**
   * From any reachable state in which a node waits for shares and some start that it has
   * passed is on the network, there are runs in which it tries its message again under the
   * next k round ids, for every k: there is no bound.
   */
  lemma RetriesUnbounded(cfg: Config, steps: seq<Step>, s: System, n: Uid, text: Bytes, m: Message, r: nat, deadline: nat, k: nat)
    returns (more: seq<Step>, s': System)
    requires IsGroup(cfg) && cfg.Valid() && Reaches(cfg, steps, s) && |cfg.parties| >= 2 && Trying(cfg, s, n, text, m, r, deadline)
    ensures |more| == k && Retrying(more, n, m, deadline) && Reaches(cfg, steps + more, s')
    ensures Trying(cfg, s', n, text, m, r + k, deadline + k * CHANNEL_ROUND_DEADLINE_SECS)
    ensures TriedAgain(s'.nodes[n], r, r + k, text) && Remembers(s.nodes[n], s'.nodes[n])
  {
    RunMeans(cfg, steps, s);
    more, s' := RetriesRun(cfg, steps, s, n, text, m, r, deadline, k);
    RunMeans(cfg, steps + more, s');
  }

  lemma {:induction false} RetriesRun(cfg: Config, steps: seq<Step>, s: System, n: Uid, text: Bytes, m: Message, r: nat, deadline: nat, k: nat)
    returns (more: seq<Step>, s': System)
    requires IsGroup(cfg) && cfg.Valid() && Run(cfg, steps, s) && |cfg.parties| >= 2 && Trying(cfg, s, n, text, m, r, deadline)
    ensures |more| == k && Retrying(more, n, m, deadline) && Run(cfg, steps + more, s')
    ensures Trying(cfg, s', n, text, m, r + k, deadline + k * CHANNEL_ROUND_DEADLINE_SECS)
    ensures TriedAgain(s'.nodes[n], r, r + k, text) && Remembers(s.nodes[n], s'.nodes[n])
    decreases k
  {
    if k == 0 {
      more, s' := [], s;
      assert steps + [] == steps;
    } else {
      var before, s1 := RetriesRun(cfg, steps, s, n, text, m, r, deadline, k - 1);
      var st;
      st, s' := OneRetry(cfg, steps + before, s1, n, text, m, r + k - 1, deadline + (k - 1) * CHANNEL_ROUND_DEADLINE_SECS);
      more := before + [st];
      assert steps + more == steps + before + [st];
      TriedOnceMore(s.nodes[n], s1.nodes[n], s'.nodes[n], r, k, text);
    }
  }

  lemma TriedOnceMore(d: Driver, d1: Driver, d': Driver, r: nat, k: nat, text: Bytes)
    requires k > 0 && d.current == r && TriedAgain(d1, r, r + k - 1, text) && Remembers(d, d1)
    requires d'.hist.initiated == d1.hist.initiated[r + k := text]
    ensures TriedAgain(d', r, r + k, text) && Remembers(d, d')
  {
  }

  // ---- From the very beginning ----

  /** A node that has never done anything initiates: its state and what it sends. */
  lemma FirstBegin(cfg: Config, x: Context, text: Bytes, list: seq<Uid>, share: Bytes, d': Driver, out: Outbox)
    requires Elements(list) == cfg.parties && (d', out) == Begin(x, NewDriver, text, list, share, 0)
    ensures Waiting(d', text, cfg.parties) && d'.current == 1 && d'.hist.initiated == map[1 := text]
    ensures d'.collectors[1].deadline == CHANNEL_ROUND_DEADLINE_SECS
    ensures forall v :: v in cfg.parties && v != x.me ==> (v, FirstStart(x.me, list)) in out
  {
    BeginWaits(x, NewDriver, text, cfg.parties, list, share, 0, d');
  }

  function FirstStart(n: Uid, list: seq<Uid>): Message {
    Start(1, n, list, CHANNEL_ROUND_DEADLINE_SECS, CHANNEL_PAYLOAD_LEN)
  }

  lemma FirstMove(cfg: Config, steps: seq<Step>, s: System, n: Uid, text: Bytes) returns (st: Step, s': System, list: seq<Uid>)
    requires IsGroup(cfg) && cfg.Valid() && Run(cfg, steps, s) && n in s.nodes && s.nodes[n] == NewDriver
    requires |cfg.parties| >= 2 && Keyed(cfg) && TextOk(cfg, text)
    ensures st.now == 0 && Run(cfg, steps + [st], s')
    ensures exists d', out :: s' == Move(s, n, d', out) && BeganAt(cfg, n, text, list, d', out)
  {
    RunInv(cfg, steps, s);
    SetupOf(cfg, s);
    var x := SomeContext(cfg, n);
    list := x.uidOrder(cfg.parties);
    st := Step(n, x, 0, Initiates(text, list));
    s' := Apply(s, st);
    FirstEffect(cfg, s, n, x, text, list, st, s');
    RunStep(cfg, steps, s, st, s');
  }

  lemma FirstEffect(cfg: Config, s: System, n: Uid, x: Context, text: Bytes, list: seq<Uid>, st: Step, s': System)
    requires n in s.nodes && s.nodes[n] == NewDriver && ContextOf(cfg, n, x) && n in cfg.parties
    requires |cfg.parties| >= 2 && Keyed(cfg) && TextOk(cfg, text) && list == x.uidOrder(cfg.parties)
    requires st == Step(n, x, 0, Initiates(text, list)) && s' == Apply(s, st)
    ensures Enabled(cfg, s, st)
    ensures exists d', out :: s' == Move(s, n, d', out) && BeganAt(cfg, n, text, list, d', out)
  {
    ListedGroup(x, text, cfg.parties);
    assert Enumerates(list, cfg.parties);
    FirstOutcome(cfg, s, n, x, text, list, st, s');
  }

  lemma FirstOutcome(cfg: Config, s: System, n: Uid, x: Context, text: Bytes, list: seq<Uid>, st: Step, s': System)
    requires n in s.nodes && s.nodes[n] == NewDriver && x.me == n && Startable(x, text, cfg.parties, list)
    requires st == Step(n, x, 0, Initiates(text, list)) && s' == Apply(s, st)
    ensures exists d', out :: s' == Move(s, n, d', out) && BeganAt(cfg, n, text, list, d', out)
  {
    var share := ComputeShare(x.crypto, 1, n, list, Some(text), CHANNEL_PAYLOAD_LEN, x.keys).value;
    InitiationMoves(s, st, share, s');
    var (d', out) := Begin(x, NewDriver, text, list, share, 0);
    FirstBegin(cfg, x, text, list, share, d', out);
    assert s' == Move(s, n, d', out) && BeganAt(cfg, n, text, list, d', out);
  }

  ghost predicate BeganAt(cfg: Config, n: Uid, text: Bytes, list: seq<Uid>, d: Driver, out: Outbox) {
    && Waiting(d, text, cfg.parties) && d.current == 1 && d.hist.initiated == map[1 := text]
    && d.collectors[1].deadline == CHANNEL_ROUND_DEADLINE_SECS
    && forall v :: v in cfg.parties && v != n ==> (v, FirstStart(n, list)) in out
  }

  /** Two nodes initiate at time 0; the second is waiting, and the first one's start is on its way to it. */
  lemma TwoInitiate(cfg: Config, n: Uid, w: Uid, text: Bytes) returns (first: Step, second: Step, s: System, m: Message)
    requires IsGroup(cfg) && cfg.Valid() && Keyed(cfg) && n in cfg.parties && w in cfg.parties && n != w && TextOk(cfg, text)
    requires |cfg.parties| >= 2
    ensures first.now == second.now == 0 && Run(cfg, [first, second], s)
    ensures Trying(cfg, s, n, text, m, 1, CHANNEL_ROUND_DEADLINE_SECS) && s.nodes[n].hist.initiated == map[1 := text]
  {
    var s0 := InitialState(cfg);
    RunMeans(cfg, [], s0);
    var s1, list, other;
    first, s1, list := FirstMove(cfg, [], s0, w, text);
    var d1, out1 :| s1 == Move(s0, w, d1, out1) && BeganAt(cfg, w, text, list, d1, out1);
    assert [] + [first] == [first];
    second, s, other := FirstMove(cfg, [first], s1, n, text);
    var d2, out2 :| s == Move(s1, n, d2, out2) && BeganAt(cfg, n, text, other, d2, out2);
    assert [first] + [second] == [first, second];
    m := FirstStart(w, list);
    assert (n, m) in out1;
  }

  /**
   * In every keyed mesh of two or more and for every k there is a run, with clocks going
   * forward, in which one node starts k + 1 rounds with the same message: two nodes initiate
   * at once, and the second hears nothing but the other's start, late and again and again.
   */
  lemma RetriesFromTheStart(cfg: Config, n: Uid, w: Uid, text: Bytes, k: nat) returns (steps: seq<Step>, s: System)
    requires IsGroup(cfg) && cfg.Valid() && Keyed(cfg) && n in cfg.parties && w in cfg.parties && n != w && TextOk(cfg, text)
    ensures Reaches(cfg, steps, s) && |steps| == k + 2 && n in s.nodes && TriedAgain(s.nodes[n], 0, k + 1, text)
    ensures forall i, j :: 0 <= i < j < |steps| ==> steps[i].now <= steps[j].now
  {
    SubsetSize({n, w}, cfg.parties);
    var first, second, s2, m := TwoInitiate(cfg, n, w, text);
    var more;
    more, s := RetriesRun(cfg, [first, second], s2, n, text, m, 1, CHANNEL_ROUND_DEADLINE_SECS, k);
    steps := [first, second] + more;
    RunMeans(cfg, steps, s);
    RetryClock(first, second, more, n, m, steps);
  }

  lemma RetryClock(first: Step, second: Step, more: seq<Step>, n: Uid, m: Message, steps: seq<Step>)
    requires first.now == second.now == 0 && Retrying(more, n, m, CHANNEL_ROUND_DEADLINE_SECS) && steps == [first, second] + more
    ensures forall i, j :: 0 <= i < j < |steps| ==> steps[i].now <= steps[j].now
  {
  }
}
