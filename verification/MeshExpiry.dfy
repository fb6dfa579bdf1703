/** What the deadline of a round means, and what one driver keeps whatever it is sent. */
module MeshExpiry {
  import opened ByteStrings
  import opened RoundNetwork
  import opened MeshDriver
  import opened MeshInvariant
  import opened Mesh
  import opened MeshOnward

  // ---- Deadlines ----

  /** The same collectors up to the counter. */
  ghost predicate SameUpTo(k: nat, d: Driver, d': Driver) {
    forall id :: id <= k ==> (id in d.collectors <==> id in d'.collectors) && (id in d.collectors ==> d'.collectors[id] == d.collectors[id])
  }

  lemma RetryAddsLater(x: Context, d: Driver, group: set<Uid>, now: nat, d': Driver)
    requires d' == RetryPending(x, d, group, now)
    ensures SameUpTo(d.current, d, d')
  {
  }

  lemma ExpireOneLeaves(x: Context, d: Driver, gone: nat, now: nat, d': Driver, id: nat)
    requires d' == ExpireOne(x, d, gone, now) && id <= d.current
    ensures id in d'.collectors <==> id in d.collectors && id != gone
    ensures id in d'.collectors ==> d'.collectors[id] == d.collectors[id]
  {
    var d1 := Discard(d, gone);
    if gone in d.collectors {
      RetryAddsLater(x, d1, d.collectors[gone].participants, now, RetryPending(x, d1, d.collectors[gone].participants, now));
    }
  }

  lemma {:induction false} ExpireAllLeaves(x: Context, d: Driver, ids: seq<nat>, now: nat, id: nat)
    requires id <= d.current
    ensures id in ExpireAll(x, d, ids, now).collectors <==> id in d.collectors && id !in ids
    ensures id in ExpireAll(x, d, ids, now).collectors ==> ExpireAll(x, d, ids, now).collectors[id] == d.collectors[id]
    decreases |ids|
  {
    if ids != [] {
      var d1 := ExpireOne(x, d, ids[0], now);
      assert ids == [ids[0]] + ids[1..];
      ExpireOneLeaves(x, d, ids[0], now, d1, id);
      ExpireOneOnward(x, d, ids[0], now, d1);
      ExpireAllLeaves(x, d1, ids[1..], now, id);
    }
  }

  /** Of the rounds held, ours or not, exactly those whose deadline has not come are still there after expiry, untouched. */
  lemma DropsExactly(x: Context, d: Driver, now: nat, d': Driver, id: nat)
    requires x.Valid() && id <= d.current && d' == DropExpired(x, d, now)
    ensures id in d'.collectors <==> id in d.collectors && now < d.collectors[id].deadline
    ensures id in d'.collectors ==> d'.collectors[id] == d.collectors[id]
  {
    var ids := x.roundOrder(Expired(d, now));
    assert Enumerates(ids, Expired(d, now));
    ExpireAllLeaves(x, d, ids, now, id);
  }

  /** A share of a round whose deadline has come changes nothing beyond expiry itself and completes nothing. */
  lemma LateShareIgnored(x: Context, d: Driver, m: Message, accepted: bool, now: nat, d': Driver, a: Action)
    requires x.Valid() && m.Share? && m.round in d.collectors && m.round <= d.current && d.collectors[m.round].deadline <= now
    requires (d', a) == Handle(x, d, m, accepted, now)
    ensures d' == DropExpired(x, d, now).(pendingOutgoing := {}) && m.round !in d'.collectors
    ensures a == Action(None, DropExpired(x, d, now).pendingOutgoing)
  {
    DropsExactly(x, d, now, DropExpired(x, d, now), m.round);
  }

  /** In a mesh every round that a node holds is one it has passed, so this goes for all of them. */
  lemma LateShareInMesh(cfg: Config, steps: seq<Step>, s: System, n: Uid, x: Context, m: Message, accepted: bool, now: nat, d': Driver, a: Action)
    requires IsGroup(cfg) && cfg.Valid() && Reaches(cfg, steps, s) && n in s.nodes && ContextOf(cfg, n, x)
    requires m.Share? && m.round in s.nodes[n].collectors && s.nodes[n].collectors[m.round].deadline <= now
    requires (d', a) == Handle(x, s.nodes[n], m, accepted, now)
    ensures a.extracted.None? && m.round !in d'.collectors && d' == DropExpired(x, s.nodes[n], now).(pendingOutgoing := {})
  {
    RunKeepsInv(cfg, steps, s);
    NodeOf(cfg, s, n);
    NodeBounded(cfg, n, s.nodes[n]);
    LateShareIgnored(x, s.nodes[n], m, accepted, now, d', a);
  }

  /** Before the deadlines nothing expires. */
  lemma NothingExpires(x: Context, d: Driver, now: nat)
    requires x.Valid() && forall id :: id in d.collectors ==> now < d.collectors[id].deadline
    ensures DropExpired(x, d, now) == d
  {
    assert Enumerates(x.roundOrder({}), {}) && Expired(d, now) == {};
    EnumerationSize(x.roundOrder({}), {});
  }

  // ---- Taking part ----

  /** The deadline and the length of a round we take part in are those of its start, as far as a collector believes them. */
  lemma StartTaken(x: Context, d: Driver, m: Message, now: nat, d': Driver, a: Action)
    requires m.Start? && (d', a) == OnRoundStart(x, d, m, now) && a.outgoing != {}
    ensures m.round in d'.collectors && d'.collectors[m.round].deadline == now + (if m.deadlineSecs <= 30 then m.deadlineSecs else 30)
    ensures d'.collectors[m.round].participants == Elements(m.participants)
    ensures 4 <= m.payloadLen <= 65536 ==> d'.collectors[m.round].payloadLen == m.payloadLen
    ensures forall e :: e in a.outgoing ==> e.1.Share? && e.1.round == m.round && e.1.peer == x.me && |e.1.payload| == m.payloadLen
    ensures forall u :: u in m.participants && u != x.me ==> exists e :: e in a.outgoing && e.0 == u
  {
    CollectorLimits(m.round, m.participants, m.deadlineSecs, m.payloadLen, now);
    var e0 :| e0 in a.outgoing;
    forall u | u in m.participants && u != x.me ensures (u, e0.1) in a.outgoing {}
  }

  // ---- One driver against anything ----

  /** Each round's text is emitted at most once, and then the round is marked. */
  ghost predicate EmittedOnce(d: Driver) {
    && (forall e :: e in d.hist.delivered ==> e.0 in d.emitted && d.hist.delivered[e] == 1)
    && forall e, f :: e in d.hist.delivered && f in d.hist.delivered && e.0 == f.0 ==> e == f
  }

  /** A step that emits nothing. */
  ghost predicate Silent(d: Driver, d': Driver) {
    d'.emitted == d.emitted && d'.hist.delivered == d.hist.delivered
  }

  lemma RetrySilent(x: Context, d: Driver, group: set<Uid>, now: nat)
    ensures Silent(d, RetryPending(x, d, group, now))
  {
  }

  lemma ExpireOneSilent(x: Context, d: Driver, id: nat, now: nat)
    ensures Silent(d, ExpireOne(x, d, id, now))
  {
    if id in d.collectors {
      RetrySilent(x, Discard(d, id), d.collectors[id].participants, now);
    }
  }

  lemma {:induction false} ExpireAllSilent(x: Context, d: Driver, ids: seq<nat>, now: nat)
    ensures Silent(d, ExpireAll(x, d, ids, now))
    decreases |ids|
  {
    if ids != [] {
      ExpireOneSilent(x, d, ids[0], now);
      ExpireAllSilent(x, ExpireOne(x, d, ids[0], now), ids[1..], now);
    }
  }

  lemma StartSilent(x: Context, d: Driver, m: Message, now: nat)
    requires m.Start?
    ensures Silent(d, OnRoundStart(x, d, m, now).0)
  {
  }

  lemma SettleSilent(x: Context, d: Driver, round: nat, failed: bool, group: set<Uid>, now: nat)
    ensures Silent(d, Settle(x, d, round, failed, group, now))
  {
    var d1 := if failed then RetryPending(x, d, group, now) else d;
    RetrySilent(x, d, group, now);
    RetrySilent(x, d1.(retryAfterPeer := None), group, now);
  }

  lemma AcceptSilent(x: Context, d: Driver, round: nat, col: Collector)
    ensures Silent(d, AcceptShare(x, d, round, col).0)
  {
  }

  lemma CompleteEmits(d: Driver, round: nat, text: Option<Bytes>)
    requires EmittedOnce(d)
    ensures EmittedOnce(Complete(d, round, text).0)
  {
  }

  lemma ShareEmits(x: Context, d: Driver, m: Message, accepted: bool, now: nat)
    requires m.Share? && EmittedOnce(d)
    ensures EmittedOnce(OnRoundShare(x, d, m, accepted, now).0)
  {
    if accepted && m.round in d.collectors && Submit(d.collectors[m.round], m.peer, m.payload).Some? {
      var col := Submit(d.collectors[m.round], m.peer, m.payload).value;
      var (d1, out) := AcceptShare(x, d, m.round, col);
      AcceptSilent(x, d, m.round, col);
      if d1.collectors[m.round].IsComplete() {
        var (d2, text) := Complete(d1, m.round, Decode(x.crypto, d1.collectors[m.round]));
        CompleteEmits(d1, m.round, Decode(x.crypto, d1.collectors[m.round]));
        SettleSilent(x, d2, m.round, d.pendingRound == Some(m.round) && text.None?, col.participants, now);
      }
    }
  }

  /** What anybody can do to a driver: make it initiate, or send it anything, signed or not. */
  datatype Input =
    | Begins(x: Context, text: Bytes, list: seq<Uid>, now: nat)
    | Gets(x: Context, m: Message, accepted: bool, now: nat)

  ghost function Fed(d: Driver, i: Input): Driver {
    match i
    case Begins(x, text, list, now) => Initiate(x, d, text, list, now).0
    case Gets(x, m, accepted, now) => Handle(x, d, m, accepted, now).0
  }

  ghost function FedAll(inputs: seq<Input>): Driver {
    if inputs == [] then NewDriver else Fed(FedAll(inputs[..|inputs| - 1]), inputs[|inputs| - 1])
  }

  lemma SilentKeeps(d: Driver, d': Driver)
    requires EmittedOnce(d) && Silent(d, d')
    ensures EmittedOnce(d')
  {
  }

  lemma InitiateSilent(x: Context, d: Driver, text: Bytes, list: seq<Uid>, now: nat)
    ensures Silent(d, Initiate(x, d, text, list, now).0)
  {
  }

  lemma ReactEmits(x: Context, d: Driver, m: Message, accepted: bool, now: nat)
    requires EmittedOnce(d)
    ensures EmittedOnce(React(x, d, m, accepted, now).0)
  {
    if m.Start? {
      StartSilent(x, d, m, now);
      SilentKeeps(d, OnRoundStart(x, d, m, now).0);
    } else {
      ShareEmits(x, d, m, accepted, now);
    }
  }

  lemma HandleEmits(x: Context, d: Driver, m: Message, accepted: bool, now: nat, d0: Driver, d1: Driver)
    requires EmittedOnce(d) && d0 == DropExpired(x, d, now) && d1 == React(x, d0, m, accepted, now).0
    ensures EmittedOnce(d1.(pendingOutgoing := {}))
  {
    ExpireAllSilent(x, d, x.roundOrder(Expired(d, now)), now);
    SilentKeeps(d, d0);
    ReactEmits(x, d0, m, accepted, now);
    SilentKeeps(d1, d1.(pendingOutgoing := {}));
  }

  lemma FedEmits(d: Driver, i: Input)
    requires EmittedOnce(d)
    ensures EmittedOnce(Fed(d, i))
  {
    match i
    case Begins(x, text, list, now) =>
      InitiateSilent(x, d, text, list, now);
      SilentKeeps(d, Fed(d, i));
    case Gets(x, m, accepted, now) =>
      var d0 := DropExpired(x, d, now);
      HandleEmits(x, d, m, accepted, now, d0, React(x, d0, m, accepted, now).0);
  }

  /**
   * Whatever a driver is fed, in whatever order, forged or repeated, under whatever clocks and
   * keys: it emits at most one text for a round id, and that once.
   */
  lemma {:induction false} EmitsOnce(inputs: seq<Input>)
    ensures EmittedOnce(FedAll(inputs))
    decreases |inputs|
  {
    if inputs != [] {
      EmitsOnce(inputs[..|inputs| - 1]);
      FedEmits(FedAll(inputs[..|inputs| - 1]), inputs[|inputs| - 1]);
    }
  }
}
