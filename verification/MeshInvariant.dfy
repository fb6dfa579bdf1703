/** N nodes running the mesh driver, and what every reachable state satisfies. */
module MeshInvariant {
  import opened ByteStrings
  import opened DcNet
  import opened RoundNetwork
  import opened Cancellation
  import opened MeshDriver

  /**
   * The group of one channel: its members, the edge keys each of them holds,
   * and the bytes of a member's share for a round when it carries a given text.
   */
  datatype Config = Config(
    crypto: Crypto,
    parties: set<Uid>,
    edges: map<Uid, EdgeKeys>,
    payload: (nat, Uid, Option<Bytes>) -> Bytes)
  {
    /** Keys may be missing, but two members never hold different keys for the same edge. */
    ghost predicate Valid() {
      && parties <= edges.Keys
      && forall a, b :: a in parties && b in parties && b in edges[a] && a in edges[b] ==> edges[a][b] == edges[b][a]
    }
  }

  ghost predicate CanPay(parties: set<Uid>, edges: map<Uid, EdgeKeys>, u: Uid, text: Option<Bytes>) {
    && u in edges && HasKeys(u, parties, edges[u])
    && (text.Some? ==> FRAME_HEADER + |text.value| <= CHANNEL_PAYLOAD_LEN)
  }

  ghost function Group(crypto: Crypto, parties: set<Uid>, edges: map<Uid, EdgeKeys>): Config {
    Config(crypto, parties, edges, (round: nat, u: Uid, text: Option<Bytes>) =>
      if CanPay(parties, edges, u, text) then GroupShare(crypto, round, u, parties, text, edges[u], CHANNEL_PAYLOAD_LEN) else [])
  }

  ghost predicate IsGroup(cfg: Config) {
    cfg.payload == Group(cfg.crypto, cfg.parties, cfg.edges).payload
  }

  // `sent` only grows: a message may be delivered late, repeatedly, out of order or never.
  datatype System = System(nodes: map<Uid, Driver>, sent: Outbox)

  ghost predicate ContextOf(cfg: Config, n: Uid, x: Context) {
    x.Valid() && x.crypto == cfg.crypto && x.me == n && n in cfg.edges && x.keys == cfg.edges[n]
  }

  ghost predicate TextOk(cfg: Config, text: Bytes) {
    cfg.crypto.utf8(text) && FRAME_HEADER + |text| <= CHANNEL_PAYLOAD_LEN
  }

  // ---- One node ----

  ghost predicate RoundsBounded(d: Driver) {
    && (forall r :: r in d.collectors ==> r <= d.current)
    && (forall r :: r in d.emitted ==> r <= d.current)
    && (forall r :: r in d.hist.initiated ==> r <= d.current)
    && (forall r :: r in d.hist.carried ==> r <= d.current)
  }

  /** The round we have in flight: initiated, and no share of ours sent for it yet. */
  ghost predicate PendingOk(cfg: Config, u: Uid, d: Driver)
    requires u in cfg.edges
  {
    && !d.myShareBroadcast
    && (d.pendingMessage.Some? ==> TextOk(cfg, d.pendingMessage.value))
    && (d.pendingRound.Some? ==>
          var r := d.pendingRound.value;
          && r in d.hist.initiated && r !in d.hist.carried
          && r in d.collectors && u !in d.collectors[r].shares
          && HasKeys(u, cfg.parties, cfg.edges[u])
          && d.myShare == Some(cfg.payload(r, u, Some(d.hist.initiated[r]))))
  }

  ghost predicate CollectorOk(cfg: Config, u: Uid, h: History, emitted: set<nat>, r: nat, col: Collector) {
    && col.participants == cfg.parties && col.payloadLen == CHANNEL_PAYLOAD_LEN
    && col.shares.Keys != cfg.parties && r !in emitted
    && (u in col.shares ==> r in h.carried)
  }

  ghost predicate HistoryOk(cfg: Config, u: Uid, h: History, emitted: set<nat>)
    requires u in cfg.edges
  {
    && (forall r :: r in h.initiated ==> TextOk(cfg, h.initiated[r]))
    && (h.carried.Keys != {} ==> HasKeys(u, cfg.parties, cfg.edges[u]))
    && (forall r :: r in h.carried && h.carried[r].Some? ==> r in h.initiated && h.carried[r].value == h.initiated[r])
    && (forall r :: h.transmissions[r] == if r in h.carried then 1 else 0)
    && (forall e :: e in h.delivered ==> e.0 in emitted && h.delivered[e] == 1)
    && (forall e, f :: e in h.delivered && f in h.delivered && e.0 == f.0 ==> e == f)
  }

  ghost predicate OwnStart(cfg: Config, u: Uid, h: History, m: Message) {
    && m.Start? && m.leader == u && m.round in h.initiated
    && Enumerates(m.participants, cfg.parties) && m.payloadLen == CHANNEL_PAYLOAD_LEN
  }

  // The invariants are stated clause by clause, so that a proof sees only the clauses it names.
  datatype NodeClause = Bounded | Pending | Collecting | Past | Queue

  ghost predicate NodeHolds(k: NodeClause, cfg: Config, u: Uid, d: Driver) {
    u in cfg.edges &&
    match k
    case Bounded => RoundsBounded(d)
    case Pending => PendingOk(cfg, u, d)
    case Collecting => forall r :: r in d.collectors ==> CollectorOk(cfg, u, d.hist, d.emitted, r, d.collectors[r])
    case Past => HistoryOk(cfg, u, d.hist, d.emitted)
    case Queue => forall e :: e in d.pendingOutgoing ==> OwnStart(cfg, u, d.hist, e.1)
  }

  ghost predicate NodeInv(cfg: Config, u: Uid, d: Driver) {
    forall k :: NodeHolds(k, cfg, u, d)
  }

  lemma NodeBounded(cfg: Config, u: Uid, d: Driver)
    requires NodeInv(cfg, u, d)
    ensures RoundsBounded(d)
  {
    assert NodeHolds(Bounded, cfg, u, d);
  }

  lemma NodePending(cfg: Config, u: Uid, d: Driver)
    requires NodeInv(cfg, u, d)
    ensures u in cfg.edges && PendingOk(cfg, u, d)
  {
    assert NodeHolds(Pending, cfg, u, d);
  }

  lemma NodeCollecting(cfg: Config, u: Uid, d: Driver)
    requires NodeInv(cfg, u, d)
    ensures forall r :: r in d.collectors ==> CollectorOk(cfg, u, d.hist, d.emitted, r, d.collectors[r])
  {
    assert NodeHolds(Collecting, cfg, u, d);
  }

  lemma NodePast(cfg: Config, u: Uid, d: Driver)
    requires NodeInv(cfg, u, d)
    ensures u in cfg.edges && HistoryOk(cfg, u, d.hist, d.emitted)
  {
    assert NodeHolds(Past, cfg, u, d);
  }

  lemma NodeQueue(cfg: Config, u: Uid, d: Driver)
    requires NodeInv(cfg, u, d)
    ensures forall e :: e in d.pendingOutgoing ==> OwnStart(cfg, u, d.hist, e.1)
  {
    assert NodeHolds(Queue, cfg, u, d);
  }

  // ---- The system ----

  ghost predicate Initiated(s: System, u: Uid, r: nat) {
    u in s.nodes && r in s.nodes[u].hist.initiated
  }

  ghost predicate Carries(s: System, u: Uid, r: nat, text: Option<Bytes>) {
    u in s.nodes && r in s.nodes[u].hist.carried && s.nodes[u].hist.carried[r] == text
  }

  ghost predicate HasShared(s: System, u: Uid, r: nat) {
    u in s.nodes && r in s.nodes[u].hist.carried
  }

  /** The bytes are exactly the share that u transmitted for round r. */
  ghost predicate IsShareOf(cfg: Config, s: System, u: Uid, r: nat, bytes: Bytes) {
    HasShared(s, u, r) && bytes == cfg.payload(r, u, s.nodes[u].hist.carried[r])
  }

  ghost predicate MessageOk(cfg: Config, s: System, m: Message) {
    match m
    case Start(r, leader, _, _, _) => leader in s.nodes && OwnStart(cfg, leader, s.nodes[leader].hist, m)
    case Share(r, peer, payload) => IsShareOf(cfg, s, peer, r, payload)
  }

  ghost predicate StoredOk(cfg: Config, s: System, d: Driver) {
    forall r, v :: r in d.collectors && v in d.collectors[r].shares ==> IsShareOf(cfg, s, v, r, d.collectors[r].shares[v])
  }

  /** A message share is sent only after everybody else has sent a neutral one. */
  ghost predicate MessageLast(s: System) {
    forall u, v, r :: HasShared(s, u, r) && s.nodes[u].hist.carried[r].Some? && v in s.nodes && v != u ==> Carries(s, v, r, None)
  }

  /** An initiator that sent a neutral share has yielded to a lower initiator. */
  ghost predicate Yields(s: System) {
    forall u, r :: Carries(s, u, r, None) && Initiated(s, u, r) ==> exists l :: Less(l, u) && Initiated(s, l, r)
  }

  ghost predicate HasOrigin(s: System) {
    forall u, r :: HasShared(s, u, r) ==> exists l :: Initiated(s, l, r)
  }

  ghost predicate Delivered(s: System, n: Uid, r: nat, text: Bytes) {
    n in s.nodes && (r, text) in s.nodes[n].hist.delivered
  }

  ghost predicate DeliveredOk(s: System) {
    forall n, r, text :: Delivered(s, n, r, text) ==> exists u :: Carries(s, u, r, Some(text))
  }

  ghost predicate NodesOk(cfg: Config, s: System) {
    forall u :: u in s.nodes ==> NodeInv(cfg, u, s.nodes[u])
  }

  ghost predicate AllStoredOk(cfg: Config, s: System) {
    forall u :: u in s.nodes ==> StoredOk(cfg, s, s.nodes[u])
  }

  ghost predicate SentOk(cfg: Config, s: System) {
    forall e :: e in s.sent ==> MessageOk(cfg, s, e.1)
  }

  datatype Clause = Setup | Nodes | Stored | Sent | Last | Yielding | Origin | Deliveries

  ghost predicate Holds(k: Clause, cfg: Config, s: System) {
    match k
    case Setup => cfg.Valid() && s.nodes.Keys == cfg.parties
    case Nodes => NodesOk(cfg, s)
    case Stored => AllStoredOk(cfg, s)
    case Sent => SentOk(cfg, s)
    case Last => MessageLast(s)
    case Yielding => Yields(s)
    case Origin => HasOrigin(s)
    case Deliveries => DeliveredOk(s)
  }

  ghost predicate Inv(cfg: Config, s: System) {
    forall k :: Holds(k, cfg, s)
  }

  lemma SetupOf(cfg: Config, s: System)
    requires Inv(cfg, s)
    ensures cfg.Valid() && s.nodes.Keys == cfg.parties
  {
    assert Holds(Setup, cfg, s);
  }

  lemma SentOf(cfg: Config, s: System, e: (Uid, Message))
    requires Inv(cfg, s) && e in s.sent
    ensures MessageOk(cfg, s, e.1)
  {
    assert Holds(Sent, cfg, s);
  }

  lemma CausalityOf(cfg: Config, s: System)
    requires Inv(cfg, s)
    ensures MessageLast(s) && Yields(s) && HasOrigin(s)
  {
    assert Holds(Last, cfg, s) && Holds(Yielding, cfg, s) && Holds(Origin, cfg, s);
  }

  lemma NodeOf(cfg: Config, s: System, n: Uid)
    requires Inv(cfg, s) && n in s.nodes
    ensures n in cfg.parties && NodeInv(cfg, n, s.nodes[n]) && StoredOk(cfg, s, s.nodes[n])
  {
    assert Holds(Setup, cfg, s) && Holds(Nodes, cfg, s) && Holds(Stored, cfg, s);
  }

  // ---- One node moves ----

  function Move(s: System, n: Uid, d: Driver, out: Outbox): System {
    System(s.nodes[n := d], s.sent + out)
  }

  /** Histories are only extended. */
  ghost predicate Extends(d: Driver, d': Driver) {
    && (forall r :: r in d.hist.initiated ==> r in d'.hist.initiated && d'.hist.initiated[r] == d.hist.initiated[r])
    && (forall r :: r in d.hist.carried ==> r in d'.hist.carried && d'.hist.carried[r] == d.hist.carried[r])
  }

  /** What a node's step must satisfy for the system to stay in the invariant. */
  ghost predicate GoodMove(cfg: Config, s: System, n: Uid, d': Driver, out: Outbox)
    requires n in s.nodes
  {
    var d, s' := s.nodes[n], Move(s, n, d', out);
    && Extends(d, d') && StoredOk(cfg, s', d')
    && (forall e :: e in out ==> MessageOk(cfg, s', e.1))
    && (forall r :: r in d'.hist.initiated && r !in d.hist.initiated ==> r !in d.hist.carried)
    && NewSharesOk(s, n, d', out)
    && (forall r, text :: Delivered(s', n, r, text) && !Delivered(s, n, r, text) ==> exists u :: Carries(s', u, r, Some(text)))
  }

  ghost predicate NewSharesOk(s: System, n: Uid, d': Driver, out: Outbox)
    requires n in s.nodes
  {
    forall r :: r in d'.hist.carried && r !in s.nodes[n].hist.carried ==> NewShareOk(s, Move(s, n, d', out), n, r)
  }

  ghost predicate NewShareOk(s: System, s': System, n: Uid, r: nat)
    requires HasShared(s', n, r)
  {
    if s'.nodes[n].hist.carried[r].Some? then forall v :: v in s.nodes && v != n ==> Carries(s, v, r, None)
    else
      && (exists l :: Initiated(s, l, r))
      && (Initiated(s', n, r) ==> exists l :: Less(l, n) && Initiated(s, l, r))
  }

  lemma ShareKept(cfg: Config, s: System, n: Uid, d': Driver, out: Outbox, u: Uid, r: nat, bytes: Bytes)
    requires n in s.nodes && Extends(s.nodes[n], d') && IsShareOf(cfg, s, u, r, bytes)
    ensures IsShareOf(cfg, Move(s, n, d', out), u, r, bytes)
  {
  }

  lemma InitiatedKept(s: System, n: Uid, d': Driver, out: Outbox, u: Uid, r: nat)
    requires n in s.nodes && Extends(s.nodes[n], d') && Initiated(s, u, r)
    ensures Initiated(Move(s, n, d', out), u, r)
  {
  }

  lemma CarriesKept(s: System, n: Uid, d': Driver, out: Outbox, u: Uid, r: nat, text: Option<Bytes>)
    requires n in s.nodes && Extends(s.nodes[n], d') && Carries(s, u, r, text)
    ensures Carries(Move(s, n, d', out), u, r, text)
  {
  }

  lemma MoveKeepsSent(cfg: Config, s: System, n: Uid, d': Driver, out: Outbox)
    requires n in s.nodes && Extends(s.nodes[n], d') && SentOk(cfg, s)
    requires forall e :: e in out ==> MessageOk(cfg, Move(s, n, d', out), e.1)
    ensures SentOk(cfg, Move(s, n, d', out))
  {
    var s' := Move(s, n, d', out);
    forall e | e in s.sent ensures MessageOk(cfg, s', e.1) {
      assert MessageOk(cfg, s, e.1);
      if e.1.Share? {
        ShareKept(cfg, s, n, d', out, e.1.peer, e.1.round, e.1.payload);
      }
    }
  }

  lemma MoveKeepsStored(cfg: Config, s: System, n: Uid, d': Driver, out: Outbox)
    requires n in s.nodes && Extends(s.nodes[n], d') && AllStoredOk(cfg, s)
    requires StoredOk(cfg, Move(s, n, d', out), d')
    ensures AllStoredOk(cfg, Move(s, n, d', out))
  {
    var s' := Move(s, n, d', out);
    forall u | u in s'.nodes && u != n ensures StoredOk(cfg, s', s'.nodes[u]) {
      var d := s.nodes[u];
      forall r, v | r in d.collectors && v in d.collectors[r].shares
        ensures IsShareOf(cfg, s', v, r, d.collectors[r].shares[v])
      {
        ShareKept(cfg, s, n, d', out, v, r, d.collectors[r].shares[v]);
      }
    }
  }

  lemma MoveKeepsNodes(cfg: Config, s: System, n: Uid, d': Driver, out: Outbox)
    requires n in s.nodes && NodesOk(cfg, s) && NodeInv(cfg, n, d')
    ensures NodesOk(cfg, Move(s, n, d', out))
  {
    var s' := Move(s, n, d', out);
    forall u | u in s'.nodes ensures NodeInv(cfg, u, s'.nodes[u]) {
      assert s'.nodes[u] == if u == n then d' else s.nodes[u];
    }
  }

  lemma MoveKeepsMessageLast(s: System, n: Uid, d': Driver, out: Outbox)
    requires n in s.nodes && Extends(s.nodes[n], d') && MessageLast(s) && NewSharesOk(s, n, d', out)
    ensures MessageLast(Move(s, n, d', out))
  {
    var s' := Move(s, n, d', out);
    forall u, v, r | HasShared(s', u, r) && s'.nodes[u].hist.carried[r].Some? && v in s'.nodes && v != u
      ensures Carries(s', v, r, None)
    {
      if !HasShared(s, u, r) {
        assert u == n && NewShareOk(s, s', n, r);
      }
      CarriesKept(s, n, d', out, v, r, None);
    }
  }

  lemma MoveKeepsOrigin(s: System, n: Uid, d': Driver, out: Outbox)
    requires n in s.nodes && Extends(s.nodes[n], d') && HasOrigin(s) && NewSharesOk(s, n, d', out)
    requires forall r :: r in d'.hist.carried && d'.hist.carried[r].Some? ==> r in d'.hist.initiated
    ensures HasOrigin(Move(s, n, d', out))
  {
    var s' := Move(s, n, d', out);
    forall u, r | HasShared(s', u, r) ensures exists l :: Initiated(s', l, r) {
      if !HasShared(s, u, r) {
        assert u == n && NewShareOk(s, s', n, r);
      }
      if !Initiated(s', n, r) {
        var l :| Initiated(s, l, r);
        InitiatedKept(s, n, d', out, l, r);
      }
    }
  }

  lemma MoveKeepsYields(s: System, n: Uid, d': Driver, out: Outbox)
    requires n in s.nodes && Extends(s.nodes[n], d') && Yields(s) && NewSharesOk(s, n, d', out)
    requires forall r :: r in d'.hist.initiated && r !in s.nodes[n].hist.initiated ==> r !in s.nodes[n].hist.carried
    ensures Yields(Move(s, n, d', out))
  {
    var s' := Move(s, n, d', out);
    forall u, r | Carries(s', u, r, None) && Initiated(s', u, r) ensures exists l :: Less(l, u) && Initiated(s', l, r) {
      if !HasShared(s, u, r) {
        assert u == n && NewShareOk(s, s', n, r);
      } else {
        assert Carries(s, u, r, None) && Initiated(s, u, r);
      }
      var l :| Less(l, u) && Initiated(s, l, r);
      InitiatedKept(s, n, d', out, l, r);
    }
  }

  lemma MoveKeepsDelivered(s: System, n: Uid, d': Driver, out: Outbox)
    requires n in s.nodes && Extends(s.nodes[n], d') && DeliveredOk(s)
    requires var s' := Move(s, n, d', out);
             forall r, text :: Delivered(s', n, r, text) && !Delivered(s, n, r, text) ==> exists u :: Carries(s', u, r, Some(text))
    ensures DeliveredOk(Move(s, n, d', out))
  {
    var s' := Move(s, n, d', out);
    forall m, r, text | Delivered(s', m, r, text) ensures exists u :: Carries(s', u, r, Some(text)) {
      if Delivered(s, m, r, text) {
        var u :| Carries(s, u, r, Some(text));
        CarriesKept(s, n, d', out, u, r, Some(text));
      }
    }
  }

  lemma MoveKeepsInv(cfg: Config, s: System, n: Uid, d': Driver, out: Outbox)
    requires Inv(cfg, s) && n in s.nodes && NodeInv(cfg, n, d') && GoodMove(cfg, s, n, d', out)
    ensures Inv(cfg, Move(s, n, d', out))
  {
    forall k ensures Holds(k, cfg, Move(s, n, d', out)) {
      assert Holds(k, cfg, s);
      match k
      case Setup =>
      case Nodes => MoveKeepsNodes(cfg, s, n, d', out);
      case Stored => MoveKeepsStored(cfg, s, n, d', out);
      case Sent => MoveKeepsSent(cfg, s, n, d', out);
      case Last => MoveKeepsMessageLast(s, n, d', out);
      case Yielding => MoveKeepsYields(s, n, d', out);
      case Origin =>
        assert NodeHolds(Past, cfg, n, d');
        MoveKeepsOrigin(s, n, d', out);
      case Deliveries => MoveKeepsDelivered(s, n, d', out);
    }
  }
}
