/** Collecting shares: a complete round decodes to the text of its only message share. */
module MeshShares {
  import opened ByteStrings
  import opened XorSum
  import opened DcNet
  import opened RoundNetwork
  import opened Cancellation
  import opened MeshDriver
  import opened MeshInvariant
  import opened MeshRounds

  ghost predicate LowestInitiator(s: System, u: Uid, r: nat) {
    Initiated(s, u, r) && forall l :: Initiated(s, l, r) && l != u ==> Less(u, l)
  }

  lemma LowestInitiatorExists(s: System, r: nat) returns (u: Uid)
    requires exists l :: Initiated(s, l, r)
    ensures LowestInitiator(s, u, r)
  {
    var candidates := set l | l in s.nodes && Initiated(s, l, r);
    var l :| Initiated(s, l, r);
    assert l in candidates;
    u := LowestExists(candidates);
  }

  /** The lowest initiator of a round never sends a neutral share for it. */
  lemma LowestNeverNeutral(s: System, u: Uid, r: nat)
    requires Yields(s) && LowestInitiator(s, u, r)
    ensures !Carries(s, u, r, None)
  {
    if Carries(s, u, r, None) {
      var l :| Less(l, u) && Initiated(s, l, r);
      LessTotal(l, u);
      LessTotal(u, u);
    }
  }

  /** Once everybody has shared, the lowest initiator's share is the only one with a message. */
  lemma OnlySender(s: System, r: nat) returns (u: Uid)
    requires MessageLast(s) && Yields(s) && HasOrigin(s) && s.nodes.Keys != {}
    requires forall v :: v in s.nodes ==> HasShared(s, v, r)
    ensures LowestInitiator(s, u, r) && HasShared(s, u, r) && s.nodes[u].hist.carried[r].Some?
    ensures forall v :: v in s.nodes && v != u ==> Carries(s, v, r, None)
  {
    var w :| w in s.nodes.Keys;
    assert HasShared(s, w, r);
    u := LowestInitiatorExists(s, r);
    LowestNeverNeutral(s, u, r);
  }

  /** Every transmitted share was computable: keys present, text of legal size. */
  ghost predicate Computable(cfg: Config, s: System, r: nat) {
    forall u :: HasShared(s, u, r) ==>
      u in cfg.edges && HasKeys(u, cfg.parties, cfg.edges[u]) &&
      (s.nodes[u].hist.carried[r].Some? ==> TextOk(cfg, s.nodes[u].hist.carried[r].value))
  }

  ghost predicate Full(cfg: Config, s: System, r: nat, col: Collector) {
    && col.participants == cfg.parties && col.payloadLen == CHANNEL_PAYLOAD_LEN
    && col.shares.Keys == cfg.parties
    && forall v :: v in col.shares ==> IsShareOf(cfg, s, v, r, col.shares[v])
  }

  lemma DecodeFull(cfg: Config, s: System, r: nat, col: Collector) returns (u: Uid, text: Bytes)
    requires IsGroup(cfg) && cfg.Valid() && s.nodes.Keys == cfg.parties && cfg.parties != {}
    requires MessageLast(s) && Yields(s) && HasOrigin(s) && Computable(cfg, s, r) && Full(cfg, s, r, col)
    ensures LowestInitiator(s, u, r) && Carries(s, u, r, Some(text)) && Decode(cfg.crypto, col) == Some(text)
  {
    forall v | v in s.nodes ensures HasShared(s, v, r) {
      assert v in col.shares;
    }
    u := OnlySender(s, r);
    text := s.nodes[u].hist.carried[r].value;
    SharesAgree(cfg, s, r, col, u, text);
    RoundSum(cfg.crypto, r, cfg.edges, cfg.parties, u, text, col.shares, CHANNEL_PAYLOAD_LEN);
    DecodeFrame(cfg.crypto, col, text);
  }

  lemma DecodeFrame(c: Crypto, col: Collector, text: Bytes)
    requires col.shares != map[] && FRAME_HEADER + |text| <= col.payloadLen && |text| < 0x1_0000_0000
    requires c.utf8(text) && XorAll(col.shares, col.payloadLen) == Pad(c, text, col.payloadLen).value
    ensures Decode(c, col) == Some(text)
  {
    PadUnpad(c, text, col.payloadLen);
  }

  lemma SharesAgree(cfg: Config, s: System, r: nat, col: Collector, u: Uid, text: Bytes)
    requires IsGroup(cfg) && cfg.Valid() && s.nodes.Keys == cfg.parties && u in cfg.parties
    requires Computable(cfg, s, r) && Full(cfg, s, r, col)
    requires Carries(s, u, r, Some(text)) && forall v :: v in s.nodes && v != u ==> Carries(s, v, r, None)
    ensures SharedEdges(cfg.edges, cfg.parties) && TextOk(cfg, text)
    ensures RoundShares(cfg.crypto, r, cfg.edges, cfg.parties, u, text, col.shares, CHANNEL_PAYLOAD_LEN)
  {
    assert HasShared(s, u, r);
    forall v | v in cfg.parties
      ensures HasKeys(v, cfg.parties, cfg.edges[v])
      ensures col.shares[v] == GroupShare(cfg.crypto, r, v, cfg.parties, if v == u then Some(text) else None, cfg.edges[v], CHANNEL_PAYLOAD_LEN)
    {
      assert v in col.shares;
      assert HasShared(s, v, r);
      PayloadIsShare(cfg, r, v, if v == u then Some(text) else None);
    }
  }

  lemma PayloadIsShare(cfg: Config, r: nat, u: Uid, text: Option<Bytes>)
    requires IsGroup(cfg) && u in cfg.edges && HasKeys(u, cfg.parties, cfg.edges[u])
    requires text.Some? ==> FRAME_HEADER + |text.value| <= CHANNEL_PAYLOAD_LEN
    ensures cfg.payload(r, u, text) == GroupShare(cfg.crypto, r, u, cfg.parties, text, cfg.edges[u], CHANNEL_PAYLOAD_LEN)
  {
  }

  // ---- A share that does not complete the round ----

  lemma StoreKeepsInv(cfg: Config, s: System, n: Uid, r: nat, peer: Uid, payload: Bytes, col: Collector, d': Driver)
    requires Inv(cfg, s) && n in s.nodes && r in s.nodes[n].collectors && IsShareOf(cfg, s, peer, r, payload)
    requires Submit(s.nodes[n].collectors[r], peer, payload) == Some(col) && col.shares.Keys != cfg.parties
    requires d' == s.nodes[n].(collectors := s.nodes[n].collectors[r := col])
    ensures Inv(cfg, Move(s, n, d', {}))
  {
    var d := s.nodes[n];
    NodeOf(cfg, s, n);
    forall k ensures NodeHolds(k, cfg, n, d') {
      assert NodeHolds(k, cfg, n, d);
      NodeCollecting(cfg, n, d);
    }
    StoreIsGood(cfg, s, n, r, peer, payload, col, d');
    MoveKeepsInv(cfg, s, n, d', {});
  }

  lemma StoreIsGood(cfg: Config, s: System, n: Uid, r: nat, peer: Uid, payload: Bytes, col: Collector, d': Driver)
    requires n in s.nodes && r in s.nodes[n].collectors && IsShareOf(cfg, s, peer, r, payload) && StoredOk(cfg, s, s.nodes[n])
    requires col.shares == s.nodes[n].collectors[r].shares[peer := payload]
    requires d' == s.nodes[n].(collectors := s.nodes[n].collectors[r := col])
    ensures GoodMove(cfg, s, n, d', {})
  {
    var d, s' := s.nodes[n], Move(s, n, d', {});
    forall q, v | q in d'.collectors && v in d'.collectors[q].shares
      ensures IsShareOf(cfg, s', v, q, d'.collectors[q].shares[v])
    {
      ShareKept(cfg, s, n, d', {}, v, q, d'.collectors[q].shares[v]);
    }
  }

  // ---- A share that completes the round ----

  /** The driver after a complete round: forgotten, emitted, its text delivered. */
  ghost predicate Finished(d: Driver, r: nat, h: History, text: Bytes, d': Driver) {
    && d'.current == d.current && d'.collectors == d.collectors - {r} && d'.emitted == d.emitted + {r}
    && d'.pendingOutgoing == d.pendingOutgoing && !d'.myShareBroadcast
    && (d'.pendingMessage.Some? ==> d'.pendingMessage == d.pendingMessage)
    && d'.hist == h.(delivered := h.delivered + multiset{(r, text)})
    && (if d.pendingRound == Some(r) then d'.pendingRound.None? && d'.myShare.None?
        else d'.pendingRound == d.pendingRound && d'.myShare == d.myShare)
  }

  lemma FinishedNode(cfg: Config, n: Uid, d: Driver, r: nat, h: History, text: Bytes, d': Driver)
    requires NodeInv(cfg, n, d) && r <= d.current && r !in d.emitted && n in cfg.edges && HistoryOk(cfg, n, h, d.emitted)
    requires h.initiated == d.hist.initiated && h.delivered == d.hist.delivered
    requires forall q :: q in h.carried <==> q in d.hist.carried || q == r
    requires Finished(d, r, h, text, d')
    ensures NodeInv(cfg, n, d')
  {
    forall k ensures NodeHolds(k, cfg, n, d') {
      assert NodeHolds(k, cfg, n, d);
      if k == Past {
        DeliverKeepsHistory(cfg, n, h, d.emitted, r, text);
      }
    }
  }

  lemma DeliverKeepsHistory(cfg: Config, u: Uid, h: History, emitted: set<nat>, r: nat, text: Bytes)
    requires u in cfg.edges && HistoryOk(cfg, u, h, emitted) && r !in emitted
    ensures HistoryOk(cfg, u, h.(delivered := h.delivered + multiset{(r, text)}), emitted + {r})
  {
    assert (r, text) !in h.delivered;
  }

  lemma FinishedIsGood(cfg: Config, s: System, n: Uid, r: nat, h: History, text: Bytes, d': Driver, out: Outbox)
    requires n in s.nodes && StoredOk(cfg, s, s.nodes[n]) && Finished(s.nodes[n], r, h, text, d')
    requires h.initiated == s.nodes[n].hist.initiated && h.delivered == s.nodes[n].hist.delivered && Extends(s.nodes[n], d')
    requires forall q :: q in h.carried <==> q in s.nodes[n].hist.carried || q == r
    requires forall e :: e in out ==> MessageOk(cfg, Move(s, n, d', out), e.1)
    requires r !in s.nodes[n].hist.carried ==> HasShared(Move(s, n, d', out), n, r) && NewShareOk(s, Move(s, n, d', out), n, r)
    requires exists u :: Carries(Move(s, n, d', out), u, r, Some(text))
    ensures GoodMove(cfg, s, n, d', out)
  {
    var d, s' := s.nodes[n], Move(s, n, d', out);
    forall q, v | q in d'.collectors && v in d'.collectors[q].shares
      ensures IsShareOf(cfg, s', v, q, d'.collectors[q].shares[v])
    {
      ShareKept(cfg, s, n, d', out, v, q, d.collectors[q].shares[v]);
    }
  }

  lemma NodeComputable(cfg: Config, s: System, r: nat)
    requires Inv(cfg, s)
    ensures Computable(cfg, s, r)
  {
    forall u | HasShared(s, u, r)
      ensures u in cfg.edges && HasKeys(u, cfg.parties, cfg.edges[u])
      ensures s.nodes[u].hist.carried[r].Some? ==> TextOk(cfg, s.nodes[u].hist.carried[r].value)
    {
      NodeOf(cfg, s, u);
      NodePast(cfg, u, s.nodes[u]);
    }
  }

  lemma FinishKeepsInv(cfg: Config, s: System, n: Uid, r: nat, h: History, text: Bytes, d': Driver, out: Outbox)
    requires Inv(cfg, s) && n in s.nodes && r <= s.nodes[n].current && r !in s.nodes[n].emitted
    requires n in cfg.edges && HistoryOk(cfg, n, h, s.nodes[n].emitted) && Finished(s.nodes[n], r, h, text, d')
    requires h.initiated == s.nodes[n].hist.initiated && h.delivered == s.nodes[n].hist.delivered && Extends(s.nodes[n], d')
    requires forall q :: q in h.carried <==> q in s.nodes[n].hist.carried || q == r
    requires forall e :: e in out ==> MessageOk(cfg, Move(s, n, d', out), e.1)
    requires r !in s.nodes[n].hist.carried ==> HasShared(Move(s, n, d', out), n, r) && NewShareOk(s, Move(s, n, d', out), n, r)
    requires exists u :: Carries(Move(s, n, d', out), u, r, Some(text))
    ensures Inv(cfg, Move(s, n, d', out))
  {
    NodeOf(cfg, s, n);
    FinishedNode(cfg, n, s.nodes[n], r, h, text, d');
    FinishedIsGood(cfg, s, n, r, h, text, d', out);
    MoveKeepsInv(cfg, s, n, d', out);
  }

  /** What a node knows about a round it is collecting when one more share fits. */
  lemma CollectingFacts(cfg: Config, s: System, n: Uid, r: nat, peer: Uid, payload: Bytes, col: Collector)
    requires Inv(cfg, s) && n in s.nodes && r in s.nodes[n].collectors && IsShareOf(cfg, s, peer, r, payload)
    requires Submit(s.nodes[n].collectors[r], peer, payload) == Some(col)
    ensures col.participants == cfg.parties && col.payloadLen == CHANNEL_PAYLOAD_LEN
    ensures forall v :: v in col.shares ==> IsShareOf(cfg, s, v, r, col.shares[v])
    ensures r <= s.nodes[n].current && r !in s.nodes[n].emitted && !s.nodes[n].myShareBroadcast
    ensures n in col.shares ==> HasShared(s, n, r) && s.nodes[n].pendingRound != Some(r)
  {
    NodeOf(cfg, s, n);
    NodeCollecting(cfg, n, s.nodes[n]);
    NodePending(cfg, n, s.nodes[n]);
    NodeBounded(cfg, n, s.nodes[n]);
  }

  /** Somebody else's share arrives last: ours is already in, and the text decodes. */
  lemma LastShareDecodes(cfg: Config, s: System, n: Uid, r: nat, col: Collector) returns (u: Uid, text: Bytes)
    requires IsGroup(cfg) && Inv(cfg, s) && n in s.nodes && Full(cfg, s, r, col)
    ensures Decode(cfg.crypto, col) == Some(text) && Carries(s, u, r, Some(text)) && LowestInitiator(s, u, r)
  {
    NodeComputable(cfg, s, r);
    SetupOf(cfg, s);
    CausalityOf(cfg, s);
    u, text := DecodeFull(cfg, s, r, col);
  }

  lemma LastShareKeepsInv(cfg: Config, s: System, n: Uid, r: nat, col: Collector, u: Uid, text: Bytes, d': Driver)
    requires Inv(cfg, s) && n in s.nodes && HasShared(s, n, r) && Carries(s, u, r, Some(text))
    requires r <= s.nodes[n].current && r !in s.nodes[n].emitted && !s.nodes[n].myShareBroadcast && s.nodes[n].pendingRound != Some(r)
    requires d' == Complete(s.nodes[n].(collectors := s.nodes[n].collectors[r := col]), r, Some(text)).0
    ensures Inv(cfg, Move(s, n, d', {}))
  {
    var d := s.nodes[n];
    assert d.collectors[r := col] - {r} == d.collectors - {r};
    assert Finished(d, r, d.hist, text, d');
    CarriesKept(s, n, d', {}, u, r, Some(text));
    NodeOf(cfg, s, n);
    NodePast(cfg, n, d);
    FinishKeepsInv(cfg, s, n, r, d.hist, text, d', {});
  }

  /** When only our own message share is missing, everybody else's share is neutral. */
  lemma OthersNeutral(cfg: Config, s: System, n: Uid, r: nat, col: Collector)
    requires n in s.nodes && s.nodes.Keys == cfg.parties && MessageLast(s)
    requires r !in s.nodes[n].hist.carried && col.shares.Keys == cfg.parties - {n}
    requires forall v :: v in col.shares ==> IsShareOf(cfg, s, v, r, col.shares[v])
    ensures forall v :: v in s.nodes && v != n ==> Carries(s, v, r, None)
  {
    forall v | v in s.nodes && v != n ensures Carries(s, v, r, None) {
      assert v in col.shares;
      assert HasShared(s, v, r);
      assert !Carries(s, n, r, None);
    }
  }

  /** The state in which our message share has just been transmitted. */
  lemma SentLast(cfg: Config, s: System, n: Uid, r: nat, col: Collector, text: Bytes, h: History)
    requires Inv(cfg, s) && n in s.nodes && r in s.nodes[n].hist.initiated && r !in s.nodes[n].hist.carried
    requires text == s.nodes[n].hist.initiated[r] && col.shares.Keys == cfg.parties - {n}
    requires forall v :: v in col.shares ==> IsShareOf(cfg, s, v, r, col.shares[v])
    requires h == Transmit(s.nodes[n].hist, r, Some(text))
    ensures forall v :: v in s.nodes && v != n ==> Carries(s, v, r, None)
    ensures var s1 := Move(s, n, s.nodes[n].(hist := h), {});
            MessageLast(s1) && Yields(s1) && HasOrigin(s1)
  {
    var d1 := s.nodes[n].(hist := h);
    var s1 := Move(s, n, d1, {});
    SetupOf(cfg, s);
    CausalityOf(cfg, s);
    OthersNeutral(cfg, s, n, r, col);
    assert NewSharesOk(s, n, d1, {});
    MoveKeepsMessageLast(s, n, d1, {});
    MoveKeepsYields(s, n, d1, {});
    NodeOf(cfg, s, n);
    NodePast(cfg, n, s.nodes[n]);
    MoveKeepsOrigin(s, n, d1, {});
  }

  lemma PayloadLength(cfg: Config, r: nat, u: Uid, text: Option<Bytes>)
    requires IsGroup(cfg) && u in cfg.edges && HasKeys(u, cfg.parties, cfg.edges[u])
    requires text.Some? ==> FRAME_HEADER + |text.value| <= CHANNEL_PAYLOAD_LEN
    ensures |cfg.payload(r, u, text)| == CHANNEL_PAYLOAD_LEN
  {
    PayloadIsShare(cfg, r, u, text);
  }

  /** The round whose message share is about to go out. */
  lemma PendingFacts(cfg: Config, s: System, n: Uid, r: nat)
    requires IsGroup(cfg) && Inv(cfg, s) && n in s.nodes && s.nodes[n].pendingRound == Some(r)
    ensures n in cfg.edges && HasKeys(n, cfg.parties, cfg.edges[n])
    ensures r in s.nodes[n].hist.initiated && r !in s.nodes[n].hist.carried
    ensures TextOk(cfg, s.nodes[n].hist.initiated[r])
    ensures s.nodes[n].myShare == Some(cfg.payload(r, n, Some(s.nodes[n].hist.initiated[r])))
    ensures |s.nodes[n].myShare.value| == CHANNEL_PAYLOAD_LEN
    ensures HistoryOk(cfg, n, Transmit(s.nodes[n].hist, r, Some(s.nodes[n].hist.initiated[r])), s.nodes[n].emitted)
  {
    NodeOf(cfg, s, n);
    var d := s.nodes[n];
    NodePending(cfg, n, d);
    NodePast(cfg, n, d);
    PayloadLength(cfg, r, n, Some(d.hist.initiated[r]));
    TransmitKeepsHistory(cfg, n, d.hist, d.emitted, r, Some(d.hist.initiated[r]));
  }

  lemma OwnComputable(cfg: Config, s: System, n: Uid, r: nat, message: Bytes, h: History)
    requires Inv(cfg, s) && n in s.nodes && h == Transmit(s.nodes[n].hist, r, Some(message))
    requires n in cfg.edges && HasKeys(n, cfg.parties, cfg.edges[n]) && TextOk(cfg, message)
    ensures Computable(cfg, Move(s, n, s.nodes[n].(hist := h), {}), r)
  {
    NodeComputable(cfg, s, r);
    forall v | HasShared(Move(s, n, s.nodes[n].(hist := h), {}), v, r) && v != n ensures HasShared(s, v, r) {}
  }

  lemma OwnShareFull(cfg: Config, s: System, n: Uid, r: nat, col: Collector, own: Collector, message: Bytes, d1: Driver)
    requires n in s.nodes && s.nodes.Keys == cfg.parties && d1 == s.nodes[n].(hist := Transmit(s.nodes[n].hist, r, Some(message)))
    requires r !in s.nodes[n].hist.carried
    requires own == col.(shares := col.shares[n := cfg.payload(r, n, Some(message))])
    requires own.participants == cfg.parties && own.payloadLen == CHANNEL_PAYLOAD_LEN && col.shares.Keys == cfg.parties - {n}
    requires forall v :: v in col.shares ==> IsShareOf(cfg, s, v, r, col.shares[v])
    ensures Full(cfg, Move(s, n, d1, {}), r, own)
  {
    assert own.shares.Keys == cfg.parties;
    forall v | v in own.shares ensures IsShareOf(cfg, Move(s, n, d1, {}), v, r, own.shares[v]) {
      if v != n {
        ShareKept(cfg, s, n, d1, {}, v, r, col.shares[v]);
      }
    }
  }

  /** Our own message share goes out last and completes the round at once. */
  lemma OwnShareDecodes(cfg: Config, s: System, n: Uid, r: nat, own: Collector, message: Bytes, s1: System)
    returns (u: Uid, text: Bytes)
    requires IsGroup(cfg) && Inv(cfg, s) && n in s.nodes
    requires s1 == Move(s, n, s.nodes[n].(hist := Transmit(s.nodes[n].hist, r, Some(message))), {})
    requires n in cfg.edges && HasKeys(n, cfg.parties, cfg.edges[n]) && TextOk(cfg, message)
    requires MessageLast(s1) && Yields(s1) && HasOrigin(s1) && Full(cfg, s1, r, own)
    ensures Carries(s1, u, r, Some(text)) && Decode(cfg.crypto, own) == Some(text)
  {
    SetupOf(cfg, s);
    OwnComputable(cfg, s, n, r, message, s1.nodes[n].hist);
    u, text := DecodeFull(cfg, s1, r, own);
  }

  lemma OwnShareKeepsInv(cfg: Config, s: System, n: Uid, x: Context, r: nat, col: Collector, u: Uid, text: Bytes, d1: Driver, d': Driver, out: Outbox)
    requires Inv(cfg, s) && n in s.nodes && x.me == n && n in cfg.edges && r in s.nodes[n].hist.initiated && r !in s.nodes[n].hist.carried
    requires HistoryOk(cfg, n, Transmit(s.nodes[n].hist, r, Some(s.nodes[n].hist.initiated[r])), s.nodes[n].emitted)
    requires r <= s.nodes[n].current && r !in s.nodes[n].emitted
    requires SendsShare(x, s.nodes[n], r, col) && s.nodes[n].myShare == Some(cfg.payload(r, n, Some(s.nodes[n].hist.initiated[r])))
    requires (d1, out) == AcceptShare(x, s.nodes[n], r, col) && d' == Complete(d1, r, Some(text)).0
    requires Carries(Move(s, n, s.nodes[n].(hist := d1.hist), {}), u, r, Some(text))
    requires forall v :: v in s.nodes && v != n ==> Carries(s, v, r, None)
    ensures Inv(cfg, Move(s, n, d', out))
  {
    var d, s' := s.nodes[n], Move(s, n, d', out);
    assert d1.collectors - {r} == d.collectors - {r};
    assert Finished(d, r, d1.hist, text, d');
    assert Carries(s', u, r, Some(text));
    assert HasShared(s', n, r) && NewShareOk(s, s', n, r);
    FinishKeepsInv(cfg, s, n, r, d1.hist, text, d', out);
  }

  /** The round is complete, decodes to a text, and delivering it keeps the invariant. */
  ghost predicate CompletesWell(cfg: Config, s: System, n: Uid, r: nat, d1: Driver, out: Outbox) {
    && r in d1.collectors && d1.collectors[r].IsComplete() && r !in d1.emitted
    && exists text :: Decode(cfg.crypto, d1.collectors[r]) == Some(text) && Inv(cfg, Move(s, n, Complete(d1, r, Some(text)).0, out))
  }

  lemma ReleaseOutcome(cfg: Config, n: Uid, x: Context, d: Driver, r: nat, col: Collector, d1: Driver, out: Outbox)
    requires x.me == n && SendsShare(x, d, r, col) && (d1, out) == AcceptShare(x, d, r, col) && r in d.hist.initiated
    requires n in cfg.parties && col.participants == cfg.parties && col.payloadLen == |d.myShare.value|
    ensures d1.hist == Transmit(d.hist, r, Some(d.hist.initiated[r])) && d1.emitted == d.emitted
    ensures col.shares.Keys == cfg.parties - {n}
    ensures d1.collectors[r] == col.(shares := col.shares[n := d.myShare.value]) && d1.collectors[r].IsComplete()
  {
    CompleteIsEveryone(d1.collectors[r]);
  }

  lemma ReleaseFacts(cfg: Config, s: System, n: Uid, x: Context, r: nat, peer: Uid, payload: Bytes, col: Collector, d1: Driver, out: Outbox)
    requires IsGroup(cfg) && Inv(cfg, s) && n in s.nodes && x.me == n
    requires r in s.nodes[n].collectors && IsShareOf(cfg, s, peer, r, payload) && SendsShare(x, s.nodes[n], r, col)
    requires Submit(s.nodes[n].collectors[r], peer, payload) == Some(col) && (d1, out) == AcceptShare(x, s.nodes[n], r, col)
    ensures r in s.nodes[n].hist.initiated && d1.hist == Transmit(s.nodes[n].hist, r, Some(s.nodes[n].hist.initiated[r]))
    ensures d1.emitted == s.nodes[n].emitted && col.shares.Keys == cfg.parties - {n}
    ensures d1.collectors[r].IsComplete() && Full(cfg, Move(s, n, s.nodes[n].(hist := d1.hist), {}), r, d1.collectors[r])
    ensures forall v :: v in col.shares ==> IsShareOf(cfg, s, v, r, col.shares[v])
    ensures r <= s.nodes[n].current && r !in s.nodes[n].emitted
  {
    CollectingFacts(cfg, s, n, r, peer, payload, col);
    PendingFacts(cfg, s, n, r);
    SetupOf(cfg, s);
    ReleaseOutcome(cfg, n, x, s.nodes[n], r, col, d1, out);
    OwnShareFull(cfg, s, n, r, col, d1.collectors[r], s.nodes[n].hist.initiated[r], s.nodes[n].(hist := d1.hist));
  }

  lemma ReleasingShare(cfg: Config, s: System, n: Uid, x: Context, r: nat, peer: Uid, payload: Bytes, col: Collector, d1: Driver, out: Outbox)
    requires IsGroup(cfg) && Inv(cfg, s) && n in s.nodes && x.me == n
    requires r in s.nodes[n].collectors && IsShareOf(cfg, s, peer, r, payload) && SendsShare(x, s.nodes[n], r, col)
    requires Submit(s.nodes[n].collectors[r], peer, payload) == Some(col) && (d1, out) == AcceptShare(x, s.nodes[n], r, col)
    ensures CompletesWell(cfg, s, n, r, d1, out)
  {
    ReleaseFacts(cfg, s, n, x, r, peer, payload, col, d1, out);
    PendingFacts(cfg, s, n, r);
    var message, s1 := s.nodes[n].hist.initiated[r], Move(s, n, s.nodes[n].(hist := d1.hist), {});
    SentLast(cfg, s, n, r, col, message, d1.hist);
    var u, text := OwnShareDecodes(cfg, s, n, r, d1.collectors[r], message, s1);
    OwnShareKeepsInv(cfg, s, n, x, r, col, u, text, d1, Complete(d1, r, Some(text)).0, out);
  }

  lemma CompletingShare(cfg: Config, s: System, n: Uid, r: nat, peer: Uid, payload: Bytes, col: Collector, d1: Driver)
    requires IsGroup(cfg) && Inv(cfg, s) && n in s.nodes
    requires r in s.nodes[n].collectors && IsShareOf(cfg, s, peer, r, payload) && col.IsComplete()
    requires Submit(s.nodes[n].collectors[r], peer, payload) == Some(col)
    requires d1 == s.nodes[n].(collectors := s.nodes[n].collectors[r := col])
    ensures CompletesWell(cfg, s, n, r, d1, {})
  {
    CollectingFacts(cfg, s, n, r, peer, payload, col);
    CompleteIsEveryone(col);
    NodeOf(cfg, s, n);
    var u, text := LastShareDecodes(cfg, s, n, r, col);
    LastShareKeepsInv(cfg, s, n, r, col, u, text, Complete(d1, r, Some(text)).0);
  }

  /** An accepted share in each of the three cases: stored, completing, or releasing our own share. */
  lemma AcceptKeepsInv(cfg: Config, s: System, n: Uid, x: Context, r: nat, peer: Uid, payload: Bytes, col: Collector, d1: Driver, out: Outbox)
    requires IsGroup(cfg) && Inv(cfg, s) && n in s.nodes && x.me == n
    requires r in s.nodes[n].collectors && IsShareOf(cfg, s, peer, r, payload)
    requires Submit(s.nodes[n].collectors[r], peer, payload) == Some(col) && (d1, out) == AcceptShare(x, s.nodes[n], r, col)
    ensures r in d1.collectors && col.participants == cfg.parties
    ensures SendsShare(x, s.nodes[n], r, col) ==> d1.collectors[r].IsComplete()
    ensures if d1.collectors[r].IsComplete() then CompletesWell(cfg, s, n, r, d1, out) else Inv(cfg, Move(s, n, d1, out))
  {
    CollectingFacts(cfg, s, n, r, peer, payload, col);
    if SendsShare(x, s.nodes[n], r, col) {
      ReleasingShare(cfg, s, n, x, r, peer, payload, col, d1, out);
    } else if col.IsComplete() {
      CompletingShare(cfg, s, n, r, peer, payload, col, d1);
    } else {
      CompleteIsEveryone(col);
      StoreKeepsInv(cfg, s, n, r, peer, payload, col, d1);
    }
  }
}
