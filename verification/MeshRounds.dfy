/** Steps that send or collect shares, and the decoding of complete rounds. */
module MeshRounds {
  import opened ByteStrings
  import opened RoundNetwork
  import opened Cancellation
  import opened MeshDriver
  import opened MeshInvariant
  import opened MeshQuiet

  lemma MoveTwice(s: System, n: Uid, d1: Driver, d2: Driver, out: Outbox)
    ensures Move(Move(s, n, d1, {}), n, d2, out) == Move(s, n, d2, out)
  {
  }

  // ---- Answering a start ----

  lemma TransmitKeepsHistory(cfg: Config, u: Uid, h: History, emitted: set<nat>, r: nat, text: Option<Bytes>)
    requires u in cfg.edges && HistoryOk(cfg, u, h, emitted)
    requires r !in h.carried && HasKeys(u, cfg.parties, cfg.edges[u])
    requires text.Some? ==> r in h.initiated && text.value == h.initiated[r]
    ensures HistoryOk(cfg, u, Transmit(h, r, text), emitted)
  {
  }

  lemma AnswerCollector(cfg: Config, n: Uid, m: Message, share: Bytes, now: nat)
    requires m.Start? && n in cfg.parties && |share| == CHANNEL_PAYLOAD_LEN
    requires Enumerates(m.participants, cfg.parties) && |m.participants| >= 2 && m.payloadLen == CHANNEL_PAYLOAD_LEN
    ensures var own := Submit(NewCollector(m.round, m.participants, m.deadlineSecs, m.payloadLen, now), n, share);
            && own.Some? && own.value.participants == cfg.parties
            && own.value.payloadLen == CHANNEL_PAYLOAD_LEN && own.value.shares == map[n := share] && cfg.parties != {n}
  {
    assert (set u | u in m.participants) == cfg.parties;
    EnumerationSize(m.participants, cfg.parties);
  }

  lemma ParticipateNode(cfg: Config, n: Uid, x: Context, d: Driver, m: Message, share: Bytes, now: nat, d': Driver, out: Outbox)
    requires x.me == n && n in cfg.edges && NodeInv(cfg, n, d) && m.Start? && n in cfg.parties
    requires Enumerates(m.participants, cfg.parties) && |m.participants| >= 2 && m.payloadLen == CHANNEL_PAYLOAD_LEN
    requires m.round <= d.current && m.round !in d.hist.carried && m.round !in d.emitted && d.pendingRound != Some(m.round)
    requires HasKeys(n, cfg.parties, cfg.edges[n]) && |share| == CHANNEL_PAYLOAD_LEN
    requires (d', out) == Participate(x, d, m, share, now)
    ensures NodeInv(cfg, n, d')
    ensures m.round in d'.collectors && d'.collectors[m.round].shares == map[n := share]
  {
    AnswerCollector(cfg, n, m, share, now);
    forall k ensures NodeHolds(k, cfg, n, d') {
      assert NodeHolds(k, cfg, n, d);
      if k == Past {
        TransmitKeepsHistory(cfg, n, d.hist, d.emitted, m.round, None);
      }
    }
  }

  /** A neutral share for a round that a lower node, or nobody here, initiated. */
  lemma ParticipateMove(cfg: Config, s: System, n: Uid, x: Context, m: Message, share: Bytes, now: nat, d': Driver, out: Outbox)
    requires Inv(cfg, s) && n in s.nodes && ContextOf(cfg, n, x) && m.Start? && MessageOk(cfg, s, m)
    requires |m.participants| >= 2 && HasKeys(n, cfg.parties, cfg.edges[n])
    requires share == cfg.payload(m.round, n, None) && |share| == CHANNEL_PAYLOAD_LEN
    requires var d := s.nodes[n];
             && m.round <= d.current && m.round !in d.hist.carried && m.round !in d.emitted && d.pendingRound != Some(m.round)
             && (m.round in d.hist.initiated ==> Less(m.leader, n))
    requires (d', out) == Participate(x, s.nodes[n], m, share, now)
    ensures Inv(cfg, Move(s, n, d', out))
  {
    NodeOf(cfg, s, n);
    ParticipateNode(cfg, n, x, s.nodes[n], m, share, now, d', out);
    ParticipateIsGood(cfg, s, n, x, m, share, now, d', out);
    MoveKeepsInv(cfg, s, n, d', out);
  }

  lemma ParticipateIsGood(cfg: Config, s: System, n: Uid, x: Context, m: Message, share: Bytes, now: nat, d': Driver, out: Outbox)
    requires n in s.nodes && m.Start? && Initiated(s, m.leader, m.round) && x.me == n
    requires StoredOk(cfg, s, s.nodes[n]) && share == cfg.payload(m.round, n, None)
    requires m.round !in s.nodes[n].hist.carried && (m.round in s.nodes[n].hist.initiated ==> Less(m.leader, n))
    requires (d', out) == Participate(x, s.nodes[n], m, share, now)
    requires d'.collectors[m.round].shares == map[n := share]
    ensures GoodMove(cfg, s, n, d', out)
  {
    var d, s', r := s.nodes[n], Move(s, n, d', out), m.round;
    assert IsShareOf(cfg, s', n, r, share);
    forall q, v | q in d'.collectors && v in d'.collectors[q].shares
      ensures IsShareOf(cfg, s', v, q, d'.collectors[q].shares[v])
    {
      if q != r {
        ShareKept(cfg, s, n, d', out, v, q, d.collectors[q].shares[v]);
      }
    }
    assert NewShareOk(s, s', n, r);
  }

  lemma StartKeepsInv(cfg: Config, s: System, n: Uid, x: Context, m: Message, now: nat, d': Driver, a: Action)
    requires IsGroup(cfg) && Inv(cfg, s) && n in s.nodes && ContextOf(cfg, n, x)
    requires m.Start? && MessageOk(cfg, s, m) && (d', a) == OnRoundStart(x, s.nodes[n], m, now)
    ensures Inv(cfg, Move(s, n, d', a.outgoing))
  {
    var d := s.nodes[n];
    if m.round != d.current + 1 && !LosesTie(x, d, m) {
      assert Move(s, n, d', a.outgoing) == s;
    } else {
      var d1 := if m.round == d.current + 1 then d.(current := m.round) else AbortPending(d).(retryAfterPeer := Some(m.round));
      NodeOf(cfg, s, n);
      YieldNode(cfg, n, x, d, m, d1);
      QuietKeepsInv(cfg, s, n, d1, {});
      AnswerStart(cfg, s, n, x, m, now, d1, d', a);
    }
  }

  lemma AnswerStart(cfg: Config, s: System, n: Uid, x: Context, m: Message, now: nat, d1: Driver, d': Driver, a: Action)
    requires IsGroup(cfg) && n in s.nodes && ContextOf(cfg, n, x) && m.Start?
    requires Inv(cfg, Move(s, n, d1, {})) && MessageOk(cfg, s, m) && d1.hist == s.nodes[n].hist
    requires m.round <= d1.current && m.round !in d1.hist.carried && m.round !in d1.emitted && d1.pendingRound != Some(m.round)
    requires m.round in d1.hist.initiated ==> Less(m.leader, n)
    requires var share := ComputeShare(x.crypto, m.round, n, m.participants, None, m.payloadLen, x.keys);
             if n !in m.participants || share.None? then (d', a) == (d1, NoAction)
             else var (d2, out) := Participate(x, d1, m, share.value, now); (d', a) == (d2, Action(None, out))
    ensures Inv(cfg, Move(s, n, d', a.outgoing))
  {
    var s1 := Move(s, n, d1, {});
    var share := ComputeShare(x.crypto, m.round, n, m.participants, None, m.payloadLen, x.keys);
    if n in m.participants && share.Some? {
      ShareIsPayload(cfg, n, x, m.round, m.participants, None);
      ParticipateMove(cfg, s1, n, x, m, share.value, now, d', a.outgoing);
      MoveTwice(s, n, d1, d', a.outgoing);
    }
  }

  /** Accepting the next round id, or giving up our own round to a lower initiator. */
  lemma YieldNode(cfg: Config, n: Uid, x: Context, d: Driver, m: Message, d': Driver)
    requires NodeInv(cfg, n, d) && m.Start? && x.me == n
    requires m.round == d.current + 1 || LosesTie(x, d, m)
    requires d' == if m.round == d.current + 1 then d.(current := m.round) else AbortPending(d).(retryAfterPeer := Some(m.round))
    ensures NodeInv(cfg, n, d') && Quiet(d, d') && d'.hist == d.hist
    ensures m.round <= d'.current && m.round !in d'.hist.carried && m.round !in d'.emitted && d'.pendingRound != Some(m.round)
    ensures m.round in d'.hist.initiated ==> Less(m.leader, n)
  {
    NodeBounded(cfg, n, d);
    NodePending(cfg, n, d);
    NodeCollecting(cfg, n, d);
    if m.round == d.current + 1 {
      SkipRound(cfg, n, d, d');
    } else {
      var d1 := Discard(d, m.round);
      assert d1 == AbortPending(d);
      DiscardNode(cfg, n, d, m.round, d1);
      NodeQueue(cfg, n, d1);
      Bookkeeping(cfg, n, d1, d');
      QuietTransitive(d, d1, d');
    }
  }
}
