/** What handling one message makes of a node's phase. */
module MeshHandling {
  import opened ByteStrings
  import opened RoundNetwork
  import opened MeshDriver
  import opened MeshInvariant
  import opened MeshRounds
  import opened MeshShares
  import opened MeshRestart
  import opened MeshOnward
  import opened MeshPhases

  // ---- One node handles a message ----

  /** The node's new state is in progress, and it starts no round but later ones. */
  ghost predicate Advances(cfg: Config, p: Round, sent: Outbox, done: Outbox, n: Uid, d': Driver, out: Outbox)
    requires p.texts.Keys == p.lists.Keys
  {
    NodeProgress(cfg, p, sent + out, done, n, d') && forall e :: e in out && e.1.Start? ==> e.1.round > p.id
  }

  /** A node that has finished handles anything. */
  lemma FinishedAdvances(cfg: Config, p: Round, sent: Outbox, done: Outbox, n: Uid, x: Context, m: Message, accepted: bool, now: nat, d: Driver, d': Driver, a: Action)
    requires p.texts.Keys == p.lists.Keys && Registered(p, sent, n, d) && HasFinished(cfg, p, sent, n, d)
    requires x.me == n && (d', a) == Handle(x, d, m, accepted, now)
    ensures Advances(cfg, p, sent, done, n, d', a.outgoing)
  {
    HandleOnward(x, d, m, accepted, now, d', a);
    FinishedKept(cfg, p, sent, sent + a.outgoing, n, d, d');
  }

  /** Expiry of other rounds does not disturb a node that is busy with this one. */
  lemma DropSidelines(cfg: Config, p: Round, sent: Outbox, done: Outbox, n: Uid, x: Context, d: Driver, now: nat, d0: Driver)
    requires Busy(cfg, p, sent, done, n, d) && ContextOf(cfg, n, x) && p.id !in Expired(d, now) && d0 == DropExpired(x, d, now)
    ensures Sidelined(p.id, d, d0) && d0.current == d.current
  {
    var ids := x.roundOrder(Expired(d, now));
    assert Enumerates(ids, Expired(d, now));
    ExpireOthers(x, d, ids, now);
  }

  /** A share of another round goes where it belongs and nowhere else. */
  lemma OtherShare(r: nat, x: Context, d: Driver, m: Message, now: nat, col: Collector, d': Driver, a: Action)
    requires m.Share? && m.round != r && d.pendingRound != Some(m.round) && d.retryAfterPeer != Some(m.round) && m.round in d.collectors
    requires Submit(d.collectors[m.round], m.peer, m.payload) == Some(col) && (d', a) == OnRoundShare(x, d, m, true, now)
    ensures a.outgoing == {} && Sidelined(r, d, d') && d'.current == d.current
  {
    OtherShareEffect(x, d, m, now, col, d.(collectors := d.collectors[m.round := col]), d', a);
    Sidelines(r, d, m.round, col, Decode(x.crypto, col));
  }

  lemma OtherShareEffect(x: Context, d: Driver, m: Message, now: nat, col: Collector, d1: Driver, d': Driver, a: Action)
    requires m.Share? && d.pendingRound != Some(m.round) && d.retryAfterPeer != Some(m.round) && m.round in d.collectors
    requires Submit(d.collectors[m.round], m.peer, m.payload) == Some(col) && (d', a) == OnRoundShare(x, d, m, true, now)
    requires d1 == d.(collectors := d.collectors[m.round := col])
    ensures a.outgoing == {} && d' == if col.IsComplete() then Complete(d1, m.round, Decode(x.crypto, col)).0 else d1
  {
    assert AcceptShare(x, d, m.round, col) == (d1, {});
  }

  lemma Sidelines(r: nat, d: Driver, round: nat, col: Collector, text: Option<Bytes>)
    requires round in d.collectors && d.pendingRound != Some(round) && round != r
    ensures var d1 := d.(collectors := d.collectors[round := col]);
            Sidelined(r, d, d1) && Sidelined(r, d, Complete(d1, round, text).0)
  {
  }

  /** So does the start of another round, which is answered if it is the next one. */
  lemma OtherStart(r: nat, x: Context, d: Driver, m: Message, now: nat, d': Driver, a: Action)
    requires m.Start? && m.round != r && d.pendingRound != Some(m.round) && (d', a) == OnRoundStart(x, d, m, now)
    ensures Sidelined(r, d, d') && (m.round != d.current + 1 ==> d'.current == d.current)
    ensures forall e :: e in a.outgoing ==> e.1.Share?
  {
  }

  lemma OtherRound(r: nat, x: Context, d: Driver, m: Message, now: nat, d': Driver, a: Action)
    requires m.round != r && d.pendingRound != Some(m.round) && d.retryAfterPeer != Some(m.round)
    requires (d', a) == React(x, d, m, true, now)
    ensures Sidelined(r, d, d') && (m.round != d.current + 1 ==> d'.current == d.current)
    ensures forall e :: e in a.outgoing ==> e.1.Share?
  {
    if m.Start? {
      OtherStart(r, x, d, m, now, d', a);
    } else if m.round in d.collectors && Submit(d.collectors[m.round], m.peer, m.payload).Some? {
      OtherShare(r, x, d, m, now, Submit(d.collectors[m.round], m.peer, m.payload).value, d', a);
    }
  }

  /** Messages of the round that change nothing: late starts and repeated shares. */
  lemma IgnoredKeeps(cfg: Config, p: Round, sent: Outbox, done: Outbox, n: Uid, m: Message, d: Driver)
    requires Busy(cfg, p, sent, done, n, d)
    requires Joined(p, done, n) || (m.Start? && !p.Moves(n, m))
    requires m.Share? && m.round == p.id && p.id in d.collectors ==> m.peer in d.collectors[p.id].shares
    ensures Busy(cfg, p, sent, done + {(n, m)}, n, d)
  {
    JoinedBy(p, done, n, m);
  }

  lemma JoinedBy(p: Round, done: Outbox, n: Uid, m: Message)
    ensures Joined(p, done + {(n, m)}, n) <==> Joined(p, done, n) || p.Moves(n, m)
  {
    var done' := done + {(n, m)};
    if Joined(p, done, n) && n != p.leader {
      var m' :| (n, m') in done && p.Moves(n, m');
      assert (n, m') in done';
    }
    assert (n, m) in done';
  }

  // ---- Taking part ----

  lemma AnswerIsParticipate(x: Context, d: Driver, m: Message, now: nat, d1: Driver, share: Bytes)
    requires m.Start? && x.me in m.participants
    requires if m.round == d.current + 1 then d1 == d.(current := m.round)
             else LosesTie(x, d, m) && d1 == AbortPending(d).(retryAfterPeer := Some(m.round))
    requires ComputeShare(x.crypto, m.round, x.me, m.participants, None, m.payloadLen, x.keys) == Some(share)
    ensures var (d', out) := Participate(x, d1, m, share, now); OnRoundStart(x, d, m, now) == (d', Action(None, out))
  {
  }

  /** What taking part leaves: a collector with our neutral share, which goes to everybody else. */
  lemma ParticipateOutcome(cfg: Config, p: Round, n: Uid, x: Context, m: Message, now: nat, d: Driver, share: Bytes, d': Driver, out: Outbox)
    requires p.Valid(cfg) && n in cfg.parties && x.me == n && p.Opens(m) && |share| == CHANNEL_PAYLOAD_LEN
    requires (d', out) == Participate(x, d, m, share, now)
    ensures p.id in d'.collectors && d'.collectors[p.id].shares == map[n := share] && d'.collectors[p.id].deadline > now
    ensures d' == d.(collectors := d'.collectors, hist := d'.hist) && d'.hist.initiated == d.hist.initiated
    ensures out == ToOthers(cfg.parties, n, Share(p.id, n, share))
  {
    EnumerationSize(m.participants, cfg.parties);
    AnswerCollector(cfg, n, m, share, now);
    assert Elements(m.participants) == cfg.parties;
  }

  lemma BroadcastTo(cfg: Config, sent: Outbox, n: Uid, r: nat, share: Bytes)
    ensures HasBroadcast(cfg, sent + ToOthers(cfg.parties, n, Share(r, n, share)), n, r)
  {
    forall v | v in cfg.parties && v != n ensures (v, Share(r, n, share)) in ToOthers(cfg.parties, n, Share(r, n, share)) {}
  }

  lemma ParticipateHelps(cfg: Config, p: Round, sent: Outbox, done: Outbox, n: Uid, m: Message, now: nat, d: Driver, share: Bytes, d': Driver)
    requires p.Moves(n, m) && now >= p.clock(n) && d.current >= p.id && NoShareDone(done, n, p.id)
    requires KeepsText(p, n, d) && d.pendingRound.None? && d.retryAfterPeer == (if n in p.texts then Some(p.id) else None)
    requires p.id in d'.collectors && d'.collectors[p.id].shares == map[n := share] && d'.collectors[p.id].deadline > now
    requires d' == d.(collectors := d'.collectors, hist := d'.hist)
    ensures Helping(cfg, p, sent + ToOthers(cfg.parties, n, Share(p.id, n, share)), done + {(n, m)}, n, d')
  {
    BroadcastTo(cfg, sent, n, p.id, share);
  }

  /** A node that has heard of nothing joins, and an initiator yields to a lower one. */
  lemma MovedAdvances(cfg: Config, p: Round, sent: Outbox, done: Outbox, n: Uid, x: Context, m: Message, now: nat, d: Driver, d': Driver, a: Action)
    requires Prepared(cfg, p) && p.texts.Keys == p.lists.Keys && n in cfg.parties && ContextOf(cfg, n, x) && now >= p.clock(n)
    requires Registered(p, sent, n, d) && Busy(cfg, p, sent, done, n, d) && !Joined(p, done, n) && p.Moves(n, m)
    requires (d', a) == OnRoundStart(x, d, m, now)
    ensures d'.pendingOutgoing == {} && Advances(cfg, p, sent, done + {(n, m)}, n, d', a.outgoing)
  {
    PreparedMeans(cfg, p);
    EnumerationSize(m.participants, cfg.parties);
    assert CanShare(n, m.participants, x.keys);
    var share := ComputeShare(x.crypto, m.round, n, m.participants, None, m.payloadLen, x.keys).value;
    var d1 := if m.round == d.current + 1 then d.(current := m.round) else AbortPending(d).(retryAfterPeer := Some(m.round));
    LessTotal(m.leader, n);
    AnswerIsParticipate(x, d, m, now, d1, share);
    ParticipateOutcome(cfg, p, n, x, m, now, d1, share, d', a.outgoing);
    ParticipateHelps(cfg, p, sent, done, n, m, now, d1, share, d');
    JoinedBy(p, done, n, m);
    RegisteredKept(p, sent, sent + a.outgoing, n, d, d');
  }

  // ---- Shares of the round ----

  /** A share fits the collector unless it is already there. */
  lemma ShareFits(cfg: Config, s: System, n: Uid, m: Message)
    requires IsGroup(cfg) && Inv(cfg, s) && n in s.nodes && m.Share? && MessageOk(cfg, s, m)
    requires m.round in s.nodes[n].collectors && m.peer !in s.nodes[n].collectors[m.round].shares
    ensures Submit(s.nodes[n].collectors[m.round], m.peer, m.payload).Some?
  {
    SetupOf(cfg, s);
    NodeOf(cfg, s, n);
    NodeCollecting(cfg, n, s.nodes[n]);
    NodeComputable(cfg, s, m.round);
    assert HasShared(s, m.peer, m.round);
    PayloadLength(cfg, m.round, m.peer, s.nodes[m.peer].hist.carried[m.round]);
  }

  /** The collector of round r is full and decodes; the node delivers the text and settles. */
  ghost predicate Concludes(cfg: Config, x: Context, d1: Driver, r: nat, now: nat, d': Driver) {
    r !in d1.emitted && exists text :: d' == Settle(x, Complete(d1, r, Some(text)).0, r, false, cfg.parties, now)
  }

  /** A share the collector takes: stored, or completing the round and delivering a text. */
  lemma ShareOutcome(cfg: Config, s: System, n: Uid, x: Context, m: Message, now: nat, d': Driver, a: Action, col: Collector, d1: Driver, out: Outbox)
    requires IsGroup(cfg) && Inv(cfg, s) && n in s.nodes && ContextOf(cfg, n, x) && MessageOk(cfg, s, m)
    requires m.Share? && m.round in s.nodes[n].collectors
    requires Submit(s.nodes[n].collectors[m.round], m.peer, m.payload) == Some(col) && (d1, out) == AcceptShare(x, s.nodes[n], m.round, col)
    requires (d', a) == OnRoundShare(x, s.nodes[n], m, true, now)
    ensures a.outgoing == out && (SendsShare(x, s.nodes[n], m.round, col) ==> d1.collectors[m.round].IsComplete())
    ensures if d1.collectors[m.round].IsComplete() then Concludes(cfg, x, d1, m.round, now, d') else d' == d1
  {
    AcceptKeepsInv(cfg, s, n, x, m.round, m.peer, m.payload, col, d1, out);
  }

  lemma StoredGathers(p: Round, done: Outbox, n: Uid, m: Message, d: Driver, col: Collector, d': Driver)
    requires Gathering(p, done, n, d) && m.Share? && m.round == p.id
    requires Submit(d.collectors[p.id], m.peer, m.payload) == Some(col) && d' == d.(collectors := d.collectors[p.id := col])
    ensures Gathering(p, done + {(n, m)}, n, d')
  {
  }

  lemma CompleteOutcome(d: Driver, r: nat, text: Bytes, d': Driver)
    requires r !in d.emitted && d' == Complete(d, r, Some(text)).0
    ensures d'.current == d.current && HasText(d', r) && d'.hist.initiated == d.hist.initiated
    ensures d'.retryAfterPeer == d.retryAfterPeer && d'.retries == d.retries && d'.pendingOutgoing == d.pendingOutgoing
    ensures d.pendingRound.None? ==> d'.pendingMessage == d.pendingMessage
  {
    assert (r, text) in d'.hist.delivered;
  }

  lemma RestartServes(p: Round, n: Uid, d: Driver, group: set<Uid>, now: nat, d': Driver)
    requires n in p.texts && d.current >= p.id && HasText(d, p.id) && Restarted(d, p.texts[n], group, now, d')
    ensures Served(p, n, d')
  {
    var text :| (p.id, text) in d.hist.delivered;
    assert (p.id, text) in d'.hist.delivered;
    assert d'.current in d'.hist.initiated;
  }

  /** Completing the round at a node that helped: the text is out, and its own text, if any, is started again. */
  lemma HelperServes(cfg: Config, p: Round, n: Uid, x: Context, now: nat, d: Driver, d': Driver)
    requires p.Valid(cfg) && Keyed(cfg) && ContextOf(cfg, n, x) && KeepsText(p, n, d) && d.current >= p.id && HasText(d, p.id)
    requires d.retryAfterPeer == (if n in p.texts then Some(p.id) else None) && d' == Settle(x, d, p.id, false, cfg.parties, now)
    ensures Served(p, n, d') && Onward(n, d, d')
  {
    SettleOnward(x, d, p.id, false, cfg.parties, now, d');
    if n in p.texts {
      var d1 := d.(retryAfterPeer := None);
      RetriesText(cfg, p, n, x, now, d1, d');
      RestartServes(p, n, d1, cfg.parties, now, d');
    }
  }

  lemma RetriesText(cfg: Config, p: Round, n: Uid, x: Context, now: nat, d: Driver, d': Driver)
    requires p.Valid(cfg) && Keyed(cfg) && n in p.texts && ContextOf(cfg, n, x) && KeepsText(p, n, d)
    requires d' == RetryPending(x, d, cfg.parties, now)
    ensures Restarted(d, p.texts[n], cfg.parties, now, d')
  {
    ListedGroup(x, p.texts[n], cfg.parties);
    RetryWaits(x, d, p.texts[n], cfg.parties, x.uidOrder(cfg.parties), now, d');
  }

  /** `d'` with its queue flushed, and all that goes out. */
  ghost predicate Flushed(d': Driver, out: Outbox, d'': Driver, all: Outbox) {
    d'' == d'.(pendingOutgoing := {}) && all == out + d'.pendingOutgoing
  }

  /** A node that has just finished, with what it queued sent along. */
  lemma FinishAdvances(cfg: Config, p: Round, sent: Outbox, done: Outbox, n: Uid, d: Driver, d': Driver, out: Outbox, d'': Driver, all: Outbox)
    requires p.texts.Keys == p.lists.Keys && Registered(p, sent, n, d) && d.current >= p.id && Onward(n, d, d') && Served(p, n, d')
    requires HasBroadcast(cfg, sent + out, n, p.id) && (forall e :: e in out ==> e.1.Share?) && Flushed(d', out, d'', all)
    ensures Advances(cfg, p, sent, done, n, d'', all)
  {
    RegisteredKept(p, sent, sent + all, n, d, d'');
    BroadcastKept(cfg, sent + out, sent + all, n, p.id);
    ServedKept(p, n, d', d'');
  }

  lemma HelperShare(cfg: Config, p: Round, s: System, done: Outbox, n: Uid, x: Context, m: Message, now: nat, d': Driver, a: Action, col: Collector, d'': Driver, all: Outbox)
    requires IsGroup(cfg) && Inv(cfg, s) && n in s.nodes && ContextOf(cfg, n, x) && MessageOk(cfg, s, m) && m.Share? && m.round == p.id
    requires p.Valid(cfg) && Keyed(cfg) && Registered(p, s.sent, n, s.nodes[n]) && n != p.leader && Joined(p, done, n)
    requires Helping(cfg, p, s.sent, done, n, s.nodes[n]) && Submit(s.nodes[n].collectors[p.id], m.peer, m.payload) == Some(col)
    requires (d', a) == OnRoundShare(x, s.nodes[n], m, true, now) && Flushed(d', a.outgoing, d'', all)
    ensures Advances(cfg, p, s.sent, done + {(n, m)}, n, d'', all)
  {
    var d := s.nodes[n];
    var d1 := d.(collectors := d.collectors[p.id := col]);
    assert AcceptShare(x, d, p.id, col) == (d1, {});
    ShareOutcome(cfg, s, n, x, m, now, d', a, col, d1, {});
    HelperAdvances(cfg, p, s.sent, done, n, x, m, now, d, d', col, d1, d'', all);
  }

  lemma HelperAdvances(cfg: Config, p: Round, sent: Outbox, done: Outbox, n: Uid, x: Context, m: Message, now: nat, d: Driver, d': Driver, col: Collector, d1: Driver, d'': Driver, all: Outbox)
    requires p.Valid(cfg) && Keyed(cfg) && ContextOf(cfg, n, x) && m.Share? && m.round == p.id
    requires Registered(p, sent, n, d) && n != p.leader && Joined(p, done, n) && Helping(cfg, p, sent, done, n, d)
    requires Submit(d.collectors[p.id], m.peer, m.payload) == Some(col) && d1 == d.(collectors := d.collectors[p.id := col])
    requires if col.IsComplete() then Concludes(cfg, x, d1, p.id, now, d') else d' == d1
    requires Flushed(d', {}, d'', all)
    ensures Advances(cfg, p, sent, done + {(n, m)}, n, d'', all)
  {
    if col.IsComplete() {
      HelperConcludes(cfg, p, sent, done + {(n, m)}, n, x, now, d, d1, d', d'', all);
    } else {
      HelperStores(cfg, p, sent, done, n, m, d, col, d', d'', all);
    }
  }

  lemma HelperStores(cfg: Config, p: Round, sent: Outbox, done: Outbox, n: Uid, m: Message, d: Driver, col: Collector, d': Driver, d'': Driver, all: Outbox)
    requires p.texts.Keys == p.lists.Keys && m.Share? && m.round == p.id
    requires Registered(p, sent, n, d) && n != p.leader && Joined(p, done, n) && Helping(cfg, p, sent, done, n, d)
    requires Submit(d.collectors[p.id], m.peer, m.payload) == Some(col) && d' == d.(collectors := d.collectors[p.id := col])
    requires Flushed(d', {}, d'', all)
    ensures Advances(cfg, p, sent, done + {(n, m)}, n, d'', all)
  {
    assert d'' == d' && sent + all == sent;
    StoredGathers(p, done, n, m, d, col, d');
    JoinedBy(p, done, n, m);
  }

  lemma HelperConcludes(cfg: Config, p: Round, sent: Outbox, done: Outbox, n: Uid, x: Context, now: nat, d: Driver, d1: Driver, d': Driver, d'': Driver, all: Outbox)
    requires p.Valid(cfg) && Keyed(cfg) && ContextOf(cfg, n, x) && Registered(p, sent, n, d) && HasBroadcast(cfg, sent, n, p.id)
    requires KeepsText(p, n, d) && d.pendingRound.None? && d.retryAfterPeer == (if n in p.texts then Some(p.id) else None) && d.current >= p.id
    requires d1 == d.(collectors := d1.collectors) && Concludes(cfg, x, d1, p.id, now, d') && Flushed(d', {}, d'', all)
    ensures Advances(cfg, p, sent, done, n, d'', all)
  {
    var text :| d' == Settle(x, Complete(d1, p.id, Some(text)).0, p.id, false, cfg.parties, now);
    var d2 := Complete(d1, p.id, Some(text)).0;
    CompleteOutcome(d1, p.id, text, d2);
    HelperServes(cfg, p, n, x, now, d2, d');
    HelperAfter(cfg, p, sent, done, n, d, d2, d', d'', all);
  }

  lemma HelperAfter(cfg: Config, p: Round, sent: Outbox, done: Outbox, n: Uid, d: Driver, d2: Driver, d': Driver, d'': Driver, all: Outbox)
    requires p.texts.Keys == p.lists.Keys && Registered(p, sent, n, d) && HasBroadcast(cfg, sent, n, p.id) && d2.current >= p.id
    requires d2.hist.initiated == d.hist.initiated && d2.pendingOutgoing == d.pendingOutgoing
    requires Served(p, n, d') && Onward(n, d2, d') && Flushed(d', {}, d'', all)
    ensures Advances(cfg, p, sent, done, n, d'', all)
  {
    RegisteredKept(p, sent, sent, n, d, d2);
    assert sent + {} == sent;
    FinishAdvances(cfg, p, sent, done, n, d2, d', {}, d'', all);
  }

  /** The leader's collector fills up exactly when it releases its own share. */
  lemma LeaderSends(cfg: Config, p: Round, s: System, done: Outbox, n: Uid, x: Context, m: Message, col: Collector)
    requires Inv(cfg, s) && n in s.nodes && x.me == n && Holding(p, done, n, s.nodes[n]) && m.Share? && m.round == p.id && MessageOk(cfg, s, m)
    requires Submit(s.nodes[n].collectors[p.id], m.peer, m.payload) == Some(col)
    ensures col.participants == cfg.parties && (SendsShare(x, s.nodes[n], p.id, col) <==> col.Missing() == {n})
    ensures !SendsShare(x, s.nodes[n], p.id, col) ==> !col.IsComplete()
  {
    NodeOf(cfg, s, n);
    NodePending(cfg, n, s.nodes[n]);
    CollectingFacts(cfg, s, n, p.id, m.peer, m.payload, col);
    CompleteIsEveryone(col);
  }

  lemma LeaderShare(cfg: Config, p: Round, s: System, done: Outbox, n: Uid, x: Context, m: Message, now: nat, d': Driver, a: Action, col: Collector, d'': Driver, all: Outbox)
    requires IsGroup(cfg) && Inv(cfg, s) && n in s.nodes && ContextOf(cfg, n, x) && MessageOk(cfg, s, m) && m.Share? && m.round == p.id
    requires p.Valid(cfg) && Registered(p, s.sent, n, s.nodes[n]) && n == p.leader
    requires Holding(p, done, n, s.nodes[n]) && Submit(s.nodes[n].collectors[p.id], m.peer, m.payload) == Some(col)
    requires (d', a) == OnRoundShare(x, s.nodes[n], m, true, now) && Flushed(d', a.outgoing, d'', all)
    ensures Advances(cfg, p, s.sent, done + {(n, m)}, n, d'', all)
  {
    var (d1, out) := AcceptShare(x, s.nodes[n], p.id, col);
    LeaderSends(cfg, p, s, done, n, x, m, col);
    ShareOutcome(cfg, s, n, x, m, now, d', a, col, d1, out);
    LeaderAdvances(cfg, p, s.sent, done, n, x, m, now, s.nodes[n], d', col, d1, out, d'', all);
  }

  lemma LeaderAdvances(cfg: Config, p: Round, sent: Outbox, done: Outbox, n: Uid, x: Context, m: Message, now: nat, d: Driver, d': Driver, col: Collector, d1: Driver, out: Outbox, d'': Driver, all: Outbox)
    requires p.texts.Keys == p.lists.Keys && x.me == n && m.Share? && m.round == p.id && n == p.leader
    requires Registered(p, sent, n, d) && Holding(p, done, n, d) && Submit(d.collectors[p.id], m.peer, m.payload) == Some(col)
    requires (d1, out) == AcceptShare(x, d, p.id, col) && Flushed(d', out, d'', all)
    requires col.participants == cfg.parties && (SendsShare(x, d, p.id, col) <==> col.Missing() == {n})
    requires SendsShare(x, d, p.id, col) <==> d1.collectors[p.id].IsComplete()
    requires if d1.collectors[p.id].IsComplete() then Concludes(cfg, x, d1, p.id, now, d') else d' == d1
    ensures Advances(cfg, p, sent, done + {(n, m)}, n, d'', all)
  {
    if SendsShare(x, d, p.id, col) {
      LeaderConcludes(cfg, p, sent, done + {(n, m)}, n, x, now, d, col, d1, out, d', d'', all);
    } else {
      LeaderStores(cfg, p, sent, done, n, m, d, col, d', d'', all);
    }
  }

  lemma LeaderStores(cfg: Config, p: Round, sent: Outbox, done: Outbox, n: Uid, m: Message, d: Driver, col: Collector, d': Driver, d'': Driver, all: Outbox)
    requires p.texts.Keys == p.lists.Keys && m.Share? && m.round == p.id && n == p.leader
    requires Registered(p, sent, n, d) && Holding(p, done, n, d) && col.Missing() != {n}
    requires Submit(d.collectors[p.id], m.peer, m.payload) == Some(col) && d' == d.(collectors := d.collectors[p.id := col])
    requires Flushed(d', {}, d'', all)
    ensures Advances(cfg, p, sent, done + {(n, m)}, n, d'', all)
  {
    assert d'' == d' && sent + all == sent;
    StoredGathers(p, done, n, m, d, col, d');
  }

  lemma LeaderConcludes(cfg: Config, p: Round, sent: Outbox, done: Outbox, n: Uid, x: Context, now: nat, d: Driver, col: Collector, d1: Driver, out: Outbox, d': Driver, d'': Driver, all: Outbox)
    requires p.texts.Keys == p.lists.Keys && n == p.leader && x.me == n && Registered(p, sent, n, d) && d.current >= p.id && d.retryAfterPeer.None?
    requires col.participants == cfg.parties && SendsShare(x, d, p.id, col) && (d1, out) == AcceptShare(x, d, p.id, col)
    requires Concludes(cfg, x, d1, p.id, now, d') && Flushed(d', out, d'', all)
    ensures Advances(cfg, p, sent, done, n, d'', all)
  {
    var text :| d' == Settle(x, Complete(d1, p.id, Some(text)).0, p.id, false, cfg.parties, now);
    assert d' == Complete(d1, p.id, Some(text)).0;
    CompleteOutcome(d1, p.id, text, d');
    StoreOnward(x, d, p.id, col, Some(text));
    BroadcastTo(cfg, sent, n, p.id, d.myShare.value);
    FinishAdvances(cfg, p, sent, done, n, d, d', out, d'', all);
  }

  // ---- Any message at a busy node ----

  lemma QuietAdvances(cfg: Config, p: Round, sent: Outbox, done: Outbox, n: Uid, d': Driver, out: Outbox, d'': Driver, all: Outbox)
    requires p.texts.Keys == p.lists.Keys && NodeProgress(cfg, p, sent + out, done, n, d') && (forall e :: e in out ==> e.1.Share?)
    requires Flushed(d', out, d'', all)
    ensures Advances(cfg, p, sent, done, n, d'', all)
  {
    assert d'' == d' && all == out;
  }

  lemma OtherRoundAdvances(cfg: Config, p: Round, sent: Outbox, done: Outbox, n: Uid, x: Context, m: Message, now: nat, d: Driver, d': Driver, a: Action, d'': Driver, all: Outbox)
    requires p.texts.Keys == p.lists.Keys && NodeProgress(cfg, p, sent, done, n, d) && Busy(cfg, p, sent, done, n, d) && m.round != p.id
    requires (d', a) == React(x, d, m, true, now) && Flushed(d', a.outgoing, d'', all)
    ensures Advances(cfg, p, sent, done + {(n, m)}, n, d'', all)
  {
    OtherRound(p.id, x, d, m, now, d', a);
    SidelineKeeps(cfg, p, sent, sent + a.outgoing, done, done + {(n, m)}, n, d, d');
    QuietAdvances(cfg, p, sent, done + {(n, m)}, n, d', a.outgoing, d'', all);
  }

  lemma IgnoredAdvances(cfg: Config, p: Round, sent: Outbox, done: Outbox, n: Uid, m: Message, d: Driver, d'': Driver, all: Outbox)
    requires p.texts.Keys == p.lists.Keys && Registered(p, sent, n, d) && Busy(cfg, p, sent, done, n, d)
    requires Joined(p, done, n) || (m.Start? && !p.Moves(n, m))
    requires m.Share? && m.round == p.id && p.id in d.collectors ==> m.peer in d.collectors[p.id].shares
    requires Flushed(d, {}, d'', all)
    ensures Advances(cfg, p, sent, done + {(n, m)}, n, d'', all)
  {
    IgnoredKeeps(cfg, p, sent, done, n, m, d);
    assert sent + {} == sent;
    QuietAdvances(cfg, p, sent, done + {(n, m)}, n, d, {}, d'', all);
  }

  /** A start that does not make `n` take part, or not any more. */
  lemma StartIgnored(cfg: Config, p: Round, sent: Outbox, done: Outbox, n: Uid, x: Context, m: Message, now: nat, d: Driver)
    requires Prepared(cfg, p) && p.texts.Keys == p.lists.Keys && Busy(cfg, p, sent, done, n, d) && x.me == n && p.Opens(m) && (Joined(p, done, n) || !p.Moves(n, m))
    ensures OnRoundStart(x, d, m, now) == (d, NoAction)
  {
    PreparedMeans(cfg, p);
    LessTotal(p.leader, m.leader);
  }

  lemma StartAdvances(cfg: Config, p: Round, sent: Outbox, done: Outbox, n: Uid, x: Context, m: Message, now: nat, d: Driver, d': Driver, a: Action, d'': Driver, all: Outbox)
    requires Prepared(cfg, p) && p.texts.Keys == p.lists.Keys && n in cfg.parties && ContextOf(cfg, n, x) && now >= p.clock(n) && p.Opens(m)
    requires Registered(p, sent, n, d) && Busy(cfg, p, sent, done, n, d)
    requires (d', a) == OnRoundStart(x, d, m, now) && Flushed(d', a.outgoing, d'', all)
    ensures Advances(cfg, p, sent, done + {(n, m)}, n, d'', all)
  {
    if p.Moves(n, m) && !Joined(p, done, n) {
      MovedAdvances(cfg, p, sent, done, n, x, m, now, d, d', a);
      assert d'' == d' && all == a.outgoing;
    } else {
      StartIgnored(cfg, p, sent, done, n, x, m, now, d);
      IgnoredAdvances(cfg, p, sent, done, n, m, d, d'', all);
    }
  }

  lemma ShareAdvances(cfg: Config, p: Round, s: System, done: Outbox, n: Uid, x: Context, m: Message, now: nat, d': Driver, a: Action, d'': Driver, all: Outbox)
    requires IsGroup(cfg) && Inv(cfg, s) && n in s.nodes && ContextOf(cfg, n, x) && MessageOk(cfg, s, m) && m.Share? && m.round == p.id
    requires Prepared(cfg, p) && p.texts.Keys == p.lists.Keys && Registered(p, s.sent, n, s.nodes[n]) && Busy(cfg, p, s.sent, done, n, s.nodes[n]) && Joined(p, done, n)
    requires (d', a) == OnRoundShare(x, s.nodes[n], m, true, now) && Flushed(d', a.outgoing, d'', all)
    ensures Advances(cfg, p, s.sent, done + {(n, m)}, n, d'', all)
  {
    PreparedMeans(cfg, p);
    var d := s.nodes[n];
    if m.peer in d.collectors[p.id].shares {
      IgnoredAdvances(cfg, p, s.sent, done, n, m, d, d'', all);
    } else {
      ShareFits(cfg, s, n, m);
      var col := Submit(d.collectors[p.id], m.peer, m.payload).value;
      if n == p.leader {
        LeaderShare(cfg, p, s, done, n, x, m, now, d', a, col, d'', all);
      } else {
        HelperShare(cfg, p, s, done, n, x, m, now, d', a, col, d'', all);
      }
    }
  }

  /** Whatever a busy node receives in the allowed order, the round progresses. */
  lemma BusyAdvances(cfg: Config, p: Round, s: System, done: Outbox, n: Uid, x: Context, m: Message, now: nat, d': Driver, a: Action, d'': Driver, all: Outbox)
    requires IsGroup(cfg) && Inv(cfg, s) && Progress(cfg, p, s, done) && n in s.nodes && ContextOf(cfg, n, x) && (n, m) in s.sent
    requires Busy(cfg, p, s.sent, done, n, s.nodes[n]) && now >= p.clock(n) && (m.Share? && m.round == p.id ==> Joined(p, done, n))
    requires (d', a) == React(x, s.nodes[n], m, true, now) && Flushed(d', a.outgoing, d'', all)
    ensures Advances(cfg, p, s.sent, done + {(n, m)}, n, d'', all)
  {
    InProgressMeans(cfg, p, s.sent, done, n, s.nodes[n]);
    if m.round != p.id {
      OtherRoundAdvances(cfg, p, s.sent, done, n, x, m, now, s.nodes[n], d', a, d'', all);
    } else if m.Start? {
      StartAdvances(cfg, p, s.sent, done, n, x, m, now, s.nodes[n], d', a, d'', all);
    } else {
      SentOf(cfg, s, (n, m));
      ShareAdvances(cfg, p, s, done, n, x, m, now, d', a, d'', all);
    }
  }
}
