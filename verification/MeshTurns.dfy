/** Rounds in turn: whoever yields in one round opens the next one. */
module MeshTurns {
  import opened ByteStrings
  import opened RoundNetwork
  import opened MeshDriver
  import opened MeshInvariant
  import opened Mesh
  import opened MeshRestart
  import opened MeshOnward
  import opened MeshPhases
  import opened MeshHandling
  import opened MeshDelivery

  // ---- Where a node stands while a round is played ----

  function StartOf(r: nat, n: Uid, list: seq<Uid>): Message {
    Start(r, n, list, CHANNEL_ROUND_DEADLINE_SECS, CHANNEL_PAYLOAD_LEN)
  }

  /** `n` has sent everybody the same start of round r, and no other. */
  ghost predicate Announced(cfg: Config, sent: Outbox, n: Uid, r: nat, list: seq<Uid>) {
    && Enumerates(list, cfg.parties) && (forall v :: v in cfg.parties && v != n ==> (v, StartOf(r, n, list)) in sent)
    && forall e :: e in sent && e.1.Start? && e.1.round == r && e.1.leader == n ==> e.1 == StartOf(r, n, list)
  }

  ghost predicate HasAnnounced(cfg: Config, sent: Outbox, n: Uid, r: nat) {
    exists list :: Announced(cfg, sent, n, r, list)
  }

  /** An initiator that yielded in round `p` has opened the next one with its own text. */
  ghost predicate Reopened(p: Round, n: Uid, d: Driver)
    requires n in p.texts
  {
    var r := p.id + 1;
    && d.current == r && d.pendingRound == Some(r) && r in d.collectors && d.collectors[r].shares == map[] && d.collectors[r].deadline > p.clock(n)
    && d.pendingMessage == Some(p.texts[n]) && d.retries < MAX_CONFLICT_RETRIES
    && r in d.hist.initiated && d.hist.initiated[r] == p.texts[n]
  }

  /** Done with round `p` and in place for the next one. */
  ghost predicate Ready(cfg: Config, p: Round, sent: Outbox, n: Uid, d: Driver) {
    && d.pendingOutgoing == {} && d.retryAfterPeer.None?
    && if p.Loses(n) then Reopened(p, n, d) && HasAnnounced(cfg, sent, n, p.id + 1)
       else d.current == p.id && d.pendingRound.None?
  }

  /** It has not delivered the round, and its counter is not past it. */
  ghost predicate Behind(p: Round, d: Driver) {
    !HasText(d, p.id) && d.current <= p.id
  }

  ghost predicate InStep(cfg: Config, p: Round, sent: Outbox, n: Uid, d: Driver) {
    Behind(p, d) || (HasText(d, p.id) && Ready(cfg, p, sent, n, d))
  }

  ghost predicate AllInStep(cfg: Config, p: Round, s: System) {
    forall n :: n in s.nodes ==> InStep(cfg, p, s.sent, n, s.nodes[n])
  }

  /** A delivery in order, of the round or an earlier one, while the next round's collectors do not expire either. */
  ghost predicate TakesTurn(cfg: Config, p: Round, s: System, done: Outbox, e: Delivery) {
    InOrder(cfg, p, s, done, e) && e.m.round <= p.id && p.id + 1 !in Expired(s.nodes[e.n], e.now)
  }

  // ---- A node that is ready stays so ----

  lemma ReadyKept(cfg: Config, p: Round, sent: Outbox, sent': Outbox, n: Uid, d: Driver, d': Driver)
    requires Ready(cfg, p, sent, n, d) && Sidelined(p.id + 1, d, d') && d'.current == d.current && sent <= sent'
    requires forall e :: e in sent' && e !in sent && e.1.Start? ==> e.1.leader != n
    ensures Ready(cfg, p, sent', n, d')
  {
    if p.Loses(n) {
      var list :| Announced(cfg, sent, n, p.id + 1, list);
      assert Announced(cfg, sent', n, p.id + 1, list);
    }
  }

  lemma ReadyDrops(cfg: Config, p: Round, sent: Outbox, n: Uid, x: Context, now: nat, d: Driver, d0: Driver)
    requires Ready(cfg, p, sent, n, d) && x.Valid() && p.id + 1 !in Expired(d, now) && d0 == DropExpired(x, d, now)
    ensures d0 == d.(collectors := d0.collectors) && Sidelined(p.id + 1, d, d0)
  {
    var ids := x.roundOrder(Expired(d, now));
    assert Enumerates(ids, Expired(d, now));
    ExpireOthers(x, d, ids, now);
  }

  lemma ReadyHandles(cfg: Config, p: Round, sent: Outbox, n: Uid, x: Context, m: Message, now: nat, d: Driver, d': Driver, a: Action)
    requires Ready(cfg, p, sent, n, d) && x.Valid() && m.round <= p.id && p.id + 1 !in Expired(d, now)
    requires (d', a) == Handle(x, d, m, true, now)
    ensures Ready(cfg, p, sent + a.outgoing, n, d')
  {
    var d0 := DropExpired(x, d, now);
    var (d1, b) := React(x, d0, m, true, now);
    ReadyDrops(cfg, p, sent, n, x, now, d, d0);
    ReadyKept(cfg, p, sent, sent, n, d, d0);
    ReadyReacts(cfg, p, sent, n, x, m, now, d0, d1, b);
    assert d' == d1 && a.outgoing == b.outgoing;
  }

  lemma ReadyReacts(cfg: Config, p: Round, sent: Outbox, n: Uid, x: Context, m: Message, now: nat, d: Driver, d': Driver, a: Action)
    requires Ready(cfg, p, sent, n, d) && m.round <= p.id && (d', a) == React(x, d, m, true, now)
    ensures Ready(cfg, p, sent + a.outgoing, n, d') && d'.pendingOutgoing == {}
  {
    PassedRound(p.id + 1, x, d, m, now, d', a);
    ReadyKept(cfg, p, sent, sent + a.outgoing, n, d, d');
  }

  lemma PassedRound(r: nat, x: Context, d: Driver, m: Message, now: nat, d': Driver, a: Action)
    requires m.round <= d.current && m.round != r && d.pendingRound != Some(m.round) && d.retryAfterPeer.None?
    requires (d', a) == React(x, d, m, true, now)
    ensures Sidelined(r, d, d') && d'.current == d.current && forall e :: e in a.outgoing ==> e.1.Share?
  {
    OtherRound(r, x, d, m, now, d', a);
  }

  // ---- A node that is behind ----

  lemma BehindStart(p: Round, x: Context, d: Driver, m: Message, now: nat, d': Driver, a: Action)
    requires Behind(p, d) && m.Start? && m.round <= p.id && (d', a) == OnRoundStart(x, d, m, now)
    ensures Behind(p, d')
  {
    assert d'.hist.delivered == d.hist.delivered;
  }

  lemma BehindOtherShare(p: Round, x: Context, d: Driver, m: Message, now: nat, col: Collector, d': Driver, a: Action)
    requires Behind(p, d) && m.Share? && m.round != p.id && d.pendingRound != Some(m.round) && d.retryAfterPeer != Some(m.round)
    requires m.round in d.collectors && Submit(d.collectors[m.round], m.peer, m.payload) == Some(col)
    requires (d', a) == OnRoundShare(x, d, m, true, now)
    ensures Behind(p, d')
  {
    OtherShareEffect(x, d, m, now, col, d.(collectors := d.collectors[m.round := col]), d', a);
  }

  lemma RetryBegins(cfg: Config, p: Round, n: Uid, x: Context, now: nat, d: Driver, d': Driver) returns (list: seq<Uid>, share: Bytes)
    requires Prepared(cfg, p) && n in p.texts && ContextOf(cfg, n, x) && KeepsText(p, n, d) && d' == RetryPending(x, d, cfg.parties, now)
    ensures Enumerates(list, cfg.parties) && Elements(list) == cfg.parties
    ensures var (d1, out) := Begin(x, d.(retries := d.retries + 1), p.texts[n], list, share, now);
            d' == d1.(pendingOutgoing := d1.pendingOutgoing + out)
  {
    PreparedMeans(cfg, p);
    list := x.uidOrder(cfg.parties);
    assert Enumerates(list, cfg.parties);
    ListedGroup(x, p.texts[n], cfg.parties);
    share := ComputeShare(x.crypto, d.current + 1, x.me, list, Some(p.texts[n]), CHANNEL_PAYLOAD_LEN, x.keys).value;
    RetryIsBegin(x, d, p.texts[n], cfg.parties, list, now, share);
  }

  /** The next round as an initiator that yielded opens it. */
  lemma RetryReopens(cfg: Config, p: Round, n: Uid, x: Context, now: nat, d: Driver, d': Driver) returns (list: seq<Uid>)
    requires Prepared(cfg, p) && n in p.texts && ContextOf(cfg, n, x) && KeepsText(p, n, d) && now >= p.clock(n)
    requires d.current == p.id && d.pendingOutgoing == {} && d' == RetryPending(x, d, cfg.parties, now)
    ensures Enumerates(list, cfg.parties) && d'.pendingOutgoing == ToOthers(cfg.parties, n, StartOf(p.id + 1, n, list))
    ensures Reopened(p, n, d') && d'.retryAfterPeer == d.retryAfterPeer
  {
    var share;
    list, share := RetryBegins(cfg, p, n, x, now, d, d');
    var (d1, out) := Begin(x, d.(retries := d.retries + 1), p.texts[n], list, share, now);
    BeginReopens(cfg, p, n, x, now, d.(retries := d.retries + 1), list, share, d1, out);
  }

  lemma BeginReopens(cfg: Config, p: Round, n: Uid, x: Context, now: nat, d: Driver, list: seq<Uid>, share: Bytes, d': Driver, out: Outbox)
    requires n in p.texts && x.me == n && Elements(list) == cfg.parties && now >= p.clock(n) && d.current == p.id
    requires (d', out) == Begin(x, d, p.texts[n], list, share, now)
    ensures Reopened(p, n, d') && d'.retryAfterPeer == d.retryAfterPeer && d'.pendingOutgoing == d.pendingOutgoing
    ensures out == ToOthers(cfg.parties, n, StartOf(p.id + 1, n, list))
  {
  }

  /** Nobody has announced a round beyond its counter. */
  lemma NothingAnnounced(cfg: Config, s: System, n: Uid, r: nat)
    requires Inv(cfg, s) && n in s.nodes && s.nodes[n].current < r
    ensures forall e :: e in s.sent && e.1.Start? && e.1.leader == n ==> e.1.round != r
  {
    NodeOf(cfg, s, n);
    NodeBounded(cfg, n, s.nodes[n]);
    forall e | e in s.sent && e.1.Start? && e.1.leader == n ensures e.1.round != r {
      SentOf(cfg, s, e);
    }
  }

  lemma Announces(cfg: Config, sent: Outbox, n: Uid, r: nat, list: seq<Uid>, out: Outbox, all: Outbox)
    requires Enumerates(list, cfg.parties) && all == out + ToOthers(cfg.parties, n, StartOf(r, n, list)) && forall e :: e in out ==> e.1.Share?
    requires forall e :: e in sent && e.1.Start? && e.1.leader == n ==> e.1.round != r
    ensures Announced(cfg, sent + all, n, r, list)
  {
  }

  // ---- Concluding the round ----

  lemma ConcludesText(cfg: Config, x: Context, d1: Driver, r: nat, now: nat, d': Driver, d'': Driver)
    requires Concludes(cfg, x, d1, r, now, d') && d''.hist == d'.hist
    ensures HasText(d'', r)
  {
    var text :| d' == Settle(x, Complete(d1, r, Some(text)).0, r, false, cfg.parties, now);
    var d2 := Complete(d1, r, Some(text)).0;
    SettleOnward(x, d2, r, false, cfg.parties, now, d');
    assert (r, text) in d2.hist.delivered;
    assert (r, text) in d''.hist.delivered;
  }

  /** A node that leads the round or has nothing of its own to send. */
  lemma WinnerReady(cfg: Config, p: Round, sent: Outbox, n: Uid, x: Context, now: nat, d1: Driver, d': Driver)
    requires Concludes(cfg, x, d1, p.id, now, d') && !p.Loses(n) && d1.current == p.id && d1.retryAfterPeer.None? && d1.pendingOutgoing == {}
    requires d1.pendingRound.None? || d1.pendingRound == Some(p.id)
    ensures Ready(cfg, p, sent, n, d') && d'.pendingOutgoing == {}
  {
  }

  /** A node that yielded: it opens the next round and announces it. */
  lemma LoserReady(cfg: Config, p: Round, sent: Outbox, n: Uid, x: Context, now: nat, d1: Driver, d': Driver, out: Outbox, d'': Driver, all: Outbox)
    requires Prepared(cfg, p) && p.Loses(n) && ContextOf(cfg, n, x) && now >= p.clock(n) && Concludes(cfg, x, d1, p.id, now, d')
    requires KeepsText(p, n, d1) && d1.current == p.id && d1.pendingRound.None? && d1.retryAfterPeer == Some(p.id) && d1.pendingOutgoing == {}
    requires (forall e :: e in out ==> e.1.Share?) && (forall e :: e in sent && e.1.Start? && e.1.leader == n ==> e.1.round != p.id + 1)
    requires Flushed(d', out, d'', all)
    ensures Ready(cfg, p, sent + all, n, d'')
  {
    var text :| d' == Settle(x, Complete(d1, p.id, Some(text)).0, p.id, false, cfg.parties, now);
    var d2 := Complete(d1, p.id, Some(text)).0;
    CompleteOutcome(d1, p.id, text, d2);
    var d3 := d2.(retryAfterPeer := None);
    assert d' == RetryPending(x, d3, cfg.parties, now);
    var list := RetryReopens(cfg, p, n, x, now, d3, d');
    Announces(cfg, sent, n, p.id + 1, list, out, all);
  }

  /** What a node that takes part, and is not past the round, has waiting. */
  ghost predicate Concluding(p: Round, n: Uid, d: Driver) {
    && d.current == p.id && d.pendingOutgoing == {}
    && if p.Loses(n) then KeepsText(p, n, d) && d.pendingRound.None? && d.retryAfterPeer == Some(p.id)
       else d.retryAfterPeer.None? && (d.pendingRound.None? || d.pendingRound == Some(p.id))
  }

  lemma BusyConcluding(cfg: Config, p: Round, sent: Outbox, done: Outbox, n: Uid, d: Driver)
    requires p.leader in p.texts && Behind(p, d) && Busy(cfg, p, sent, done, n, d) && Joined(p, done, n) && d.pendingOutgoing == {}
    ensures Concluding(p, n, d)
  {
  }

  lemma AcceptConcluding(p: Round, n: Uid, x: Context, d: Driver, r: nat, col: Collector, d1: Driver, out: Outbox)
    requires Concluding(p, n, d) && (d1, out) == AcceptShare(x, d, r, col)
    ensures Concluding(p, n, d1) && d1.hist.delivered == d.hist.delivered && forall e :: e in out ==> e.1.Share?
  {
  }

  lemma AcceptedInStep(cfg: Config, p: Round, sent: Outbox, n: Uid, x: Context, now: nat, d1: Driver, out: Outbox, d': Driver, d'': Driver, all: Outbox)
    requires Prepared(cfg, p) && ContextOf(cfg, n, x) && now >= p.clock(n) && Concluding(p, n, d1) && Flushed(d', out, d'', all)
    requires Concludes(cfg, x, d1, p.id, now, d') || (d' == d1 && Behind(p, d1))
    requires forall e :: e in sent && e.1.Start? && e.1.leader == n ==> e.1.round != p.id + 1
    requires forall e :: e in out ==> e.1.Share?
    ensures InStep(cfg, p, sent + all, n, d'')
  {
    if d' == d1 && Behind(p, d1) {
      assert Behind(p, d'');
    } else {
      ConcludesText(cfg, x, d1, p.id, now, d', d'');
      if p.Loses(n) {
        LoserReady(cfg, p, sent, n, x, now, d1, d', out, d'', all);
      } else {
        WinnerReady(cfg, p, sent + all, n, x, now, d1, d');
        assert d'' == d';
      }
    }
  }

  /** A share of the round at a node that is behind: it stays so, or concludes and is ready. */
  lemma ShareInStep(cfg: Config, p: Round, s: System, done: Outbox, n: Uid, x: Context, m: Message, now: nat, d': Driver, a: Action, d'': Driver, all: Outbox)
    requires IsGroup(cfg) && Inv(cfg, s) && Prepared(cfg, p) && p.leader in p.texts && n in s.nodes && ContextOf(cfg, n, x)
    requires MessageOk(cfg, s, m) && m.Share? && m.round == p.id && now >= p.clock(n) && s.nodes[n].pendingOutgoing == {}
    requires Behind(p, s.nodes[n]) && Busy(cfg, p, s.sent, done, n, s.nodes[n]) && Joined(p, done, n)
    requires (d', a) == OnRoundShare(x, s.nodes[n], m, true, now) && Flushed(d', a.outgoing, d'', all)
    ensures InStep(cfg, p, s.sent + all, n, d'')
  {
    var d := s.nodes[n];
    var stored := Submit(d.collectors[p.id], m.peer, m.payload);
    if stored.Some? {
      var (d1, out) := AcceptShare(x, d, p.id, stored.value);
      ShareOutcome(cfg, s, n, x, m, now, d', a, stored.value, d1, out);
      BusyConcluding(cfg, p, s.sent, done, n, d);
      AcceptConcluding(p, n, x, d, p.id, stored.value, d1, out);
      NothingAnnounced(cfg, s, n, p.id + 1);
      AcceptedInStep(cfg, p, s.sent, n, x, now, d1, out, d', d'', all);
    } else {
      assert d'' == d;
    }
  }

  lemma BehindReacts(cfg: Config, p: Round, s: System, done: Outbox, n: Uid, x: Context, m: Message, now: nat, d': Driver, a: Action, d'': Driver, all: Outbox)
    requires IsGroup(cfg) && Inv(cfg, s) && Prepared(cfg, p) && p.leader in p.texts && n in s.nodes && ContextOf(cfg, n, x)
    requires MessageOk(cfg, s, m) && m.round <= p.id && now >= p.clock(n) && s.nodes[n].pendingOutgoing == {}
    requires Behind(p, s.nodes[n]) && Busy(cfg, p, s.sent, done, n, s.nodes[n]) && (m.Share? && m.round == p.id ==> Joined(p, done, n))
    requires (d', a) == React(x, s.nodes[n], m, true, now) && Flushed(d', a.outgoing, d'', all)
    ensures InStep(cfg, p, s.sent + all, n, d'')
  {
    if m.Share? && m.round == p.id {
      ShareInStep(cfg, p, s, done, n, x, m, now, d', a, d'', all);
    } else {
      BusyElsewhere(cfg, p, s.sent, done, n, s.nodes[n], m);
      BehindElsewhere(p, x, s.nodes[n], m, now, d', a);
      assert Behind(p, d'');
    }
  }

  lemma BusyElsewhere(cfg: Config, p: Round, sent: Outbox, done: Outbox, n: Uid, d: Driver, m: Message)
    requires Busy(cfg, p, sent, done, n, d)
    ensures m.round != p.id ==> d.pendingRound != Some(m.round) && d.retryAfterPeer != Some(m.round)
  {
  }

  lemma BehindElsewhere(p: Round, x: Context, d: Driver, m: Message, now: nat, d': Driver, a: Action)
    requires Behind(p, d) && m.round <= p.id && (d', a) == React(x, d, m, true, now)
    requires m.Share? ==> m.round != p.id && d.pendingRound != Some(m.round) && d.retryAfterPeer != Some(m.round)
    ensures Behind(p, d')
  {
    if m.Start? {
      BehindStart(p, x, d, m, now, d', a);
    } else if m.round in d.collectors && Submit(d.collectors[m.round], m.peer, m.payload).Some? {
      BehindOtherShare(p, x, d, m, now, Submit(d.collectors[m.round], m.peer, m.payload).value, d', a);
    }
  }

  lemma BehindDrops(cfg: Config, p: Round, sent: Outbox, done: Outbox, n: Uid, x: Context, now: nat, d: Driver, d0: Driver)
    requires Behind(p, d) && Busy(cfg, p, sent, done, n, d) && x.Valid() && p.id !in Expired(d, now) && d0 == DropExpired(x, d, now)
    ensures Behind(p, d0) && d0.pendingOutgoing == d.pendingOutgoing
  {
    var ids := x.roundOrder(Expired(d, now));
    assert Enumerates(ids, Expired(d, now));
    ExpireOthers(x, d, ids, now);
  }

  // ---- Whole turns ----

  lemma BehindHandles(cfg: Config, p: Round, s: System, done: Outbox, e: Delivery, d': Driver, a: Action)
    requires IsGroup(cfg) && Inv(cfg, s) && Progress(cfg, p, s, done) && TakesTurn(cfg, p, s, done, e)
    requires Behind(p, s.nodes[e.n]) && Busy(cfg, p, s.sent, done, e.n, s.nodes[e.n]) && s.nodes[e.n].pendingOutgoing == {}
    requires (d', a) == Handle(e.x, s.nodes[e.n], e.m, true, e.now)
    ensures InStep(cfg, p, s.sent + a.outgoing, e.n, d')
  {
    var d0 := DropExpired(e.x, s.nodes[e.n], e.now);
    var (d1, b) := React(e.x, d0, e.m, true, e.now);
    ExpiryKeeps(cfg, p, s, done, e, d0);
    BehindDrops(cfg, p, s.sent, done, e.n, e.x, e.now, s.nodes[e.n], d0);
    BehindAfterExpiry(cfg, p, s, done, e, d0, Move(s, e.n, d0, {}), d1, b, d', a.outgoing);
  }

  lemma BehindAfterExpiry(cfg: Config, p: Round, s: System, done: Outbox, e: Delivery, d0: Driver, s0: System, d1: Driver, b: Action, d': Driver, out: Outbox)
    requires IsGroup(cfg) && TakesTurn(cfg, p, s, done, e) && s0 == Move(s, e.n, d0, {}) && Inv(cfg, s0) && Progress(cfg, p, s0, done)
    requires Behind(p, d0) && Busy(cfg, p, s.sent, done, e.n, d0) && d0.pendingOutgoing == {}
    requires (d1, b) == React(e.x, d0, e.m, true, e.now) && Flushed(d1, b.outgoing, d', out)
    ensures InStep(cfg, p, s.sent + out, e.n, d')
  {
    assert s0.sent == s.sent && s0.nodes[e.n] == d0;
    SentOf(cfg, s0, (e.n, e.m));
    BehindReacts(cfg, p, s0, done, e.n, e.x, e.m, e.now, d1, b, d', out);
  }

  lemma TextKept(me: Uid, d: Driver, d': Driver, r: nat)
    requires HasText(d, r) && Onward(me, d, d')
    ensures HasText(d', r)
  {
    var text :| (r, text) in d.hist.delivered;
    assert (r, text) in d'.hist.delivered;
  }

  /** The node that handles a message stays in step and goes onward. */
  lemma TurnInStep(cfg: Config, p: Round, s: System, done: Outbox, e: Delivery, d': Driver, a: Action)
    requires IsGroup(cfg) && Inv(cfg, s) && Progress(cfg, p, s, done) && AllInStep(cfg, p, s) && TakesTurn(cfg, p, s, done, e)
    requires (d', a) == Handle(e.x, s.nodes[e.n], e.m, true, e.now)
    ensures InStep(cfg, p, s.sent + a.outgoing, e.n, d') && Onward(e.n, s.nodes[e.n], d')
    ensures forall f :: f in a.outgoing && f.1.Start? ==> f.1.leader == e.n
  {
    var d := s.nodes[e.n];
    InProgressMeans(cfg, p, s.sent, done, e.n, d);
    HandleOnward(e.x, d, e.m, true, e.now, d', a);
    assert InStep(cfg, p, s.sent, e.n, d);
    if Behind(p, d) {
      BehindHandles(cfg, p, s, done, e, d', a);
    } else {
      ReadyHandles(cfg, p, s.sent, e.n, e.x, e.m, e.now, d, d', a);
      TextKept(e.n, d, d', p.id);
    }
  }

  lemma OthersInStep(cfg: Config, p: Round, sent: Outbox, out: Outbox, n: Uid, v: Uid, d: Driver)
    requires InStep(cfg, p, sent, v, d) && v != n && forall f :: f in out && f.1.Start? ==> f.1.leader == n
    ensures InStep(cfg, p, sent + out, v, d)
  {
    if !Behind(p, d) {
      ReadyKept(cfg, p, sent, sent + out, v, d, d);
    }
  }

  lemma MoveInStep(cfg: Config, p: Round, s: System, n: Uid, d': Driver, out: Outbox)
    requires AllInStep(cfg, p, s) && n in s.nodes && InStep(cfg, p, s.sent + out, n, d')
    requires forall f :: f in out && f.1.Start? ==> f.1.leader == n
    ensures AllInStep(cfg, p, Move(s, n, d', out))
  {
    var s' := Move(s, n, d', out);
    forall v | v in s'.nodes ensures InStep(cfg, p, s'.sent, v, s'.nodes[v]) {
      if v != n {
        OthersInStep(cfg, p, s.sent, out, n, v, s.nodes[v]);
      }
    }
  }

  /** What has been delivered stays delivered. */
  ghost predicate Remembered(s: System, s': System) {
    forall n :: n in s.nodes ==> n in s'.nodes && forall e :: e in s.nodes[n].hist.delivered ==> e in s'.nodes[n].hist.delivered
  }

  lemma TurnKeeps(cfg: Config, p: Round, s: System, done: Outbox, e: Delivery, s': System)
    requires IsGroup(cfg) && Inv(cfg, s) && Progress(cfg, p, s, done) && AllInStep(cfg, p, s) && TakesTurn(cfg, p, s, done, e)
    requires s' == Apply(s, AsStep(e))
    ensures Inv(cfg, s') && Progress(cfg, p, s', done + {(e.n, e.m)}) && AllInStep(cfg, p, s') && Remembered(s, s')
  {
    DeliveryKeeps(cfg, p, s, done, e, s');
    var (d', a) := Handle(e.x, s.nodes[e.n], e.m, true, e.now);
    TurnInStep(cfg, p, s, done, e, d', a);
    MoveInStep(cfg, p, s, e.n, d', a.outgoing);
  }

  /** A sequence of deliveries, each in turn, leads from (s, done) to (s', done'). */
  ghost predicate Turns(cfg: Config, p: Round, s: System, done: Outbox, es: seq<Delivery>, s': System, done': Outbox)
    decreases |es|
  {
    if es == [] then s' == s && done' == done
    else TakesTurn(cfg, p, s, done, es[0]) && Turns(cfg, p, Apply(s, AsStep(es[0])), done + {(es[0].n, es[0].m)}, es[1..], s', done')
  }

  lemma {:induction false} TurnsKeep(cfg: Config, p: Round, s: System, done: Outbox, es: seq<Delivery>, s': System, done': Outbox)
    requires IsGroup(cfg) && Inv(cfg, s) && Progress(cfg, p, s, done) && AllInStep(cfg, p, s) && Turns(cfg, p, s, done, es, s', done')
    ensures Inv(cfg, s') && Progress(cfg, p, s', done') && AllInStep(cfg, p, s') && Remembered(s, s')
    decreases |es|
  {
    if es != [] {
      var s1 := Apply(s, AsStep(es[0]));
      TurnKeeps(cfg, p, s, done, es[0], s1);
      TurnsKeep(cfg, p, s1, done + {(es[0].n, es[0].m)}, es[1..], s', done');
      RememberedOn(s, s1, s');
    }
  }

  lemma RememberedOn(s: System, s1: System, s': System)
    requires Remembered(s, s1) && Remembered(s1, s')
    ensures Remembered(s, s')
  {
  }

  // ---- From one round to the next ----

  /** `next` is the round that the initiators who yielded in `p` have opened. */
  ghost predicate Next(cfg: Config, p: Round, s: System, next: Round) {
    && Prepared(cfg, next) && next.id == p.id + 1 && next.texts == p.texts - {p.leader} && next.texts.Keys == next.lists.Keys
    && (forall u, v :: u in next.lists && v in cfg.parties && v != u ==> (v, next.Opening(u)) in s.sent)
    && forall u :: u in next.texts ==>
         u in s.nodes && next.id in s.nodes[u].collectors && next.clock(u) < s.nodes[u].collectors[next.id].deadline
  }

  /** All messages of the round are handled: everybody is ready. */
  lemma AllReady(cfg: Config, p: Round, s: System, done: Outbox, n: Uid)
    requires Inv(cfg, s) && Progress(cfg, p, s, done) && AllInStep(cfg, p, s) && AllHandled(cfg, p.id, s.sent, done) && n in s.nodes
    ensures Ready(cfg, p, s.sent, n, s.nodes[n])
  {
    AllFinished(cfg, p, s, done, n);
    assert InStep(cfg, p, s.sent, n, s.nodes[n]);
  }

  /** Somebody other than `u`. */
  lemma Another(group: set<Uid>, u: Uid) returns (v: Uid)
    requires |group| >= 2
    ensures v in group && v != u
  {
    if group <= {u} {
      SubsetSize(group, {u});
      assert false;
    }
    v :| v in group && v !in {u};
  }

  /** Every start of the next round is one of its openings. */
  lemma NextStarts(cfg: Config, p: Round, s: System, next: Round, e: (Uid, Message))
    requires Inv(cfg, s) && Next(cfg, p, s, next) && |cfg.parties| >= 2 && e in s.sent && e.1.Start? && e.1.round == next.id
    requires e.1.leader in s.nodes ==> Ready(cfg, p, s.sent, e.1.leader, s.nodes[e.1.leader])
    ensures next.Opens(e.1)
  {
    var u := e.1.leader;
    SentOf(cfg, s, e);
    NodeOf(cfg, s, u);
    NodeBounded(cfg, u, s.nodes[u]);
    assert p.Loses(u) && u in next.texts;
    var list :| Announced(cfg, s.sent, u, p.id + 1, list);
    var v := Another(cfg.parties, u);
    assert (v, next.Opening(u)) in s.sent;
    SameStart(cfg, s.sent, u, p.id + 1, list, e, (v, next.Opening(u)));
  }

  lemma SameStart(cfg: Config, sent: Outbox, u: Uid, r: nat, list: seq<Uid>, e: (Uid, Message), f: (Uid, Message))
    requires Announced(cfg, sent, u, r, list) && e in sent && f in sent
    requires e.1.Start? && e.1.round == r && e.1.leader == u && f.1.Start? && f.1.round == r && f.1.leader == u
    ensures e.1 == f.1
  {
  }

  lemma NextNode(cfg: Config, p: Round, s: System, next: Round, n: Uid)
    requires Inv(cfg, s) && Next(cfg, p, s, next) && n in s.nodes && Ready(cfg, p, s.sent, n, s.nodes[n])
    ensures OpenNode(next, next.texts.Keys, s.sent, n, s.nodes[n])
  {
    NodeOf(cfg, s, n);
    NodeBounded(cfg, n, s.nodes[n]);
    if n in next.texts {
      ReopenedIsOpener(p, next, n, s.nodes[n]);
    }
  }

  lemma ReopenedIsOpener(p: Round, next: Round, n: Uid, d: Driver)
    requires n in p.texts && Reopened(p, n, d) && d.retryAfterPeer.None? && next.id == p.id + 1 && n in next.texts && next.texts[n] == p.texts[n]
    requires next.clock(n) < d.collectors[next.id].deadline
    ensures Opener(next, n, d)
  {
  }

  /** The end of one round is the opening of the next. */
  lemma NextOpens(cfg: Config, p: Round, s: System, done: Outbox, next: Round)
    requires Inv(cfg, s) && Progress(cfg, p, s, done) && AllInStep(cfg, p, s) && AllHandled(cfg, p.id, s.sent, done) && Next(cfg, p, s, next)
    ensures Progress(cfg, next, s, {}) && AllInStep(cfg, next, s)
  {
    SetupOf(cfg, s);
    PreparedMeans(cfg, p);
    PreparedMeans(cfg, next);
    forall n | n in s.nodes ensures Ready(cfg, p, s.sent, n, s.nodes[n]) {
      AllReady(cfg, p, s, done, n);
    }
    forall e | e in s.sent && e.1.Start? && e.1.round == next.id ensures next.Opens(e.1) {
      NextStarts(cfg, p, s, next, e);
    }
    forall n | n in s.nodes ensures OpenNode(next, next.texts.Keys, s.sent, n, s.nodes[n]) {
      NextNode(cfg, p, s, next, n);
    }
    OpenProgress(cfg, next, s);
    OpenInStep(cfg, next, s);
  }

  /** When a round has been opened, nobody has delivered it. */
  lemma OpenInStep(cfg: Config, p: Round, s: System)
    requires Inv(cfg, s) && Open(cfg, p, p.texts.Keys, s)
    ensures AllInStep(cfg, p, s)
  {
    forall n | n in s.nodes ensures Behind(p, s.nodes[n]) {
      assert OpenNode(p, p.texts.Keys, s.sent, n, s.nodes[n]);
      NodeOf(cfg, s, n);
      NodeBounded(cfg, n, s.nodes[n]);
      NodeCollecting(cfg, n, s.nodes[n]);
      NodePast(cfg, n, s.nodes[n]);
    }
  }
}
