/** A round that any nodes have opened at once: the phases of its nodes, and what is true at its end. */
module MeshPhases {
  import opened ByteStrings
  import opened RoundNetwork
  import opened MeshDriver
  import opened MeshInvariant
  import opened Mesh
  import opened MeshRestart
  import opened MeshOnward

  /**
   * One round in progress: everybody who initiated it, with text and listing of the group, the
   * lowest of them, and a reading of each node's clock at its start.
   */
  datatype Round = Round(id: nat, leader: Uid, texts: map<Uid, Bytes>, lists: map<Uid, seq<Uid>>, clock: Uid -> nat)
  {
    ghost predicate Valid(cfg: Config) {
      && id > 0 && |cfg.parties| >= 2 && leader in texts && texts.Keys == lists.Keys && texts.Keys <= cfg.parties
      && (forall u :: u in texts && u != leader ==> Less(leader, u))
      && (forall u :: u in texts ==> FRAME_HEADER + |texts[u]| <= CHANNEL_PAYLOAD_LEN)
      && (forall u :: u in lists ==> Enumerates(lists[u], cfg.parties))
    }

    function Opening(u: Uid): Message
      requires u in lists
    {
      Start(id, u, lists[u], CHANNEL_ROUND_DEADLINE_SECS, CHANNEL_PAYLOAD_LEN)
    }

    predicate Opens(m: Message) {
      m.Start? && m.leader in lists && m == Opening(m.leader)
    }

    /** A start that makes `n` take part: an initiator yields only to a lower one. */
    predicate Moves(n: Uid, m: Message) {
      Opens(m) && (n in texts ==> Less(m.leader, n))
    }

    predicate Loses(n: Uid) {
      n in texts && n != leader
    }
  }

  // A valid round of a keyed group, under seal.
  ghost predicate Prepared(cfg: Config, p: Round) {
    Sealed(_ => p.Valid(cfg) && Keyed(cfg))
  }

  lemma PreparedMeans(cfg: Config, p: Round)
    ensures Prepared(cfg, p) <==> p.Valid(cfg) && Keyed(cfg)
  {
    var q := (k: Seal) => p.Valid(cfg) && Keyed(cfg);
    assert q(Seal) <==> p.Valid(cfg) && Keyed(cfg);
  }

  /** `n` leads the round or has handled a start that makes it take part. */
  ghost predicate Joined(p: Round, done: Outbox, n: Uid) {
    n == p.leader || exists m :: (n, m) in done && p.Moves(n, m)
  }

  ghost predicate HasBroadcast(cfg: Config, sent: Outbox, n: Uid, r: nat) {
    forall v :: v in cfg.parties && v != n ==> exists payload :: (v, Share(r, n, payload)) in sent
  }

  /** Every share addressed to `n` that it has handled is in its collector. */
  ghost predicate Collected(done: Outbox, n: Uid, r: nat, col: Collector) {
    forall u, payload :: (n, Share(r, u, payload)) in done ==> u in col.shares
  }

  ghost predicate NoShareDone(done: Outbox, n: Uid, r: nat) {
    forall u, payload :: (n, Share(r, u, payload)) !in done
  }

  /** We have started some later round with this text. */
  ghost predicate TriedLater(d: Driver, r: nat, text: Bytes) {
    exists q :: r < q <= d.current && q in d.hist.initiated && d.hist.initiated[q] == text
  }

  ghost predicate HasText(d: Driver, r: nat) {
    exists text :: (r, text) in d.hist.delivered
  }

  // ---- The phases of a node ----

  /** It has delivered the round and, if it yielded, has started another one with its own text. */
  ghost predicate Served(p: Round, n: Uid, d: Driver) {
    d.current >= p.id && HasText(d, p.id) && (p.Loses(n) ==> TriedLater(d, p.id, p.texts[n]))
  }

  ghost predicate HasFinished(cfg: Config, p: Round, sent: Outbox, n: Uid, d: Driver) {
    Served(p, n, d) && HasBroadcast(cfg, sent, n, p.id)
  }

  ghost predicate Gathering(p: Round, done: Outbox, n: Uid, d: Driver) {
    && d.current >= p.id && p.id in d.collectors && d.collectors[p.id].deadline > p.clock(n)
    && Collected(done, n, p.id, d.collectors[p.id])
  }

  ghost predicate KeepsText(p: Round, n: Uid, d: Driver) {
    n in p.texts ==> d.pendingMessage == Some(p.texts[n]) && d.retries < MAX_CONFLICT_RETRIES
  }

  /** An initiator that has not yielded. */
  ghost predicate Holding(p: Round, done: Outbox, n: Uid, d: Driver) {
    && Gathering(p, done, n, d) && KeepsText(p, n, d)
    && d.pendingRound == Some(p.id) && d.retryAfterPeer.None?
  }

  /** It has sent a neutral share; an initiator among these will try again after the round. */
  ghost predicate Helping(cfg: Config, p: Round, sent: Outbox, done: Outbox, n: Uid, d: Driver) {
    && Gathering(p, done, n, d) && KeepsText(p, n, d)
    && d.pendingRound.None? && d.retryAfterPeer == (if n in p.texts then Some(p.id) else None)
    && n in d.collectors[p.id].shares && HasBroadcast(cfg, sent, n, p.id)
  }

  /** It has heard of nothing yet. */
  ghost predicate Resting(p: Round, d: Driver) {
    d.current == p.id - 1 && d.pendingRound.None? && d.retryAfterPeer.None? && p.id !in d.collectors
  }

  /** The phases before a node has finished. */
  ghost predicate Busy(cfg: Config, p: Round, sent: Outbox, done: Outbox, n: Uid, d: Driver) {
    if n == p.leader then Holding(p, done, n, d) && d.collectors[p.id].Missing() != {n}
    else if Joined(p, done, n) then Helping(cfg, p, sent, done, n, d)
    else NoShareDone(done, n, p.id) && if n in p.texts then Holding(p, done, n, d) else Resting(p, d)
  }

  /** Nothing is queued, the round is ours exactly if we initiated it, and every opening is on its way to us. */
  ghost predicate Registered(p: Round, sent: Outbox, n: Uid, d: Driver)
    requires p.texts.Keys == p.lists.Keys
  {
    && d.pendingOutgoing == {}
    && (p.id in d.hist.initiated <==> n in p.texts) && (n in p.texts ==> d.hist.initiated[p.id] == p.texts[n])
    && forall u :: u in p.texts && u != n ==> (n, p.Opening(u)) in sent
  }

  ghost predicate NodeProgress(cfg: Config, p: Round, sent: Outbox, done: Outbox, n: Uid, d: Driver)
    requires p.texts.Keys == p.lists.Keys
  {
    Registered(p, sent, n, d) && (HasFinished(cfg, p, sent, n, d) || Busy(cfg, p, sent, done, n, d))
  }

  // NodeProgress under seal.
  ghost predicate InProgress(cfg: Config, p: Round, sent: Outbox, done: Outbox, n: Uid, d: Driver)
    requires p.texts.Keys == p.lists.Keys
  {
    Sealed(_ => NodeProgress(cfg, p, sent, done, n, d))
  }

  lemma InProgressMeans(cfg: Config, p: Round, sent: Outbox, done: Outbox, n: Uid, d: Driver)
    requires p.texts.Keys == p.lists.Keys
    ensures InProgress(cfg, p, sent, done, n, d) <==> NodeProgress(cfg, p, sent, done, n, d)
  {
    var q := (k: Seal) => NodeProgress(cfg, p, sent, done, n, d);
    assert q(Seal) <==> NodeProgress(cfg, p, sent, done, n, d);
  }

  ghost predicate Progress(cfg: Config, p: Round, s: System, done: Outbox) {
    && Prepared(cfg, p) && p.leader in p.texts && p.texts.Keys == p.lists.Keys && p.texts.Keys <= cfg.parties
    && s.nodes.Keys == cfg.parties
    && (forall e :: e in s.sent && e.1.Start? && e.1.round == p.id ==> p.Opens(e.1))
    && forall n :: n in s.nodes ==> InProgress(cfg, p, s.sent, done, n, s.nodes[n])
  }

  // ---- The end of a round ----

  /** Every message of round r sent to a member has been handled. */
  ghost predicate AllHandled(cfg: Config, r: nat, sent: Outbox, done: Outbox) {
    forall e :: e in sent && e.1.round == r && e.0 in cfg.parties ==> e in done
  }

  lemma AllArrived(cfg: Config, sent: Outbox, done: Outbox, n: Uid, r: nat, col: Collector)
    requires AllHandled(cfg, r, sent, done) && Collected(done, n, r, col) && col.participants == cfg.parties && n in cfg.parties
    requires forall v :: v in cfg.parties && v != n ==> HasBroadcast(cfg, sent, v, r)
    ensures if n in col.shares then col.shares.Keys == cfg.parties else col.Missing() == {n}
  {
    forall v | v in cfg.parties && v != n ensures v in col.shares {
      assert HasBroadcast(cfg, sent, v, r);
      var payload :| (n, Share(r, v, payload)) in sent;
    }
  }

  /** Everybody but the leader has taken part by then. */
  lemma OthersBroadcast(cfg: Config, p: Round, s: System, done: Outbox, v: Uid)
    requires Progress(cfg, p, s, done) && AllHandled(cfg, p.id, s.sent, done) && v in cfg.parties && v != p.leader
    ensures HasBroadcast(cfg, s.sent, v, p.id)
    ensures HasFinished(cfg, p, s.sent, v, s.nodes[v]) || Helping(cfg, p, s.sent, done, v, s.nodes[v])
  {
    PreparedMeans(cfg, p);
    InProgressMeans(cfg, p, s.sent, done, v, s.nodes[v]);
    OpeningHandled(cfg, p, s.sent, done, v, s.nodes[v]);
  }

  lemma OpeningHandled(cfg: Config, p: Round, sent: Outbox, done: Outbox, v: Uid, d: Driver)
    requires p.Valid(cfg) && Registered(p, sent, v, d) && AllHandled(cfg, p.id, sent, done) && v in cfg.parties
    ensures Joined(p, done, v)
  {
    if v != p.leader {
      var e := (v, p.Opening(p.leader));
      assert e in sent && e.1.round == p.id;
      assert p.Moves(v, e.1) && (v, e.1) in done;
    }
  }

  lemma LeaderFinished(cfg: Config, p: Round, s: System, done: Outbox)
    requires Inv(cfg, s) && Progress(cfg, p, s, done) && AllHandled(cfg, p.id, s.sent, done)
    ensures HasFinished(cfg, p, s.sent, p.leader, s.nodes[p.leader])
  {
    PreparedMeans(cfg, p);
    var n, d := p.leader, s.nodes[p.leader];
    InProgressMeans(cfg, p, s.sent, done, n, d);
    NodeOf(cfg, s, n);
    NodePending(cfg, n, d);
    NodeCollecting(cfg, n, d);
    forall v | v in cfg.parties && v != n ensures HasBroadcast(cfg, s.sent, v, p.id) {
      OthersBroadcast(cfg, p, s, done, v);
    }
    if !HasFinished(cfg, p, s.sent, n, d) {
      AllArrived(cfg, s.sent, done, n, p.id, d.collectors[p.id]);
    }
  }

  lemma AllFinished(cfg: Config, p: Round, s: System, done: Outbox, n: Uid)
    requires Inv(cfg, s) && Progress(cfg, p, s, done) && AllHandled(cfg, p.id, s.sent, done) && n in s.nodes
    ensures HasFinished(cfg, p, s.sent, n, s.nodes[n])
  {
    PreparedMeans(cfg, p);
    LeaderFinished(cfg, p, s, done);
    forall v | v in cfg.parties ensures HasBroadcast(cfg, s.sent, v, p.id) {
      if v != p.leader {
        OthersBroadcast(cfg, p, s, done, v);
      }
    }
    NodeOf(cfg, s, n);
    NodeCollecting(cfg, n, s.nodes[n]);
    if n != p.leader {
      OthersBroadcast(cfg, p, s, done, n);
    }
    if !HasFinished(cfg, p, s.sent, n, s.nodes[n]) {
      AllArrived(cfg, s.sent, done, n, p.id, s.nodes[n].collectors[p.id]);
    }
  }

  /** What is delivered is the text of the lowest initiator. */
  lemma LeaderTextDelivered(cfg: Config, p: Round, s: System, done: Outbox, n: Uid, text: Bytes)
    requires Inv(cfg, s) && Progress(cfg, p, s, done) && Delivered(s, n, p.id, text)
    ensures text == p.texts[p.leader] && s.nodes[n].hist.delivered[(p.id, text)] == 1
  {
    PreparedMeans(cfg, p);
    assert Holds(Deliveries, cfg, s);
    var u :| Carries(s, u, p.id, Some(text));
    SenderIsLowest(cfg, s, u, p.id, text);
    InProgressMeans(cfg, p, s.sent, done, u, s.nodes[u]);
    InProgressMeans(cfg, p, s.sent, done, p.leader, s.nodes[p.leader]);
    assert Initiated(s, p.leader, p.id);
    LessTotal(u, p.leader);
    NodeOf(cfg, s, n);
    NodePast(cfg, n, s.nodes[n]);
  }

  /** Once every message of the round has been handled: one delivery of one text, and whoever yielded has tried again. */
  ghost predicate RoundOver(p: Round, s: System, n: Uid)
    requires p.leader in p.texts && n in s.nodes
  {
    && Delivered(s, n, p.id, p.texts[p.leader]) && s.nodes[n].hist.delivered[(p.id, p.texts[p.leader])] == 1
    && (p.Loses(n) ==> TriedLater(s.nodes[n], p.id, p.texts[n]))
  }

  lemma AllDelivered(cfg: Config, p: Round, s: System, done: Outbox, n: Uid)
    requires Inv(cfg, s) && Progress(cfg, p, s, done) && AllHandled(cfg, p.id, s.sent, done) && n in s.nodes
    ensures RoundOver(p, s, n)
  {
    PreparedMeans(cfg, p);
    AllFinished(cfg, p, s, done, n);
    var text :| (p.id, text) in s.nodes[n].hist.delivered;
    LeaderTextDelivered(cfg, p, s, done, n, text);
  }

  // ---- Steps that leave the phase alone ----

  lemma BroadcastKept(cfg: Config, sent: Outbox, sent': Outbox, n: Uid, r: nat)
    requires HasBroadcast(cfg, sent, n, r) && sent <= sent'
    ensures HasBroadcast(cfg, sent', n, r)
  {
    forall v | v in cfg.parties && v != n ensures exists payload :: (v, Share(r, n, payload)) in sent' {
      var payload :| (v, Share(r, n, payload)) in sent;
      assert (v, Share(r, n, payload)) in sent';
    }
  }

  lemma RegisteredKept(p: Round, sent: Outbox, sent': Outbox, n: Uid, d: Driver, d': Driver)
    requires p.texts.Keys == p.lists.Keys && Registered(p, sent, n, d) && sent <= sent' && d'.pendingOutgoing == {}
    requires p.id in d.hist.initiated <==> p.id in d'.hist.initiated
    requires p.id in d.hist.initiated ==> d'.hist.initiated[p.id] == d.hist.initiated[p.id]
    ensures Registered(p, sent', n, d')
  {
  }

  lemma ServedKept(p: Round, n: Uid, d: Driver, d': Driver)
    requires Served(p, n, d) && Onward(n, d, d')
    ensures Served(p, n, d')
  {
    var text :| (p.id, text) in d.hist.delivered;
    assert (p.id, text) in d'.hist.delivered;
    if p.Loses(n) {
      var q :| p.id < q <= d.current && q in d.hist.initiated && d.hist.initiated[q] == p.texts[n];
      assert q in d'.hist.initiated;
    }
  }

  /** A node that has finished stays so, whatever it goes on to do. */
  lemma FinishedKept(cfg: Config, p: Round, sent: Outbox, sent': Outbox, n: Uid, d: Driver, d': Driver)
    requires p.texts.Keys == p.lists.Keys && Registered(p, sent, n, d) && HasFinished(cfg, p, sent, n, d)
    requires Onward(n, d, d') && d'.pendingOutgoing == {} && sent <= sent'
    ensures Registered(p, sent', n, d') && HasFinished(cfg, p, sent', n, d')
  {
    RegisteredKept(p, sent, sent', n, d, d');
    BroadcastKept(cfg, sent, sent', n, p.id);
    ServedKept(p, n, d, d');
  }

  /** The same things of the round have been handled by `n`. */
  ghost predicate SameDone(p: Round, n: Uid, done: Outbox, done': Outbox) {
    forall m: Message :: m.round == p.id ==> ((n, m) in done <==> (n, m) in done')
  }

  lemma JoinedSame(p: Round, done: Outbox, done': Outbox, n: Uid)
    requires SameDone(p, n, done, done')
    ensures Joined(p, done, n) <==> Joined(p, done', n)
  {
    if Joined(p, done, n) && n != p.leader {
      var m :| (n, m) in done && p.Moves(n, m);
      assert (n, m) in done';
    }
    if Joined(p, done', n) && n != p.leader {
      var m :| (n, m) in done' && p.Moves(n, m);
      assert (n, m) in done;
    }
  }

  /** Only collectors of other rounds, the counter and deliveries may differ. */
  ghost predicate Sidelined(r: nat, d: Driver, d': Driver) {
    && d' == d.(current := d'.current, collectors := d'.collectors, emitted := d'.emitted, hist := d'.hist)
    && d.current <= d'.current
    && (r in d.collectors <==> r in d'.collectors) && (r in d.collectors ==> d'.collectors[r] == d.collectors[r])
    && d'.hist.initiated == d.hist.initiated && forall e :: e in d.hist.delivered ==> e in d'.hist.delivered
  }

  lemma GatheringKept(p: Round, done: Outbox, done': Outbox, n: Uid, d: Driver, d': Driver)
    requires Gathering(p, done, n, d) && SameDone(p, n, done, done') && Sidelined(p.id, d, d')
    ensures Gathering(p, done', n, d')
  {
  }

  lemma BusyKept(cfg: Config, p: Round, sent: Outbox, sent': Outbox, done: Outbox, done': Outbox, n: Uid, d: Driver, d': Driver)
    requires Busy(cfg, p, sent, done, n, d) && sent <= sent' && SameDone(p, n, done, done')
    requires Sidelined(p.id, d, d') && (d.current < p.id ==> d'.current == d.current)
    ensures Busy(cfg, p, sent', done', n, d')
  {
    JoinedSame(p, done, done', n);
    if Gathering(p, done, n, d) {
      GatheringKept(p, done, done', n, d, d');
    }
    if HasBroadcast(cfg, sent, n, p.id) {
      BroadcastKept(cfg, sent, sent', n, p.id);
    }
  }

  lemma SidelineKeeps(cfg: Config, p: Round, sent: Outbox, sent': Outbox, done: Outbox, done': Outbox, n: Uid, d: Driver, d': Driver)
    requires p.texts.Keys == p.lists.Keys && NodeProgress(cfg, p, sent, done, n, d) && sent <= sent' && SameDone(p, n, done, done')
    requires Sidelined(p.id, d, d') && (d.current < p.id ==> d'.current == d.current)
    ensures NodeProgress(cfg, p, sent', done', n, d')
  {
    if HasFinished(cfg, p, sent, n, d) {
      FinishedKept(cfg, p, sent, sent', n, d, d');
    } else {
      RegisteredKept(p, sent, sent', n, d, d');
      BusyKept(cfg, p, sent, sent', done, done', n, d, d');
    }
  }
}
