/** Failure-free delivery: any nodes initiate a round at once, no expiry, starts before shares. */
module MeshDelivery {
  import opened ByteStrings
  import opened RoundNetwork
  import opened MeshDriver
  import opened MeshInvariant
  import opened Mesh
  import opened MeshRestart
  import opened MeshPhases
  import opened MeshHandling

  // ---- Whole deliveries ----

  /** `n` handles a sent message. */
  datatype Delivery = Delivery(n: Uid, x: Context, m: Message, now: nat)

  /** Its collector of the round has not expired, and a share of the round finds it taking part. */
  ghost predicate InOrder(cfg: Config, p: Round, s: System, done: Outbox, e: Delivery) {
    && e.n in s.nodes && ContextOf(cfg, e.n, e.x) && (e.n, e.m) in s.sent
    && e.now >= p.clock(e.n) && p.id !in Expired(s.nodes[e.n], e.now)
    && (e.m.Share? && e.m.round == p.id ==> Joined(p, done, e.n))
  }

  ghost function AsStep(e: Delivery): Step {
    Step(e.n, e.x, e.now, Receives(e.m, true))
  }

  /** Nodes that do not move keep their progress while the network and `done` grow for others. */
  lemma OthersKeep(cfg: Config, p: Round, sent: Outbox, sent': Outbox, done: Outbox, n: Uid, m: Message, v: Uid, d: Driver)
    requires p.texts.Keys == p.lists.Keys && NodeProgress(cfg, p, sent, done, v, d) && sent <= sent' && v != n
    ensures NodeProgress(cfg, p, sent', done + {(n, m)}, v, d)
  {
    assert SameDone(p, v, done, done + {(n, m)});
    SidelineKeeps(cfg, p, sent, sent', done, done + {(n, m)}, v, d, d);
  }

  lemma ProgressMove(cfg: Config, p: Round, s: System, done: Outbox, n: Uid, m: Message, d': Driver, out: Outbox)
    requires Progress(cfg, p, s, done) && n in s.nodes && Advances(cfg, p, s.sent, done + {(n, m)}, n, d', out)
    ensures Progress(cfg, p, Move(s, n, d', out), done + {(n, m)})
  {
    var s' := Move(s, n, d', out);
    forall v | v in s'.nodes ensures InProgress(cfg, p, s'.sent, done + {(n, m)}, v, s'.nodes[v]) {
      MovedNode(cfg, p, s, done, n, m, d', out, v);
    }
  }

  lemma MovedNode(cfg: Config, p: Round, s: System, done: Outbox, n: Uid, m: Message, d': Driver, out: Outbox, v: Uid)
    requires Progress(cfg, p, s, done) && n in s.nodes && Advances(cfg, p, s.sent, done + {(n, m)}, n, d', out) && v in s.nodes
    ensures InProgress(cfg, p, s.sent + out, done + {(n, m)}, v, s.nodes[n := d'][v])
  {
    if v == n {
      InProgressMeans(cfg, p, s.sent + out, done + {(n, m)}, n, d');
    } else {
      InProgressMeans(cfg, p, s.sent, done, v, s.nodes[v]);
      OthersKeep(cfg, p, s.sent, s.sent + out, done, n, m, v, s.nodes[v]);
      InProgressMeans(cfg, p, s.sent + out, done + {(n, m)}, v, s.nodes[v]);
    }
  }

  /** A node's own bookkeeping, with nothing sent or received. */
  lemma ProgressReplace(cfg: Config, p: Round, s: System, done: Outbox, n: Uid, d0: Driver)
    requires Progress(cfg, p, s, done) && n in s.nodes && NodeProgress(cfg, p, s.sent, done, n, d0)
    ensures Progress(cfg, p, Move(s, n, d0, {}), done)
  {
    InProgressMeans(cfg, p, s.sent, done, n, d0);
    assert Move(s, n, d0, {}).sent == s.sent;
  }

  /** Expiry first: the round goes on from there. */
  lemma ExpiryKeeps(cfg: Config, p: Round, s: System, done: Outbox, e: Delivery, d0: Driver)
    requires IsGroup(cfg) && Inv(cfg, s) && Progress(cfg, p, s, done) && InOrder(cfg, p, s, done, e)
    requires Busy(cfg, p, s.sent, done, e.n, s.nodes[e.n]) && d0 == DropExpired(e.x, s.nodes[e.n], e.now)
    ensures Inv(cfg, Move(s, e.n, d0, {})) && Progress(cfg, p, Move(s, e.n, d0, {}), done) && Busy(cfg, p, s.sent, done, e.n, d0)
  {
    InProgressMeans(cfg, p, s.sent, done, e.n, s.nodes[e.n]);
    DropKeepsInv(cfg, s, e.n, e.x, e.now);
    DropSidelines(cfg, p, s.sent, done, e.n, e.x, s.nodes[e.n], e.now, d0);
    BusyKept(cfg, p, s.sent, s.sent, done, done, e.n, s.nodes[e.n], d0);
    RegisteredKept(p, s.sent, s.sent, e.n, s.nodes[e.n], d0);
    ProgressReplace(cfg, p, s, done, e.n, d0);
  }

  lemma BusyDelivery(cfg: Config, p: Round, s: System, done: Outbox, e: Delivery, d': Driver, a: Action)
    requires IsGroup(cfg) && Inv(cfg, s) && Progress(cfg, p, s, done) && InOrder(cfg, p, s, done, e)
    requires Busy(cfg, p, s.sent, done, e.n, s.nodes[e.n]) && (d', a) == Handle(e.x, s.nodes[e.n], e.m, true, e.now)
    ensures Advances(cfg, p, s.sent, done + {(e.n, e.m)}, e.n, d', a.outgoing)
  {
    var d0 := DropExpired(e.x, s.nodes[e.n], e.now);
    var (d1, b) := React(e.x, d0, e.m, true, e.now);
    ExpiryKeeps(cfg, p, s, done, e, d0);
    AfterExpiry(cfg, p, s, done, e, d0, Move(s, e.n, d0, {}), d1, b, d', a.outgoing);
  }

  lemma AfterExpiry(cfg: Config, p: Round, s: System, done: Outbox, e: Delivery, d0: Driver, s0: System, d1: Driver, b: Action, d': Driver, out: Outbox)
    requires IsGroup(cfg) && InOrder(cfg, p, s, done, e) && s0 == Move(s, e.n, d0, {}) && Inv(cfg, s0) && Progress(cfg, p, s0, done)
    requires Busy(cfg, p, s.sent, done, e.n, d0) && (d1, b) == React(e.x, d0, e.m, true, e.now) && Flushed(d1, b.outgoing, d', out)
    ensures p.texts.Keys == p.lists.Keys && Advances(cfg, p, s.sent, done + {(e.n, e.m)}, e.n, d', out)
  {
    assert s0.sent == s.sent && s0.nodes[e.n] == d0;
    BusyAdvances(cfg, p, s0, done, e.n, e.x, e.m, e.now, d1, b, d', out);
  }

  lemma DeliveryAdvances(cfg: Config, p: Round, s: System, done: Outbox, e: Delivery, d': Driver, a: Action)
    requires IsGroup(cfg) && Inv(cfg, s) && Progress(cfg, p, s, done) && InOrder(cfg, p, s, done, e)
    requires (d', a) == Handle(e.x, s.nodes[e.n], e.m, true, e.now)
    ensures Advances(cfg, p, s.sent, done + {(e.n, e.m)}, e.n, d', a.outgoing)
  {
    InProgressMeans(cfg, p, s.sent, done, e.n, s.nodes[e.n]);
    if HasFinished(cfg, p, s.sent, e.n, s.nodes[e.n]) {
      FinishedAdvances(cfg, p, s.sent, done + {(e.n, e.m)}, e.n, e.x, e.m, true, e.now, s.nodes[e.n], d', a);
    } else {
      BusyDelivery(cfg, p, s, done, e, d', a);
    }
  }

  /** Every delivery in order keeps the round in progress. */
  lemma DeliveryKeeps(cfg: Config, p: Round, s: System, done: Outbox, e: Delivery, s': System)
    requires IsGroup(cfg) && Inv(cfg, s) && Progress(cfg, p, s, done) && InOrder(cfg, p, s, done, e) && s' == Apply(s, AsStep(e))
    ensures Inv(cfg, s') && Progress(cfg, p, s', done + {(e.n, e.m)})
  {
    StepKeepsInv(cfg, s, AsStep(e));
    var (d', a) := Handle(e.x, s.nodes[e.n], e.m, true, e.now);
    DeliveryAdvances(cfg, p, s, done, e, d', a);
    ProgressMove(cfg, p, s, done, e.n, e.m, d', a.outgoing);
  }

  /** A sequence of deliveries in the allowed order leads from (s, done) to (s', done'). */
  ghost predicate Leads(cfg: Config, p: Round, s: System, done: Outbox, es: seq<Delivery>, s': System, done': Outbox)
    decreases |es|
  {
    if es == [] then s' == s && done' == done
    else InOrder(cfg, p, s, done, es[0]) && Leads(cfg, p, Apply(s, AsStep(es[0])), done + {(es[0].n, es[0].m)}, es[1..], s', done')
  }

  lemma {:induction false} LeadsKeeps(cfg: Config, p: Round, s: System, done: Outbox, es: seq<Delivery>, s': System, done': Outbox)
    requires IsGroup(cfg) && Inv(cfg, s) && Progress(cfg, p, s, done) && Leads(cfg, p, s, done, es, s', done')
    ensures Inv(cfg, s') && Progress(cfg, p, s', done')
    decreases |es|
  {
    if es != [] {
      DeliveryKeeps(cfg, p, s, done, es[0], Apply(s, AsStep(es[0])));
      LeadsKeeps(cfg, p, Apply(s, AsStep(es[0])), done + {(es[0].n, es[0].m)}, es[1..], s', done');
    }
  }

  // ---- Opening a round ----

  /** Nobody has a round of its own in flight and all counters agree; earlier rounds may still be collecting. */
  ghost predicate Idle(s: System, k: nat) {
    forall n :: n in s.nodes ==>
      var d := s.nodes[n];
      d.current == k && d.pendingRound.None? && d.pendingOutgoing == {} && d.retryAfterPeer.None?
  }

  /** An initiator of the round calls `initiate`, not having done so yet. */
  ghost predicate Initiation(cfg: Config, p: Round, s: System, did: set<Uid>, st: Step) {
    && Enabled(cfg, s, st) && st.n in p.texts && st.n in p.lists && st.n !in did
    && st.event == Initiates(p.texts[st.n], p.lists[st.n]) && p.clock(st.n) <= st.now
  }

  /** All initiators of the round call `initiate`, in any order. */
  ghost predicate Opened(cfg: Config, p: Round, s: System, did: set<Uid>, sts: seq<Step>, s': System)
    decreases |sts|
  {
    if sts == [] then s' == s && did == p.texts.Keys
    else Initiation(cfg, p, s, did, sts[0]) && Opened(cfg, p, Apply(s, sts[0]), did + {sts[0].n}, sts[1..], s')
  }

  /** A node that has opened the round. */
  ghost predicate Opener(p: Round, n: Uid, d: Driver)
    requires n in p.texts
  {
    && Holding(p, {}, n, d) && d.current == p.id && d.collectors[p.id].shares == map[]
    && p.id in d.hist.initiated && d.hist.initiated[p.id] == p.texts[n]
  }

  ghost predicate OpenNode(p: Round, did: set<Uid>, sent: Outbox, n: Uid, d: Driver)
    requires p.texts.Keys == p.lists.Keys && did <= p.texts.Keys
  {
    && d.pendingOutgoing == {}
    && (if n in did then Opener(p, n, d) else Resting(p, d) && p.id !in d.hist.initiated)
    && forall u :: u in did && u != n ==> (n, p.Opening(u)) in sent
  }

  /** The round is being opened, and `did` have done so. */
  ghost predicate Open(cfg: Config, p: Round, did: set<Uid>, s: System) {
    && Prepared(cfg, p) && p.texts.Keys == p.lists.Keys && s.nodes.Keys == cfg.parties && did <= p.texts.Keys
    && (forall e :: e in s.sent && e.1.Start? && e.1.round == p.id ==> p.Opens(e.1))
    && forall n :: n in s.nodes ==> OpenNode(p, did, s.sent, n, s.nodes[n])
  }

  lemma IdleOpens(cfg: Config, p: Round, s: System)
    requires Inv(cfg, s) && p.Valid(cfg) && Idle(s, p.id - 1) && Keyed(cfg)
    ensures Open(cfg, p, {}, s)
  {
    PreparedMeans(cfg, p);
    SetupOf(cfg, s);
    forall n | n in s.nodes ensures OpenNode(p, {}, s.sent, n, s.nodes[n]) {
      IdleNode(cfg, p, s, n);
    }
    forall e | e in s.sent && e.1.Start? ensures e.1.round != p.id {
      SentOf(cfg, s, e);
      IdleNode(cfg, p, s, e.1.leader);
    }
  }

  lemma IdleNode(cfg: Config, p: Round, s: System, n: Uid)
    requires Inv(cfg, s) && p.id > 0 && p.texts.Keys == p.lists.Keys && Idle(s, p.id - 1) && n in s.nodes
    ensures OpenNode(p, {}, s.sent, n, s.nodes[n])
  {
    NodeOf(cfg, s, n);
    NodeBounded(cfg, n, s.nodes[n]);
  }

  lemma BeginOpens(cfg: Config, p: Round, n: Uid, x: Context, d: Driver, share: Bytes, now: nat, d': Driver, out: Outbox)
    requires n in p.texts && n in p.lists && Elements(p.lists[n]) == cfg.parties && x.me == n && Resting(p, d) && p.clock(n) <= now
    requires (d', out) == Begin(x, d, p.texts[n], p.lists[n], share, now)
    ensures Opener(p, n, d') && d'.pendingOutgoing == d.pendingOutgoing && out == ToOthers(cfg.parties, n, p.Opening(n))
  {
  }

  lemma InitiationShare(cfg: Config, p: Round, n: Uid, x: Context) returns (share: Bytes)
    requires Prepared(cfg, p) && n in p.texts && n in p.lists && ContextOf(cfg, n, x)
    ensures FRAME_HEADER + |p.texts[n]| <= CHANNEL_PAYLOAD_LEN && |p.lists[n]| >= 2 && n in p.lists[n] && Elements(p.lists[n]) == cfg.parties
    ensures ComputeShare(x.crypto, p.id, n, p.lists[n], Some(p.texts[n]), CHANNEL_PAYLOAD_LEN, x.keys) == Some(share)
  {
    PreparedMeans(cfg, p);
    EnumerationSize(p.lists[n], cfg.parties);
    assert CanShare(n, p.lists[n], x.keys);
    share := ComputeShare(x.crypto, p.id, n, p.lists[n], Some(p.texts[n]), CHANNEL_PAYLOAD_LEN, x.keys).value;
  }

  lemma InitiationBegins(cfg: Config, p: Round, did: set<Uid>, s: System, st: Step) returns (d': Driver, out: Outbox)
    requires Open(cfg, p, did, s) && Initiation(cfg, p, s, did, st)
    ensures Apply(s, st) == Move(s, st.n, d', out) && Opener(p, st.n, d') && d'.pendingOutgoing == {}
    ensures out == ToOthers(cfg.parties, st.n, p.Opening(st.n))
  {
    var n, d := st.n, s.nodes[st.n];
    assert OpenNode(p, did, s.sent, n, d);
    var share := InitiationShare(cfg, p, n, st.x);
    assert d.current + 1 == p.id;
    InitiationMoves(s, st, share, Apply(s, st));
    var (d1, starts) := Begin(st.x, d, p.texts[n], p.lists[n], share, st.now);
    BeginOpens(cfg, p, n, st.x, d, share, st.now, d1, starts);
    d', out := d1, starts;
  }

  lemma InitiationOpens(cfg: Config, p: Round, did: set<Uid>, s: System, st: Step)
    requires Open(cfg, p, did, s) && Initiation(cfg, p, s, did, st)
    ensures Open(cfg, p, did + {st.n}, Apply(s, st))
  {
    var d', out := InitiationBegins(cfg, p, did, s, st);
    var s' := Move(s, st.n, d', out);
    forall v | v in s'.nodes ensures OpenNode(p, did + {st.n}, s'.sent, v, s'.nodes[v]) {
      assert OpenNode(p, did, s.sent, v, s.nodes[v]);
      OneMoreOpen(cfg, p, did, s.sent, v, s.nodes[v], st.n, s'.nodes[v], out);
    }
  }

  lemma OneMoreOpen(cfg: Config, p: Round, did: set<Uid>, sent: Outbox, v: Uid, d: Driver, n: Uid, d': Driver, out: Outbox)
    requires p.texts.Keys == p.lists.Keys && did <= p.texts.Keys && n in p.texts && v in cfg.parties
    requires OpenNode(p, did, sent, v, d) && out == ToOthers(cfg.parties, n, p.Opening(n))
    requires if v == n then Opener(p, n, d') && d'.pendingOutgoing == {} else d' == d
    ensures OpenNode(p, did + {n}, sent + out, v, d')
  {
  }

  lemma {:induction false} OpeningKeeps(cfg: Config, p: Round, did: set<Uid>, s: System, sts: seq<Step>, s': System)
    requires IsGroup(cfg) && Inv(cfg, s) && Open(cfg, p, did, s) && Opened(cfg, p, s, did, sts, s')
    ensures Inv(cfg, s') && Open(cfg, p, p.texts.Keys, s')
    decreases |sts|
  {
    if sts != [] {
      InitiationOpens(cfg, p, did, s, sts[0]);
      StepKeepsInv(cfg, s, sts[0]);
      OpeningKeeps(cfg, p, did + {sts[0].n}, Apply(s, sts[0]), sts[1..], s');
    }
  }

  lemma OpenProgress(cfg: Config, p: Round, s: System)
    requires Inv(cfg, s) && Open(cfg, p, p.texts.Keys, s)
    ensures Progress(cfg, p, s, {})
  {
    PreparedMeans(cfg, p);
    forall n | n in s.nodes ensures InProgress(cfg, p, s.sent, {}, n, s.nodes[n]) {
      assert OpenNode(p, p.texts.Keys, s.sent, n, s.nodes[n]);
      NodeOf(cfg, s, n);
      NodeCollecting(cfg, n, s.nodes[n]);
      OpenBusy(cfg, p, s.sent, n, s.nodes[n]);
      InProgressMeans(cfg, p, s.sent, {}, n, s.nodes[n]);
    }
  }

  lemma OpenBusy(cfg: Config, p: Round, sent: Outbox, n: Uid, d: Driver)
    requires p.Valid(cfg) && OpenNode(p, p.texts.Keys, sent, n, d)
    requires p.id in d.collectors ==> d.collectors[p.id].participants == cfg.parties
    ensures Registered(p, sent, n, d) && Busy(cfg, p, sent, {}, n, d)
  {
    assert cfg.parties != {n};
  }

  /** From idle to a round in progress. */
  lemma StartsInProgress(cfg: Config, steps: seq<Step>, idle: System, p: Round, sts: seq<Step>, started: System)
    requires IsGroup(cfg) && cfg.Valid() && Keyed(cfg) && Reaches(cfg, steps, idle) && p.Valid(cfg) && Idle(idle, p.id - 1)
    requires Opened(cfg, p, idle, {}, sts, started)
    ensures Inv(cfg, started) && Progress(cfg, p, started, {})
  {
    RunKeepsInv(cfg, steps, idle);
    IdleOpens(cfg, p, idle);
    OpeningKeeps(cfg, p, {}, idle, sts, started);
    OpenProgress(cfg, p, started);
  }

  lemma ProgressDelivers(cfg: Config, p: Round, s1: System, es: seq<Delivery>, s: System, done: Outbox, n: Uid)
    requires IsGroup(cfg) && Inv(cfg, s1) && Progress(cfg, p, s1, {}) && Leads(cfg, p, s1, {}, es, s, done)
    requires AllHandled(cfg, p.id, s.sent, done) && n in cfg.parties
    ensures n in s.nodes && RoundOver(p, s, n)
  {
    PreparedMeans(cfg, p);
    LeadsKeeps(cfg, p, s1, {}, es, s, done);
    AllDelivered(cfg, p, s, done, n);
  }

  /**
   * From any reachable state in which all nodes are idle with equal counters: any nodes, one
   * or many, initiate the next round; messages of any rounds are delivered in any order, late,
   * repeatedly or never, as long as no node receives a share of the round before a start that
   * makes it take part and the round's collectors do not expire. Once every message of the
   * round has been handled, every participant has delivered the text of the lowest initiator,
   * exactly once, and every other initiator has started a later round with its own text. The
   * clock readings in `p` are any that the later times do not fall below, such as all zero.
   */
  lemma FailureFreeDelivery(cfg: Config, steps: seq<Step>, idle: System, p: Round, sts: seq<Step>, started: System,
                            es: seq<Delivery>, s: System, done: Outbox, n: Uid)
    requires IsGroup(cfg) && cfg.Valid() && Keyed(cfg) && Reaches(cfg, steps, idle) && p.Valid(cfg) && Idle(idle, p.id - 1)
    requires Opened(cfg, p, idle, {}, sts, started) && Leads(cfg, p, started, {}, es, s, done)
    requires AllHandled(cfg, p.id, s.sent, done) && n in cfg.parties
    ensures n in s.nodes && RoundOver(p, s, n)
  {
    StartsInProgress(cfg, steps, idle, p, sts, started);
    ProgressDelivers(cfg, p, started, es, s, done, n);
  }
}
