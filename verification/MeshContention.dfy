/** Concurrent initiators: round after round, everybody's text gets through. */
module MeshContention {
  import opened ByteStrings
  import opened MeshDriver
  import opened MeshInvariant
  import opened Mesh
  import opened MeshRestart
  import opened MeshPhases
  import opened MeshDelivery
  import opened MeshTermination
  import opened MeshTurns

  /** The rounds are played one after the other, each until all of its messages are handled, and each is followed by the next. */
  ghost predicate Plays(cfg: Config, ps: seq<Round>, s: System, runs: seq<seq<Delivery>>, s': System)
    decreases |ps|
  {
    0 < |ps| == |runs| && exists mid: System, done: Outbox :: PlaysVia(cfg, ps, s, runs, s', mid, done)
  }

  ghost predicate PlaysVia(cfg: Config, ps: seq<Round>, s: System, runs: seq<seq<Delivery>>, s': System, mid: System, done: Outbox)
    requires 0 < |ps| == |runs|
    decreases |ps|, 0
  {
    && Turns(cfg, ps[0], s, {}, runs[0], mid, done) && AllHandled(cfg, ps[0].id, mid.sent, done)
    && if |ps| == 1 then s' == mid else Next(cfg, ps[0], mid, ps[1]) && Plays(cfg, ps[1..], mid, runs[1..], s')
  }

  /** Round i of the play has delivered its lowest initiator's text to everybody. */
  ghost predicate Through(cfg: Config, p: Round, s: System) {
    p.leader in p.texts && forall n :: n in cfg.parties ==> n in s.nodes && (p.id, p.texts[p.leader]) in s.nodes[n].hist.delivered
  }

  lemma ThroughKept(cfg: Config, p: Round, s: System, s': System)
    requires Through(cfg, p, s) && Remembered(s, s')
    ensures Through(cfg, p, s')
  {
  }

  // A round in progress with everybody in step, under seal.
  ghost predicate Underway(cfg: Config, p: Round, s: System, done: Outbox) {
    Sealed(_ => Inv(cfg, s) && Progress(cfg, p, s, done) && AllInStep(cfg, p, s))
  }

  lemma UnderwayMeans(cfg: Config, p: Round, s: System, done: Outbox)
    ensures Underway(cfg, p, s, done) <==> Inv(cfg, s) && Progress(cfg, p, s, done) && AllInStep(cfg, p, s)
  {
    var q := (k: Seal) => Inv(cfg, s) && Progress(cfg, p, s, done) && AllInStep(cfg, p, s);
    assert q(Seal) <==> Inv(cfg, s) && Progress(cfg, p, s, done) && AllInStep(cfg, p, s);
  }

  lemma UnderwayInv(cfg: Config, p: Round, s: System, done: Outbox)
    requires Underway(cfg, p, s, done)
    ensures Inv(cfg, s)
  {
    UnderwayMeans(cfg, p, s, done);
  }

  lemma RoundThrough(cfg: Config, p: Round, s: System, done: Outbox)
    requires Underway(cfg, p, s, done) && AllHandled(cfg, p.id, s.sent, done)
    ensures Through(cfg, p, s)
  {
    UnderwayMeans(cfg, p, s, done);
    forall n | n in cfg.parties ensures n in s.nodes && (p.id, p.texts[p.leader]) in s.nodes[n].hist.delivered {
      AllDelivered(cfg, p, s, done, n);
    }
  }

  lemma TurnsUnderway(cfg: Config, p: Round, s: System, done: Outbox, es: seq<Delivery>, s': System, done': Outbox)
    requires IsGroup(cfg) && Underway(cfg, p, s, done) && Turns(cfg, p, s, done, es, s', done')
    ensures Underway(cfg, p, s', done') && Remembered(s, s')
  {
    UnderwayMeans(cfg, p, s, done);
    TurnsKeep(cfg, p, s, done, es, s', done');
    UnderwayMeans(cfg, p, s', done');
  }

  lemma NextUnderway(cfg: Config, p: Round, s: System, done: Outbox, next: Round)
    requires Underway(cfg, p, s, done) && AllHandled(cfg, p.id, s.sent, done) && Next(cfg, p, s, next)
    ensures Underway(cfg, next, s, {})
  {
    UnderwayMeans(cfg, p, s, done);
    NextOpens(cfg, p, s, done, next);
    UnderwayMeans(cfg, next, s, {});
  }

  ghost predicate AllThrough(cfg: Config, ps: seq<Round>, s: System) {
    forall i :: 0 <= i < |ps| ==> Through(cfg, ps[i], s)
  }

  lemma ThroughCons(cfg: Config, ps: seq<Round>, s: System)
    requires |ps| > 0 && Through(cfg, ps[0], s) && AllThrough(cfg, ps[1..], s)
    ensures AllThrough(cfg, ps, s)
  {
    forall i | 0 <= i < |ps| ensures Through(cfg, ps[i], s) {
      assert i > 0 ==> ps[i] == ps[1..][i - 1];
    }
  }

  lemma FirstThrough(cfg: Config, p: Round, s: System, es: seq<Delivery>, mid: System, done: Outbox)
    requires IsGroup(cfg) && Underway(cfg, p, s, {}) && Turns(cfg, p, s, {}, es, mid, done) && AllHandled(cfg, p.id, mid.sent, done)
    ensures Underway(cfg, p, mid, done) && Remembered(s, mid) && Through(cfg, p, mid)
  {
    TurnsUnderway(cfg, p, s, {}, es, mid, done);
    RoundThrough(cfg, p, mid, done);
  }

  lemma RestThrough(cfg: Config, ps: seq<Round>, s: System, mid: System, s': System)
    requires |ps| > 0 && Remembered(s, mid) && Through(cfg, ps[0], mid) && Remembered(mid, s') && AllThrough(cfg, ps[1..], s')
    ensures Remembered(s, s') && AllThrough(cfg, ps, s')
  {
    RememberedOn(s, mid, s');
    ThroughKept(cfg, ps[0], mid, s');
    ThroughCons(cfg, ps, s');
  }

  lemma OneThrough(cfg: Config, ps: seq<Round>, s: System)
    requires |ps| == 1 && Through(cfg, ps[0], s)
    ensures AllThrough(cfg, ps, s)
  {
  }

  lemma {:induction false} PlaysThrough(cfg: Config, ps: seq<Round>, s: System, runs: seq<seq<Delivery>>, s': System)
    requires IsGroup(cfg) && Plays(cfg, ps, s, runs, s') && Underway(cfg, ps[0], s, {})
    ensures Remembered(s, s') && AllThrough(cfg, ps, s') && Inv(cfg, s')
    decreases |ps|
  {
    var mid: System, done: Outbox :| PlaysVia(cfg, ps, s, runs, s', mid, done);
    FirstThrough(cfg, ps[0], s, runs[0], mid, done);
    if |ps| > 1 {
      NextUnderway(cfg, ps[0], mid, done, ps[1]);
      PlaysThrough(cfg, ps[1..], mid, runs[1..], s');
      RestThrough(cfg, ps, s, mid, s');
    } else {
      OneThrough(cfg, ps, s');
      UnderwayInv(cfg, ps[0], s', done);
    }
  }

  // ---- Who leads when ----

  /** The leader of a round is out of the next one. */
  ghost predicate Follows(p: Round, next: Round) {
    next.id == p.id + 1 && next.texts == p.texts - {p.leader} && next.leader in next.texts
  }

  ghost predicate Chained(ps: seq<Round>)
    decreases |ps|
  {
    |ps| > 1 ==> Follows(ps[0], ps[1]) && Chained(ps[1..])
  }

  lemma NextFollows(cfg: Config, p: Round, s: System, next: Round)
    requires Next(cfg, p, s, next)
    ensures Follows(p, next)
  {
    PreparedMeans(cfg, next);
  }

  lemma {:induction false} PlaysChain(cfg: Config, ps: seq<Round>, s: System, runs: seq<seq<Delivery>>, s': System)
    requires Plays(cfg, ps, s, runs, s')
    ensures Chained(ps)
    decreases |ps|
  {
    var mid: System, done: Outbox :| PlaysVia(cfg, ps, s, runs, s', mid, done);
    if |ps| > 1 {
      NextFollows(cfg, ps[0], mid, ps[1]);
      PlaysChain(cfg, ps[1..], mid, runs[1..], s');
    }
  }

  /** With as many rounds as initiators, each of them leads one with its own text. */
  lemma {:induction false} EveryoneLeads(ps: seq<Round>, u: Uid) returns (i: nat)
    requires |ps| > 0 && Chained(ps) && ps[0].leader in ps[0].texts && |ps| == |ps[0].texts| && u in ps[0].texts
    ensures i < |ps| && ps[i].id == ps[0].id + i && ps[i].leader == u && u in ps[i].texts && ps[i].texts[u] == ps[0].texts[u]
    decreases |ps|
  {
    if u == ps[0].leader {
      i := 0;
    } else {
      OneFewer(ps[0].texts, ps[0].leader, u);
      var j := EveryoneLeads(ps[1..], u);
      i := j + 1;
    }
  }

  lemma OneFewer(texts: map<Uid, Bytes>, l: Uid, u: Uid)
    requires l in texts && u in texts && u != l
    ensures |texts| >= 2 && |texts - {l}| == |texts| - 1
  {
    SubsetSize({l, u}, texts.Keys);
    assert (texts - {l}).Keys == texts.Keys - {l};
    assert |texts.Keys| == |texts| && |(texts - {l}).Keys| == |texts - {l}|;
  }

  /**
   * Any nodes initiate at once from idle, and the rounds that follow, as many as there are
   * initiators, are played one after the other, in any order of deliveries within a round. Then
   * every node has delivered every initiator's text, each in a round of its own, exactly once.
   */
  lemma EveryTextDelivered(cfg: Config, steps: seq<Step>, idle: System, ps: seq<Round>, sts: seq<Step>, started: System,
                           runs: seq<seq<Delivery>>, s: System, u: Uid, n: Uid) returns (i: nat)
    requires IsGroup(cfg) && cfg.Valid() && Keyed(cfg) && Reaches(cfg, steps, idle)
    requires Plays(cfg, ps, started, runs, s) && |ps| == |ps[0].texts| && u in ps[0].texts && n in cfg.parties
    requires ps[0].Valid(cfg) && Idle(idle, ps[0].id - 1) && Opened(cfg, ps[0], idle, {}, sts, started)
    ensures i < |ps| && ps[i].leader == u && n in s.nodes && s.nodes[n].hist.delivered[(ps[0].id + i, ps[0].texts[u])] == 1
  {
    StartsInStep(cfg, steps, idle, ps[0], sts, started);
    i := PlayDelivers(cfg, ps, started, runs, s, u, n);
  }

  lemma PlayDelivers(cfg: Config, ps: seq<Round>, started: System, runs: seq<seq<Delivery>>, s: System, u: Uid, n: Uid) returns (i: nat)
    requires IsGroup(cfg) && Plays(cfg, ps, started, runs, s) && Underway(cfg, ps[0], started, {})
    requires ps[0].leader in ps[0].texts && |ps| == |ps[0].texts| && u in ps[0].texts && n in cfg.parties
    ensures i < |ps| && ps[i].leader == u && n in s.nodes && s.nodes[n].hist.delivered[(ps[0].id + i, ps[0].texts[u])] == 1
  {
    PlaysThrough(cfg, ps, started, runs, s);
    PlaysChain(cfg, ps, started, runs, s);
    i := ChainDelivers(cfg, ps, s, u, n);
  }

  lemma ChainDelivers(cfg: Config, ps: seq<Round>, s: System, u: Uid, n: Uid) returns (i: nat)
    requires |ps| > 0 && Chained(ps) && AllThrough(cfg, ps, s) && Inv(cfg, s)
    requires ps[0].leader in ps[0].texts && |ps| == |ps[0].texts| && u in ps[0].texts && n in cfg.parties
    ensures i < |ps| && ps[i].leader == u && n in s.nodes && s.nodes[n].hist.delivered[(ps[0].id + i, ps[0].texts[u])] == 1
  {
    i := EveryoneLeads(ps, u);
    LeaderOnce(cfg, ps, s, i, u, n);
  }

  lemma LeaderOnce(cfg: Config, ps: seq<Round>, s: System, i: nat, u: Uid, n: Uid)
    requires AllThrough(cfg, ps, s) && n in cfg.parties && i < |ps| && ps[i].leader == u && Inv(cfg, s)
    ensures u in ps[i].texts && n in s.nodes && s.nodes[n].hist.delivered[(ps[i].id, ps[i].texts[u])] == 1
  {
    assert Through(cfg, ps[i], s);
    OnceThrough(cfg, s, n, ps[i].id, ps[i].texts[u]);
  }

  lemma OnceThrough(cfg: Config, s: System, n: Uid, r: nat, text: Bytes)
    requires Inv(cfg, s) && n in s.nodes && (r, text) in s.nodes[n].hist.delivered
    ensures s.nodes[n].hist.delivered[(r, text)] == 1
  {
    NodeOf(cfg, s, n);
    NodePast(cfg, n, s.nodes[n]);
  }

  lemma StartsInStep(cfg: Config, steps: seq<Step>, idle: System, p: Round, sts: seq<Step>, started: System)
    requires IsGroup(cfg) && cfg.Valid() && Keyed(cfg) && Reaches(cfg, steps, idle) && p.Valid(cfg) && Idle(idle, p.id - 1)
    requires Opened(cfg, p, idle, {}, sts, started)
    ensures Underway(cfg, p, started, {})
  {
    RunKeepsInv(cfg, steps, idle);
    IdleOpens(cfg, p, idle);
    OpeningKeeps(cfg, p, {}, idle, sts, started);
    OpenProgress(cfg, p, started);
    OpenInStep(cfg, p, started);
    UnderwayMeans(cfg, p, started, {});
  }

  // ---- Such plays exist ----

  ghost function AnnouncedList(cfg: Config, sent: Outbox, n: Uid, r: nat): (list: seq<Uid>)
    requires HasAnnounced(cfg, sent, n, r)
    ensures Announced(cfg, sent, n, r, list)
  {
    var list :| Announced(cfg, sent, n, r, list);
    list
  }

  /** Every initiator that yielded has announced a next round with its own text. */
  lemma NextAnnounced(cfg: Config, p: Round, s: System, done: Outbox, u: Uid)
    requires Underway(cfg, p, s, done) && AllHandled(cfg, p.id, s.sent, done) && p.Loses(u)
    ensures u in cfg.parties && u in s.nodes && Reopened(p, u, s.nodes[u]) && HasAnnounced(cfg, s.sent, u, p.id + 1)
  {
    UnderwayMeans(cfg, p, s, done);
    AllReady(cfg, p, s, done, u);
  }

  lemma UnderwayPrepared(cfg: Config, p: Round, s: System, done: Outbox)
    requires Underway(cfg, p, s, done)
    ensures p.Valid(cfg) && Keyed(cfg)
  {
    UnderwayMeans(cfg, p, s, done);
    PreparedMeans(cfg, p);
  }

  lemma NextPrepared(cfg: Config, p: Round, next: Round)
    requires p.Valid(cfg) && Keyed(cfg) && next.id > 0 && next.leader in next.texts && next.texts == p.texts - {p.leader}
    requires forall u :: u in next.texts && u != next.leader ==> Less(next.leader, u)
    requires next.lists.Keys == next.texts.Keys && forall u :: u in next.lists ==> Enumerates(next.lists[u], cfg.parties)
    ensures Prepared(cfg, next)
  {
    PreparedMeans(cfg, next);
  }

  ghost function AnnouncedLists(cfg: Config, sent: Outbox, group: set<Uid>, r: nat): (lists: map<Uid, seq<Uid>>)
    requires forall u :: u in group ==> HasAnnounced(cfg, sent, u, r)
    ensures lists.Keys == group && forall u :: u in group ==> Announced(cfg, sent, u, r, lists[u])
  {
    map u | u in group :: AnnouncedList(cfg, sent, u, r)
  }

  lemma NextFrom(cfg: Config, p: Round, s: System, next: Round)
    requires Prepared(cfg, next) && next.id == p.id + 1 && next.texts == p.texts - {p.leader} && next.texts.Keys == next.lists.Keys && next.clock == p.clock
    requires forall u :: u in next.texts ==> Announced(cfg, s.sent, u, p.id + 1, next.lists[u])
    requires forall u :: u in next.texts ==> u in s.nodes && Reopened(p, u, s.nodes[u])
    ensures Next(cfg, p, s, next)
  {
    forall u, v | u in next.lists && v in cfg.parties && v != u ensures (v, next.Opening(u)) in s.sent {
      assert Announced(cfg, s.sent, u, p.id + 1, next.lists[u]);
      assert next.Opening(u) == StartOf(p.id + 1, u, next.lists[u]);
    }
  }

  /** Unless only one initiator was left, there is a next round. */
  lemma NextExists(cfg: Config, p: Round, s: System, done: Outbox) returns (next: Round)
    requires Underway(cfg, p, s, done) && AllHandled(cfg, p.id, s.sent, done) && |p.texts| > 1
    ensures Next(cfg, p, s, next) && |next.texts| == |p.texts| - 1 && next.clock == p.clock
  {
    var texts := p.texts - {p.leader};
    forall u | u in texts ensures u in s.nodes && Reopened(p, u, s.nodes[u]) && HasAnnounced(cfg, s.sent, u, p.id + 1) {
      NextAnnounced(cfg, p, s, done, u);
    }
    var lists := AnnouncedLists(cfg, s.sent, texts.Keys, p.id + 1);
    next := NextRound(cfg, p, s, done, texts, lists);
    NextFrom(cfg, p, s, next);
  }

  lemma NextRound(cfg: Config, p: Round, s: System, done: Outbox, texts: map<Uid, Bytes>, lists: map<Uid, seq<Uid>>) returns (next: Round)
    requires Underway(cfg, p, s, done) && |p.texts| > 1 && texts == p.texts - {p.leader} && lists.Keys == texts.Keys
    requires forall u :: u in texts ==> Enumerates(lists[u], cfg.parties)
    ensures Prepared(cfg, next) && next == Round(p.id + 1, next.leader, texts, lists, p.clock) && |texts| == |p.texts| - 1
  {
    UnderwayPrepared(cfg, p, s, done);
    var other := Another(p.texts.Keys, p.leader);
    OneFewer(p.texts, p.leader, other);
    var leader := LowestExists(texts.Keys);
    next := Round(p.id + 1, leader, texts, lists, p.clock);
    NextPrepared(cfg, p, next);
  }

  // ---- Playing a round at the clocks' readings ----

  lemma NextNotExpired(cfg: Config, p: Round, s: System, done: Outbox, n: Uid)
    requires Underway(cfg, p, s, done) && n in s.nodes
    ensures p.id + 1 !in Expired(s.nodes[n], p.clock(n))
  {
    UnderwayMeans(cfg, p, s, done);
    assert InStep(cfg, p, s.sent, n, s.nodes[n]);
    NodeOf(cfg, s, n);
    NodeBounded(cfg, n, s.nodes[n]);
    InStepLasts(cfg, p, s.sent, n, s.nodes[n]);
  }

  lemma InStepLasts(cfg: Config, p: Round, sent: Outbox, n: Uid, d: Driver)
    requires InStep(cfg, p, sent, n, d) && RoundsBounded(d)
    ensures p.id + 1 !in Expired(d, p.clock(n))
  {
  }

  lemma {:induction false} ClocksInTurn(cfg: Config, p: Round, s: System, done: Outbox, es: seq<Delivery>, s': System, done': Outbox)
    requires IsGroup(cfg) && Underway(cfg, p, s, done) && Leads(cfg, p, s, done, es, s', done') && AtClocks(p, es)
    ensures Turns(cfg, p, s, done, es, s', done')
    decreases |es|
  {
    if es != [] {
      NextNotExpired(cfg, p, s, done, es[0].n);
      FirstTurn(cfg, p, s, done, es[0], Apply(s, AsStep(es[0])));
      ClocksInTurn(cfg, p, Apply(s, AsStep(es[0])), done + {(es[0].n, es[0].m)}, es[1..], s', done');
    }
  }

  lemma FirstTurn(cfg: Config, p: Round, s: System, done: Outbox, e: Delivery, s1: System)
    requires IsGroup(cfg) && Underway(cfg, p, s, done) && TakesTurn(cfg, p, s, done, e) && s1 == Apply(s, AsStep(e))
    ensures Underway(cfg, p, s1, done + {(e.n, e.m)})
  {
    UnderwayMeans(cfg, p, s, done);
    TurnKeeps(cfg, p, s, done, e, s1);
    UnderwayMeans(cfg, p, s1, done + {(e.n, e.m)});
  }

  /** A round that is underway can be played to its end. */
  lemma RoundPlays(cfg: Config, p: Round, s: System) returns (es: seq<Delivery>, mid: System, done: Outbox)
    requires IsGroup(cfg) && Underway(cfg, p, s, {})
    ensures Turns(cfg, p, s, {}, es, mid, done) && AllHandled(cfg, p.id, mid.sent, done) && Underway(cfg, p, mid, done)
  {
    UnderwayMeans(cfg, p, s, {});
    es, mid, done := RoundFinishes(cfg, p, s, {});
    ClocksInTurn(cfg, p, s, {}, es, mid, done);
    TurnsUnderway(cfg, p, s, {}, es, mid, done);
  }

  lemma PlaysCons(cfg: Config, p: Round, s: System, es: seq<Delivery>, mid: System, done: Outbox, ps: seq<Round>, runs: seq<seq<Delivery>>, s': System)
    requires Turns(cfg, p, s, {}, es, mid, done) && AllHandled(cfg, p.id, mid.sent, done)
    requires Plays(cfg, ps, mid, runs, s') && Next(cfg, p, mid, ps[0])
    ensures Plays(cfg, [p] + ps, s, [es] + runs, s')
  {
    assert ([p] + ps)[1..] == ps && ([es] + runs)[1..] == runs;
    assert PlaysVia(cfg, [p] + ps, s, [es] + runs, s', mid, done);
  }

  /** From a round underway, all the rounds that it takes can be played. */
  lemma {:induction false} AllPlay(cfg: Config, p: Round, s: System) returns (ps: seq<Round>, runs: seq<seq<Delivery>>, s': System)
    requires IsGroup(cfg) && Underway(cfg, p, s, {}) && |p.texts| > 0
    ensures Plays(cfg, ps, s, runs, s') && ps[0] == p && |ps| == |p.texts|
    decreases |p.texts|
  {
    var es, mid, done := RoundPlays(cfg, p, s);
    if |p.texts| == 1 {
      ps, runs, s' := [p], [es], mid;
      assert PlaysVia(cfg, ps, s, runs, s', mid, done);
    } else {
      var next := NextExists(cfg, p, mid, done);
      NextUnderway(cfg, p, mid, done, next);
      var rest, more;
      rest, more, s' := AllPlay(cfg, next, mid);
      PlaysCons(cfg, p, s, es, mid, done, rest, more, s');
      ps, runs := [p] + rest, [es] + more;
    }
  }

  /** Some round in [lo, hi) has delivered the text. */
  ghost predicate DeliveredIn(d: Driver, lo: nat, hi: nat, text: Bytes) {
    exists r :: lo <= r < hi && (r, text) in d.hist.delivered
  }

  /** Every text of the round is delivered to everybody within as many rounds as there are texts. */
  ghost predicate Resolved(cfg: Config, p: Round, s: System) {
    forall u, n :: u in p.texts && n in cfg.parties ==> n in s.nodes && DeliveredIn(s.nodes[n], p.id, p.id + |p.texts|, p.texts[u])
  }

  lemma PlayResolves(cfg: Config, ps: seq<Round>, started: System, runs: seq<seq<Delivery>>, s: System)
    requires IsGroup(cfg) && Plays(cfg, ps, started, runs, s) && Underway(cfg, ps[0], started, {})
    requires ps[0].leader in ps[0].texts && |ps| == |ps[0].texts|
    ensures Resolved(cfg, ps[0], s)
  {
    forall u, n | u in ps[0].texts && n in cfg.parties
      ensures n in s.nodes && DeliveredIn(s.nodes[n], ps[0].id, ps[0].id + |ps|, ps[0].texts[u])
    {
      var i := PlayDelivers(cfg, ps, started, runs, s, u, n);
      DeliveredAt(s.nodes[n], ps[0].id, i, |ps|, ps[0].texts[u]);
    }
  }

  lemma DeliveredAt(d: Driver, lo: nat, i: nat, count: nat, text: Bytes)
    requires i < count && d.hist.delivered[(lo + i, text)] == 1
    ensures DeliveredIn(d, lo, lo + count, text)
  {
    assert (lo + i, text) in d.hist.delivered;
  }

  /**
   * After any opening from idle there are such plays: concurrent initiations are all resolved,
   * and every text can be delivered to everybody.
   */
  lemma ContentionResolves(cfg: Config, steps: seq<Step>, idle: System, p: Round, sts: seq<Step>, started: System)
    returns (ps: seq<Round>, runs: seq<seq<Delivery>>, s: System)
    requires IsGroup(cfg) && cfg.Valid() && Keyed(cfg) && Reaches(cfg, steps, idle) && p.Valid(cfg) && Idle(idle, p.id - 1)
    requires Opened(cfg, p, idle, {}, sts, started)
    ensures Plays(cfg, ps, started, runs, s) && ps[0] == p && |ps| == |p.texts| && Resolved(cfg, p, s)
  {
    StartsInStep(cfg, steps, idle, p, sts, started);
    assert |p.texts| > 0;
    ps, runs, s := AllPlay(cfg, p, started);
    PlayResolves(cfg, ps, started, runs, s);
  }
}
