/** A failure-free round always finishes: in-order schedules are bounded and never stuck. */
module MeshTermination {
  import opened ByteStrings
  import opened MeshDriver
  import opened MeshInvariant
  import opened Mesh
  import opened MeshRestart
  import opened MeshPhases
  import opened MeshDelivery

  /** What a share of the round may carry. */
  ghost function Carriable(p: Round, u: Uid): set<Option<Bytes>> {
    {None} + if u in p.texts then {Some(p.texts[u])} else {}
  }

  /** Every message of the round that can be sent at all. */
  ghost function Sendable(cfg: Config, p: Round): Outbox
    requires p.texts.Keys == p.lists.Keys
  {
    (set v, u | v in cfg.parties && u in p.texts :: (v, p.Opening(u))) +
    set v, u, text | v in cfg.parties && u in cfg.parties && text in Carriable(p, u) :: (v, Share(p.id, u, cfg.payload(p.id, u, text)))
  }

  lemma RoundSendable(cfg: Config, p: Round, s: System, done: Outbox, e: (Uid, Message))
    requires Inv(cfg, s) && Progress(cfg, p, s, done) && e in s.sent && e.1.round == p.id && e.0 in cfg.parties
    ensures e in Sendable(cfg, p)
  {
    if e.1.Start? {
      assert e == (e.0, p.Opening(e.1.leader));
    } else {
      var u := e.1.peer;
      SentOf(cfg, s, e);
      NodeOf(cfg, s, u);
      NodePast(cfg, u, s.nodes[u]);
      InProgressMeans(cfg, p, s.sent, done, u, s.nodes[u]);
      var text := s.nodes[u].hist.carried[p.id];
      assert text in Carriable(p, u);
      assert e == (e.0, Share(p.id, u, cfg.payload(p.id, u, text)));
    }
  }

  /** How many deliveries are of a message of the round that its node has not handled before. */
  ghost function FirstTimes(p: Round, done: Outbox, es: seq<Delivery>): nat
    decreases |es|
  {
    if es == [] then 0
    else
      var e := (es[0].n, es[0].m);
      (if e.1.round == p.id && e !in done then 1 else 0) + FirstTimes(p, done + {e}, es[1..])
  }

  lemma OneLess(all: Outbox, done: Outbox, e: (Uid, Message))
    ensures |all - (done + {e})| + (if e in all && e !in done then 1 else 0) == |all - done|
  {
    if e in all && e !in done {
      assert all - done == all - (done + {e}) + {e};
    } else {
      assert all - done == all - (done + {e});
    }
  }

  /** No schedule makes progress in the round more often than there are messages of the round that can be sent at all. */
  lemma {:induction false} ScheduleBounded(cfg: Config, p: Round, s: System, done: Outbox, es: seq<Delivery>, s': System, done': Outbox)
    requires IsGroup(cfg) && Inv(cfg, s) && Progress(cfg, p, s, done) && Leads(cfg, p, s, done, es, s', done')
    ensures FirstTimes(p, done, es) <= |Sendable(cfg, p) - done|
    decreases |es|
  {
    if es != [] {
      var e := (es[0].n, es[0].m);
      var s1 := Apply(s, AsStep(es[0]));
      DeliveryKeeps(cfg, p, s, done, es[0], s1);
      ScheduleBounded(cfg, p, s1, done + {e}, es[1..], s', done');
      OneLess(Sendable(cfg, p), done, e);
      if e.1.round == p.id {
        RoundSendable(cfg, p, s, done, e);
      }
    }
  }

  // ---- Never stuck ----

  ghost function Listing<T(!new)>(s: set<T>): (l: seq<T>)
    ensures Enumerates(l, s)
    decreases s
  {
    if s == {} then []
    else
      var x :| x in s;
      Listing(s - {x}) + [x]
  }

  lemma SomeContext(cfg: Config, n: Uid) returns (x: Context)
    requires n in cfg.edges
    ensures ContextOf(cfg, n, x)
  {
    x := Context(cfg.crypto, n, cfg.edges[n], (s: set<Uid>) => Listing(s), (s: set<nat>) => Listing(s));
  }

  lemma NothingExpired(cfg: Config, p: Round, s: System, done: Outbox, n: Uid)
    requires Inv(cfg, s) && Progress(cfg, p, s, done) && n in s.nodes
    ensures p.id !in Expired(s.nodes[n], p.clock(n))
  {
    InProgressMeans(cfg, p, s.sent, done, n, s.nodes[n]);
    NodeOf(cfg, s, n);
    NodeCollecting(cfg, n, s.nodes[n]);
    NodePast(cfg, n, s.nodes[n]);
  }

  /** While some message of the round is unhandled, one of them may be delivered. */
  lemma NeverStuck(cfg: Config, p: Round, s: System, done: Outbox) returns (e: Delivery)
    requires Inv(cfg, s) && Progress(cfg, p, s, done) && !AllHandled(cfg, p.id, s.sent, done)
    ensures InOrder(cfg, p, s, done, e) && (e.n, e.m) !in done && e.now == p.clock(e.n) && e.m.round == p.id
  {
    SetupOf(cfg, s);
    var f := Deliverable(cfg, p, s, done);
    var x := SomeContext(cfg, f.0);
    NothingExpired(cfg, p, s, done, f.0);
    e := Delivery(f.0, x, f.1, p.clock(f.0));
  }

  /** Starts first: then every node that a share could be for takes part. */
  lemma Deliverable(cfg: Config, p: Round, s: System, done: Outbox) returns (f: (Uid, Message))
    requires Progress(cfg, p, s, done) && !AllHandled(cfg, p.id, s.sent, done)
    ensures f in s.sent && f !in done && f.0 in s.nodes && f.1.round == p.id && (f.1.Share? ==> Joined(p, done, f.0))
  {
    f :| f in s.sent && f.1.round == p.id && f.0 in cfg.parties && f !in done;
    if f.1.Share? && !Joined(p, done, f.0) {
      f := LeaderUnheard(cfg, p, s, done, f.0);
    }
  }

  lemma LeaderUnheard(cfg: Config, p: Round, s: System, done: Outbox, n: Uid) returns (f: (Uid, Message))
    requires Progress(cfg, p, s, done) && n in s.nodes && !Joined(p, done, n)
    ensures f in s.sent && f !in done && f.0 == n && f.1.round == p.id && f.1.Start?
  {
    PreparedMeans(cfg, p);
    InProgressMeans(cfg, p, s.sent, done, n, s.nodes[n]);
    f := (n, p.Opening(p.leader));
    assert p.Moves(n, f.1);
  }

  /** Only messages of the round are delivered, each at the time its node's clock showed when the round began. */
  ghost predicate AtClocks(p: Round, es: seq<Delivery>) {
    forall i :: 0 <= i < |es| ==> es[i].now == p.clock(es[i].n) && es[i].m.round == p.id
  }

  /** One more message is handled, and less is left to do. */
  lemma OneMoreDelivery(cfg: Config, p: Round, s: System, done: Outbox) returns (e: Delivery, s1: System)
    requires IsGroup(cfg) && Inv(cfg, s) && Progress(cfg, p, s, done) && !AllHandled(cfg, p.id, s.sent, done)
    ensures InOrder(cfg, p, s, done, e) && e.now == p.clock(e.n) && e.m.round == p.id && s1 == Apply(s, AsStep(e))
    ensures Inv(cfg, s1) && Progress(cfg, p, s1, done + {(e.n, e.m)})
    ensures |Sendable(cfg, p) - (done + {(e.n, e.m)})| < |Sendable(cfg, p) - done|
  {
    e := NeverStuck(cfg, p, s, done);
    s1 := Apply(s, AsStep(e));
    DeliveryKeeps(cfg, p, s, done, e, s1);
    RoundSendable(cfg, p, s, done, (e.n, e.m));
    OneLess(Sendable(cfg, p), done, (e.n, e.m));
  }

  lemma LeadsCons(cfg: Config, p: Round, s: System, done: Outbox, e: Delivery, rest: seq<Delivery>, s': System, done': Outbox)
    requires InOrder(cfg, p, s, done, e) && e.now == p.clock(e.n) && e.m.round == p.id && AtClocks(p, rest)
    requires Leads(cfg, p, Apply(s, AsStep(e)), done + {(e.n, e.m)}, rest, s', done')
    ensures Leads(cfg, p, s, done, [e] + rest, s', done') && AtClocks(p, [e] + rest)
  {
    assert ([e] + rest)[1..] == rest;
  }

  /** From any state of a round in progress, deliveries in order bring it to the end. */
  lemma {:induction false} RoundFinishes(cfg: Config, p: Round, s: System, done: Outbox)
    returns (es: seq<Delivery>, s': System, done': Outbox)
    requires IsGroup(cfg) && Inv(cfg, s) && Progress(cfg, p, s, done)
    ensures Leads(cfg, p, s, done, es, s', done') && AllHandled(cfg, p.id, s'.sent, done') && AtClocks(p, es)
    decreases |Sendable(cfg, p) - done|
  {
    if AllHandled(cfg, p.id, s.sent, done) {
      es, s', done' := [], s, done;
    } else {
      var e, s1 := OneMoreDelivery(cfg, p, s, done);
      var rest;
      rest, s', done' := RoundFinishes(cfg, p, s1, done + {(e.n, e.m)});
      LeadsCons(cfg, p, s, done, e, rest, s', done');
      es := [e] + rest;
    }
  }

  // ---- Any set of initiators ----

  /** One more initiator calls `initiate` when its clock shows the time in `p`. */
  lemma OneMoreInitiation(cfg: Config, p: Round, did: set<Uid>, s: System, n: Uid) returns (st: Step)
    requires IsGroup(cfg) && Inv(cfg, s) && Open(cfg, p, did, s) && n in p.texts && n !in did && cfg.crypto.utf8(p.texts[n])
    ensures st.n == n && Initiation(cfg, p, s, did, st)
    ensures Inv(cfg, Apply(s, st)) && Open(cfg, p, did + {n}, Apply(s, st))
  {
    SetupOf(cfg, s);
    PreparedMeans(cfg, p);
    var x := SomeContext(cfg, n);
    st := Step(n, x, p.clock(n), Initiates(p.texts[n], p.lists[n]));
    InitiationOpens(cfg, p, did, s, st);
    StepKeepsInv(cfg, s, st);
  }

  lemma {:induction false} OpeningFrom(cfg: Config, p: Round, did: set<Uid>, s: System) returns (sts: seq<Step>, s': System)
    requires IsGroup(cfg) && Inv(cfg, s) && Open(cfg, p, did, s) && forall u :: u in p.texts ==> cfg.crypto.utf8(p.texts[u])
    ensures Opened(cfg, p, s, did, sts, s')
    decreases p.texts.Keys - did
  {
    if did == p.texts.Keys {
      sts, s' := [], s;
    } else {
      var n :| n in p.texts && n !in did;
      var st := OneMoreInitiation(cfg, p, did, s, n);
      var rest;
      rest, s' := OpeningFrom(cfg, p, did + {n}, Apply(s, st));
      sts := [st] + rest;
      assert sts[1..] == rest;
    }
  }

  /** From idle, any nonempty set of nodes can open the next round, with any texts that fit. */
  lemma OpeningPossible(cfg: Config, steps: seq<Step>, idle: System, p: Round) returns (sts: seq<Step>, started: System)
    requires IsGroup(cfg) && cfg.Valid() && Keyed(cfg) && Reaches(cfg, steps, idle) && p.Valid(cfg) && Idle(idle, p.id - 1)
    requires forall u :: u in p.texts ==> cfg.crypto.utf8(p.texts[u])
    ensures Opened(cfg, p, idle, {}, sts, started)
  {
    RunKeepsInv(cfg, steps, idle);
    IdleOpens(cfg, p, idle);
    sts, started := OpeningFrom(cfg, p, {}, idle);
  }

  /**
   * After any opening from idle, whatever the nodes' clocks show then, some order of
   * deliveries at those times, of messages of the round alone, handles all of them; then
   * everybody has the lowest initiator's text and the others have started their own again.
   */
  lemma DeliveryAlwaysPossible(cfg: Config, steps: seq<Step>, idle: System, p: Round, sts: seq<Step>, started: System)
    returns (es: seq<Delivery>, s: System, done: Outbox)
    requires IsGroup(cfg) && cfg.Valid() && Keyed(cfg) && Reaches(cfg, steps, idle) && p.Valid(cfg) && Idle(idle, p.id - 1)
    requires Opened(cfg, p, idle, {}, sts, started)
    ensures Leads(cfg, p, started, {}, es, s, done) && AllHandled(cfg, p.id, s.sent, done) && AtClocks(p, es)
    ensures forall n :: n in cfg.parties ==> n in s.nodes && RoundOver(p, s, n)
  {
    StartsInProgress(cfg, steps, idle, p, sts, started);
    es, s, done := RoundFinishes(cfg, p, started, {});
    forall n | n in cfg.parties ensures n in s.nodes && RoundOver(p, s, n) {
      ProgressDelivers(cfg, p, started, es, s, done, n);
    }
  }
}
