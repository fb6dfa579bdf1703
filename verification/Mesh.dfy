/** Runs of the mesh protocol and what holds in all of them. */
module Mesh {
  import opened ByteStrings
  import opened RoundNetwork
  import opened MeshDriver
  import opened MeshInvariant
  import opened MeshQuiet
  import opened MeshRounds
  import opened MeshShares

  datatype Event =
    | Initiates(text: Bytes, list: seq<Uid>)
    | Receives(m: Message, accepted: bool)
    | Drains

  /** Node `n` does something; `x` fixes its hash-table orders and `now` is what its clock shows. */
  datatype Step = Step(n: Uid, x: Context, now: nat, event: Event)

  ghost function InitialState(cfg: Config): System {
    System(map u | u in cfg.parties :: NewDriver, {})
  }

  ghost predicate Enabled(cfg: Config, s: System, st: Step) {
    && st.n in s.nodes && ContextOf(cfg, st.n, st.x)
    && match st.event
       case Initiates(text, list) => cfg.crypto.utf8(text) && Enumerates(list, cfg.parties)
       case Receives(m, _) => (st.n, m) in s.sent
       case Drains => true
  }

  /** The node's new state and what it puts on the network. */
  ghost function Effect(d: Driver, st: Step): (Driver, Outbox) {
    match st.event
    case Initiates(text, list) =>
      var (d', out) := Initiate(st.x, d, text, list, st.now);
      (d', if out.Some? then out.value else {})
    case Receives(m, accepted) =>
      var (d', a) := Handle(st.x, d, m, accepted, st.now);
      (d', a.outgoing)
    case Drains => (d.(pendingOutgoing := {}), d.pendingOutgoing)
  }

  ghost function Apply(s: System, st: Step): System
    requires st.n in s.nodes
  {
    var (d', out) := Effect(s.nodes[st.n], st);
    Move(s, st.n, d', out)
  }

  /** The state after a run; a step that is not enabled ends it. */
  ghost predicate Reaches(cfg: Config, steps: seq<Step>, s: System)
    decreases |steps|
  {
    if steps == [] then s == InitialState(cfg)
    else
      var k := |steps| - 1;
      exists before :: Reaches(cfg, steps[..k], before) && Enabled(cfg, before, steps[k]) && s == Apply(before, steps[k])
  }

  // ---- Every step keeps the invariant ----

  lemma InitialInv(cfg: Config)
    requires cfg.Valid()
    ensures Inv(cfg, InitialState(cfg))
  {
    var s := InitialState(cfg);
    forall u | u in s.nodes ensures NodeInv(cfg, u, s.nodes[u]) {
      forall k ensures NodeHolds(k, cfg, u, s.nodes[u]) {}
    }
    forall k ensures Holds(k, cfg, s) {}
  }

  lemma DrainKeepsInv(cfg: Config, s: System, n: Uid, d': Driver)
    requires Inv(cfg, s) && n in s.nodes && d' == s.nodes[n].(pendingOutgoing := {})
    ensures Inv(cfg, Move(s, n, d', s.nodes[n].pendingOutgoing))
  {
    NodeOf(cfg, s, n);
    NodeQueue(cfg, n, s.nodes[n]);
    Bookkeeping(cfg, n, s.nodes[n], d');
    QuietKeepsInv(cfg, s, n, d', s.nodes[n].pendingOutgoing);
  }

  lemma ShareKeepsInv(cfg: Config, s: System, n: Uid, x: Context, m: Message, accepted: bool, now: nat, d': Driver, a: Action)
    requires IsGroup(cfg) && Inv(cfg, s) && n in s.nodes && ContextOf(cfg, n, x)
    requires m.Share? && MessageOk(cfg, s, m) && (d', a) == OnRoundShare(x, s.nodes[n], m, accepted, now)
    ensures Inv(cfg, Move(s, n, d', a.outgoing))
  {
    var d, r := s.nodes[n], m.round;
    var stored := if accepted && r in d.collectors then Submit(d.collectors[r], m.peer, m.payload) else None;
    if stored.None? {
      assert Move(s, n, d', a.outgoing) == s;
    } else {
      var col := stored.value;
      var (d1, out) := AcceptShare(x, d, r, col);
      AcceptKeepsInv(cfg, s, n, x, r, m.peer, m.payload, col, d1, out);
      if d1.collectors[r].IsComplete() {
        var text :| Decode(cfg.crypto, d1.collectors[r]) == Some(text) && Inv(cfg, Move(s, n, Complete(d1, r, Some(text)).0, out));
        var d2 := Complete(d1, r, Some(text)).0;
        FinishSettles(cfg, s, n, x, r, now, d2, d', out);
      }
    }
  }

  lemma FinishSettles(cfg: Config, s: System, n: Uid, x: Context, r: nat, now: nat, d2: Driver, d': Driver, out: Outbox)
    requires IsGroup(cfg) && n in s.nodes && ContextOf(cfg, n, x) && Inv(cfg, Move(s, n, d2, out))
    requires d' == Settle(x, d2, r, false, cfg.parties, now)
    ensures Inv(cfg, Move(s, n, d', out))
  {
    var s2 := Move(s, n, d2, out);
    NodeOf(cfg, s2, n);
    SettleNode(cfg, n, x, d2, r, false, now, d');
    QuietKeepsInv(cfg, s2, n, d', {});
    assert Move(s2, n, d', {}) == Move(s, n, d', out);
  }

  lemma HandleKeepsInv(cfg: Config, s: System, n: Uid, x: Context, m: Message, accepted: bool, now: nat, d': Driver, a: Action)
    requires IsGroup(cfg) && Inv(cfg, s) && n in s.nodes && ContextOf(cfg, n, x) && (n, m) in s.sent
    requires (d', a) == Handle(x, s.nodes[n], m, accepted, now)
    ensures Inv(cfg, Move(s, n, d', a.outgoing))
  {
    var d0 := DropExpired(x, s.nodes[n], now);
    var s0 := Move(s, n, d0, {});
    DropKeepsInv(cfg, s, n, x, now);
    SentOf(cfg, s0, (n, m));
    var (d1, a1) := React(x, d0, m, accepted, now);
    if m.Start? {
      StartKeepsInv(cfg, s0, n, x, m, now, d1, a1);
    } else {
      ShareKeepsInv(cfg, s0, n, x, m, accepted, now, d1, a1);
    }
    var s1 := Move(s0, n, d1, a1.outgoing);
    DrainKeepsInv(cfg, s1, n, d');
    assert Move(s1, n, d', d1.pendingOutgoing) == Move(s, n, d', a.outgoing);
  }

  lemma DropKeepsInv(cfg: Config, s: System, n: Uid, x: Context, now: nat)
    requires IsGroup(cfg) && Inv(cfg, s) && n in s.nodes && ContextOf(cfg, n, x)
    ensures Inv(cfg, Move(s, n, DropExpired(x, s.nodes[n], now), {}))
  {
    NodeOf(cfg, s, n);
    var d0 := DropExpired(x, s.nodes[n], now);
    ExpireAllNode(cfg, n, x, s.nodes[n], x.roundOrder(Expired(s.nodes[n], now)), now, d0);
    QuietKeepsInv(cfg, s, n, d0, {});
  }

  lemma StepKeepsInv(cfg: Config, s: System, st: Step)
    requires IsGroup(cfg) && Inv(cfg, s) && Enabled(cfg, s, st)
    ensures Inv(cfg, Apply(s, st))
  {
    var n, x, d := st.n, st.x, s.nodes[st.n];
    match st.event
    case Initiates(text, list) =>
      var (d', out) := Initiate(x, d, text, list, st.now);
      NodeOf(cfg, s, n);
      InitiateNode(cfg, n, x, d, text, list, st.now, d', out);
      QuietKeepsInv(cfg, s, n, d', if out.Some? then out.value else {});
    case Receives(m, accepted) =>
      var (d', a) := Handle(x, d, m, accepted, st.now);
      HandleKeepsInv(cfg, s, n, x, m, accepted, st.now, d', a);
    case Drains =>
      DrainKeepsInv(cfg, s, n, d.(pendingOutgoing := {}));
  }

  lemma {:induction false} RunKeepsInv(cfg: Config, steps: seq<Step>, s: System)
    requires IsGroup(cfg) && cfg.Valid() && Reaches(cfg, steps, s)
    ensures Inv(cfg, s)
    decreases |steps|
  {
    if steps == [] {
      InitialInv(cfg);
    } else {
      var k := |steps| - 1;
      var before :| Reaches(cfg, steps[..k], before) && Enabled(cfg, before, steps[k]) && s == Apply(before, steps[k]);
      RunKeepsInv(cfg, steps[..k], before);
      StepKeepsInv(cfg, before, steps[k]);
    }
  }

  // ---- Theorems ----

  /** The sender of a message share is the lowest initiator of its round. */
  lemma SenderIsLowest(cfg: Config, s: System, u: Uid, r: nat, text: Bytes)
    requires Inv(cfg, s) && Carries(s, u, r, Some(text))
    ensures LowestInitiator(s, u, r) && s.nodes[u].hist.initiated[r] == text
  {
    NodeOf(cfg, s, u);
    NodePast(cfg, u, s.nodes[u]);
    CausalityOf(cfg, s);
    assert Initiated(s, u, r) && HasShared(s, u, r);
    var m := LowestInitiatorExists(s, r);
    LowestNeverNeutral(s, m, r);
  }

  /** Any text extracted for a round, by any node in any run, is the lowest-uid initiator's text. */
  lemma MeshAgreement(cfg: Config, steps: seq<Step>, s: System, n: Uid, r: nat, text: Bytes)
    requires IsGroup(cfg) && cfg.Valid() && Reaches(cfg, steps, s) && Delivered(s, n, r, text)
    ensures exists u :: LowestInitiator(s, u, r) && s.nodes[u].hist.initiated[r] == text
  {
    RunKeepsInv(cfg, steps, s);
    assert Holds(Deliveries, cfg, s);
    var u :| Carries(s, u, r, Some(text));
    SenderIsLowest(cfg, s, u, r, text);
  }

  /** No two nodes ever extract different texts for the same round. */
  lemma NoDisagreement(cfg: Config, steps: seq<Step>, s: System, n: Uid, n': Uid, r: nat, text: Bytes, text': Bytes)
    requires IsGroup(cfg) && cfg.Valid() && Reaches(cfg, steps, s)
    requires Delivered(s, n, r, text) && Delivered(s, n', r, text')
    ensures text == text'
  {
    MeshAgreement(cfg, steps, s, n, r, text);
    MeshAgreement(cfg, steps, s, n', r, text');
    var u :| LowestInitiator(s, u, r) && s.nodes[u].hist.initiated[r] == text;
    var v :| LowestInitiator(s, v, r) && s.nodes[v].hist.initiated[r] == text';
    LessTotal(u, v);
  }

  /** At most one message-bearing share is ever broadcast for a round, however many nodes initiate it. */
  lemma OneMessageShare(cfg: Config, steps: seq<Step>, s: System, u: Uid, v: Uid, r: nat, text: Bytes, text': Bytes)
    requires IsGroup(cfg) && cfg.Valid() && Reaches(cfg, steps, s)
    requires Carries(s, u, r, Some(text)) && Carries(s, v, r, Some(text'))
    ensures u == v && text == text'
  {
    RunKeepsInv(cfg, steps, s);
    CausalityOf(cfg, s);
    if u != v {
      OnlyCarrier(s, u, v, r);
    }
  }

  lemma OnlyCarrier(s: System, u: Uid, v: Uid, r: nat)
    requires MessageLast(s) && HasShared(s, u, r) && s.nodes[u].hist.carried[r].Some?
    requires v in s.nodes && v != u
    ensures Carries(s, v, r, None)
  {
  }

  /**
   * Each node broadcasts at most one share per round, and every share on the wire is
   * byte for byte the share that its sender computes for what it carried.
   */
  lemma OneShareEach(cfg: Config, steps: seq<Step>, s: System, u: Uid, r: nat)
    requires IsGroup(cfg) && cfg.Valid() && Reaches(cfg, steps, s) && u in s.nodes
    ensures s.nodes[u].hist.transmissions[r] <= 1
    ensures forall t, payload :: (t, Share(r, u, payload)) in s.sent ==> IsShareOf(cfg, s, u, r, payload)
  {
    RunKeepsInv(cfg, steps, s);
    NodeOf(cfg, s, u);
    NodePast(cfg, u, s.nodes[u]);
    forall t, payload | (t, Share(r, u, payload)) in s.sent ensures IsShareOf(cfg, s, u, r, payload) {
      SentOf(cfg, s, (t, Share(r, u, payload)));
    }
  }

  /** A node delivers at most one text per round, once. */
  lemma DeliversOnce(cfg: Config, steps: seq<Step>, s: System, n: Uid, r: nat, text: Bytes)
    requires IsGroup(cfg) && cfg.Valid() && Reaches(cfg, steps, s) && Delivered(s, n, r, text)
    ensures s.nodes[n].hist.delivered[(r, text)] == 1
    ensures forall other :: Delivered(s, n, r, other) ==> other == text
  {
    RunKeepsInv(cfg, steps, s);
    NodeOf(cfg, s, n);
    NodePast(cfg, n, s.nodes[n]);
    forall other | Delivered(s, n, r, other) ensures other == text {
      var e, f := (r, text), (r, other);
      assert e in s.nodes[n].hist.delivered && f in s.nodes[n].hist.delivered;
    }
  }

  /**
   * A round that becomes complete at a node always yields a text: collected shares
   * are never garbage, so the retry after a failed extraction is never taken.
   */
  lemma CompletionDelivers(cfg: Config, steps: seq<Step>, s: System, n: Uid, x: Context, m: Message, now: nat)
    requires IsGroup(cfg) && cfg.Valid() && Reaches(cfg, steps, s) && n in s.nodes && ContextOf(cfg, n, x) && (n, m) in s.sent && m.Share?
    requires var d := DropExpired(x, s.nodes[n], now);
             && m.round in d.collectors && Submit(d.collectors[m.round], m.peer, m.payload).Some?
             && AcceptShare(x, d, m.round, Submit(d.collectors[m.round], m.peer, m.payload).value).0.collectors[m.round].IsComplete()
    ensures Handle(x, s.nodes[n], m, true, now).1.extracted.Some?
  {
    RunKeepsInv(cfg, steps, s);
    var d := DropExpired(x, s.nodes[n], now);
    var s0 := Move(s, n, d, {});
    DropKeepsInv(cfg, s, n, x, now);
    SentOf(cfg, s0, (n, m));
    var col := Submit(d.collectors[m.round], m.peer, m.payload).value;
    var (d1, out) := AcceptShare(x, d, m.round, col);
    AcceptKeepsInv(cfg, s0, n, x, m.round, m.peer, m.payload, col, d1, out);
  }
}
