/** Relaying between nodes: one node's step, and networks with arbitrary routing. */
module RelayForwarding {
  import opened ByteStrings
  import opened RelayAdmission

  const RELAY_MAX_HOPS := 8

  datatype Packet = Packet(
    isRequest: bool,
    from: Uid,
    to: Uid,
    originKey: Key,
    nonce: nat,
    timestamp: nat,
    hopsLeft: Byte,
    signature: Bytes,
    payload: Bytes)

  /** What the originator signs: everything but the hop count, which relays decrement. */
  function SignedPart(p: Packet): Bytes {
    Ascii("chrono-relay-v1") + (Prefixed(p.from) + (Prefixed(p.to) + (U64(p.nonce) + (U64(p.timestamp) + Prefixed(p.payload)))))
  }

  datatype RelayPath = RelayPath(relay: Uid, active: bool)

  type Routes = map<Uid, seq<RelayPath>>

  /** What a node can see during one call: peers' keys, open connections, its routing table, its outgoing queue, the clock. */
  datatype Surroundings = Surroundings(
    known: map<Uid, Key>,
    connected: set<Uid>,
    routes: Routes,
    verify: (Key, Bytes, Bytes) -> bool,
    queueOpen: bool,
    now: nat)

  function FirstActive(paths: seq<RelayPath>): Option<Uid> {
    if paths == [] then None else if paths[0].active then Some(paths[0].relay) else FirstActive(paths[1..])
  }

  function NextHop(e: Surroundings, to: Uid): Option<Uid> {
    if to in e.connected then Some(to) else if to in e.routes then FirstActive(e.routes[to]) else None
  }

  datatype Outcome = Dropped | Delivered | Forwarded(next: Uid, packet: Packet)

  /** The key that a message counts against: the sender's known one, or the one it brings along. */
  function KeyFor(known: map<Uid, Key>, p: Packet): Key {
    if p.from in known then known[p.from] else p.originKey
  }

  /** That key, once its signature has been checked; a key brought along must be the pinned one. */
  function Authenticated(v: Verifier, e: Surroundings, p: Packet): (Verifier, Option<Key>) {
    var (v1, pinned) := if p.from in e.known then (v, true) else Pin(v, p.from, p.originKey);
    var key := KeyFor(e.known, p);
    (v1, if pinned && e.verify(key, SignedPart(p), p.signature) then Some(key) else None)
  }

  function Route(me: Uid, e: Surroundings, p: Packet): Outcome {
    if p.to == me then Delivered
    else if p.hopsLeft > RELAY_MAX_HOPS || p.hopsLeft == 0 then Dropped
    else
      match NextHop(e, p.to)
      case None => Dropped
      case Some(next) => if e.queueOpen then Forwarded(next, p.(hopsLeft := p.hopsLeft - 1)) else Dropped
  }

  function HandleRelay(me: Uid, v: Verifier, e: Surroundings, p: Packet): (Verifier, Outcome) {
    var (v1, key) := Authenticated(v, e, p);
    match key
    case None => (v1, Dropped)
    case Some(k) =>
      var (v2, verdict) := Check(v1, k, p.nonce, p.timestamp, e.now);
      (v2, if verdict == Admitted then Route(me, e, p) else Dropped)
  }

  class RelayNode {
    const uid: Uid
    const publicKey: Key
    // None when the identity holds no secret key.
    const sign: Option<Bytes -> Bytes>
    const verifier: RelayVerifier
    var relayNonce: nat
    var outgoing: seq<(Uid, Packet)>

    constructor (uid: Uid, publicKey: Key, sign: Option<Bytes -> Bytes>)
      ensures this.uid == uid && this.publicKey == publicKey && this.sign == sign
      ensures fresh(verifier) && verifier.View() == NewVerifier && relayNonce == 0 && outgoing == []
    {
      this.uid, this.publicKey, this.sign := uid, publicKey, sign;
      verifier := new RelayVerifier();
      relayNonce, outgoing := 0, [];
    }

    /** Verify, admit, then deliver or forward. */
    method HandleRelayMessage(e: Surroundings, p: Packet) returns (delivered: bool)
      modifies verifier, this`outgoing
      ensures var (v, outcome) := HandleRelay(uid, old(verifier.View()), e, p);
              && verifier.View() == v && delivered == outcome.Delivered?
              && outgoing == old(outgoing) + if outcome.Forwarded? then [(outcome.next, outcome.packet)] else []
      ensures delivered || outgoing != old(outgoing) ==>
                e.verify(if p.from in e.known then e.known[p.from] else p.originKey, SignedPart(p), p.signature)
      ensures delivered ==> p.to == uid && outgoing == old(outgoing)
      ensures p.from !in e.known && p.from !in old(verifier.keyPins) ==> p.from in verifier.keyPins && verifier.keyPins[p.from] == p.originKey
      ensures p.from in e.known ==> verifier.keyPins == old(verifier.keyPins)
    {
      delivered := false;
      var key := p.originKey;
      if p.from in e.known {
        key := e.known[p.from];
      } else {
        var ok := verifier.PinKey(p.from, p.originKey);
        if !ok {
          return;
        }
      }
      if !e.verify(key, SignedPart(p), p.signature) {
        return;
      }
      var verdict := verifier.CheckMessage(key, p.nonce, p.timestamp, e.now);
      if verdict != Admitted {
        return;
      }
      delivered := RouteMessage(e, p);
    }

    /** An admitted message is for us, or goes one hop further. */
    method RouteMessage(e: Surroundings, p: Packet) returns (delivered: bool)
      modifies this`outgoing
      ensures var outcome := Route(uid, e, p);
              delivered == outcome.Delivered? && outgoing == old(outgoing) + if outcome.Forwarded? then [(outcome.next, outcome.packet)] else []
      ensures delivered ==> p.to == uid && outgoing == old(outgoing)
    {
      if p.to == uid {
        return true;
      }
      delivered := false;
      if p.hopsLeft > RELAY_MAX_HOPS || p.hopsLeft == 0 {
        return;
      }
      var next := NextHop(e, p.to);
      if next.None? {
        return;
      }
      if e.queueOpen {
        outgoing := outgoing + [(next.value, p.(hopsLeft := p.hopsLeft - 1))];
      }
    }

    /** Originates a request under the next nonce since this process started; it is used up even when there is no route. */
    method SendRelay(e: Surroundings, to: Uid, payload: Bytes) returns (sent: bool)
      modifies this`relayNonce, this`outgoing
      ensures relayNonce == old(relayNonce) + if sign.Some? then 1 else 0
      ensures sent <==> sign.Some? && NextHop(e, to).Some? && e.queueOpen
      ensures !sent ==> outgoing == old(outgoing)
      ensures sent ==> exists p ::
                && outgoing == old(outgoing) + [(NextHop(e, to).value, p)]
                && p.isRequest && p.from == uid && p.to == to && p.originKey == publicKey && p.payload == payload
                && p.nonce == relayNonce && p.timestamp == e.now && p.hopsLeft == RELAY_MAX_HOPS && p.signature == sign.value(SignedPart(p))
    {
      if sign.None? {
        return false;
      }
      relayNonce := relayNonce + 1;
      var unsigned := Packet(true, uid, to, publicKey, relayNonce, e.now, RELAY_MAX_HOPS, [], payload);
      var p := unsigned.(signature := sign.value(SignedPart(unsigned)));
      var next := NextHop(e, to);
      if next.None? || !e.queueOpen {
        return false;
      }
      outgoing := outgoing + [(next.value, p)];
      sent := true;
    }
  }

  // ---- Where an admitted message goes ----

  /** The first path that is active leads over `next`. */
  ghost predicate LeadsOver(paths: seq<RelayPath>, next: Uid) {
    exists i :: 0 <= i < |paths| && paths[i] == RelayPath(next, true) && forall j :: 0 <= j < i ==> !paths[j].active
  }

  lemma {:induction false} FirstActiveMeaning(paths: seq<RelayPath>, next: Uid)
    ensures FirstActive(paths) == Some(next) <==> LeadsOver(paths, next)
    ensures FirstActive(paths).None? <==> forall i :: 0 <= i < |paths| ==> !paths[i].active
  {
    if paths != [] {
      FirstActiveMeaning(paths[1..], next);
      assert paths == [paths[0]] + paths[1..];
      if LeadsOver(paths[1..], next) && !paths[0].active {
        var i :| 0 <= i < |paths[1..]| && paths[1..][i] == RelayPath(next, true) && forall j :: 0 <= j < i ==> !paths[1..][j].active;
        assert paths[i + 1] == RelayPath(next, true) && forall j :: 0 <= j < i + 1 ==> !paths[j].active by {
          forall j | 0 <= j < i + 1 ensures !paths[j].active {
            assert j > 0 ==> paths[j] == paths[1..][j - 1];
          }
        }
      }
      if LeadsOver(paths, next) && !paths[0].active {
        var i :| 0 <= i < |paths| && paths[i] == RelayPath(next, true) && forall j :: 0 <= j < i ==> !paths[j].active;
        assert paths[1..][i - 1] == RelayPath(next, true);
      }
    }
  }

  /** `next` is the target itself when it is connected, and otherwise the first active relay to it. */
  ghost predicate IsNextHop(e: Surroundings, to: Uid, next: Uid) {
    if to in e.connected then next == to else to in e.routes && LeadsOver(e.routes[to], next)
  }

  lemma NextHopMeaning(e: Surroundings, to: Uid, next: Uid)
    ensures NextHop(e, to) == Some(next) <==> IsNextHop(e, to, next)
  {
    if to in e.routes {
      FirstActiveMeaning(e.routes[to], next);
    }
  }

  /**
   * An admitted message is delivered exactly when it is for us; it is forwarded exactly when it
   * is not, has between one and eight hops left and there is somewhere to send it, and then to
   * that next hop, with one hop less and otherwise as it came. Anything else is dropped.
   */
  lemma RouteIff(me: Uid, e: Surroundings, p: Packet, next: Uid, q: Packet)
    ensures Route(me, e, p) == Delivered <==> p.to == me
    ensures Route(me, e, p) == Forwarded(next, q) <==>
              p.to != me && 1 <= p.hopsLeft <= 8 && e.queueOpen && IsNextHop(e, p.to, next)
              && q == Packet(p.isRequest, p.from, p.to, p.originKey, p.nonce, p.timestamp, p.hopsLeft - 1, p.signature, p.payload)
  {
    NextHopMeaning(e, p.to, next);
  }

  /**
   * A node delivers or forwards a message if and only if it verifies under the sender's known
   * key, or under the key it brings along when none is known and that one is the first, or the
   * pinned one; its nonce is new, its time right and its quota not used up; and it can be routed.
   */
  lemma ActsIff(me: Uid, v: Verifier, e: Surroundings, p: Packet, key: Key)
    requires key == if p.from in e.known then e.known[p.from] else p.originKey
    ensures HandleRelay(me, v, e, p).1 != Dropped <==>
              && e.verify(key, SignedPart(p), p.signature)
              && (p.from !in e.known && p.from in v.pins ==> v.pins[p.from] == p.originKey)
              && Check(v, key, p.nonce, p.timestamp, e.now).1 == Admitted && Route(me, e, p) != Dropped
    ensures HandleRelay(me, v, e, p).1 != Dropped ==> HandleRelay(me, v, e, p).1 == Route(me, e, p)
  {
  }

  // ---- What the signature binds ----

  /** Lengths and counters within their machine widths. */
  predicate WithinWidths(p: Packet) {
    && |p.from| < 0x1_0000_0000 && |p.to| < 0x1_0000_0000 && |p.payload| < 0x1_0000_0000
    && p.nonce < 0x1_0000_0000_0000_0000 && p.timestamp < 0x1_0000_0000_0000_0000
  }

  /** Two packets with the same signed bytes agree on sender, target, nonce, time and payload. */
  lemma SignedPartInjective(p: Packet, q: Packet)
    requires WithinWidths(p) && WithinWidths(q) && SignedPart(p) == SignedPart(q)
    ensures p.from == q.from && p.to == q.to && p.nonce == q.nonce && p.timestamp == q.timestamp && p.payload == q.payload
  {
    var tp := U64(p.timestamp) + Prefixed(p.payload);
    var tq := U64(q.timestamp) + Prefixed(q.payload);
    var np := U64(p.nonce) + tp;
    var nq := U64(q.nonce) + tq;
    SplitFields(Ascii("chrono-relay-v1"), Prefixed(p.from) + (Prefixed(p.to) + np), Ascii("chrono-relay-v1"), Prefixed(q.from) + (Prefixed(q.to) + nq));
    PrefixedSplit(p.from, Prefixed(p.to) + np, q.from, Prefixed(q.to) + nq);
    PrefixedSplit(p.to, np, q.to, nq);
    U64Split(p.nonce, tp, q.nonce, tq);
    U64Split(p.timestamp, Prefixed(p.payload), q.timestamp, Prefixed(q.payload));
    assert Prefixed(p.payload) + [] == Prefixed(q.payload) + [];
    PrefixedSplit(p.payload, [], q.payload, []);
  }

  // ---- Networks ----

  /** A copy in flight, and how often that copy has been forwarded since somebody injected it. */
  datatype Flight = Flight(target: Uid, packet: Packet, forwards: nat)

  /** What a node did with a message its verifier admitted. */
  datatype Handled = Handled(request: Request, packet: Packet, seen: Surroundings, outcome: Outcome)

  /** A node's verifier, with all checks and pin attempts made so far and all admitted messages. */
  datatype RelayState = RelayState(verifier: Verifier, checks: seq<Request>, attempts: seq<Attempt>, handled: seq<Handled>)

  const NewRelay := RelayState(NewVerifier, [], [], [])

  // Copies stay available, so each may be delivered again at any time.
  datatype Net = Net(nodes: map<Uid, RelayState>, flights: set<Flight>)

  datatype NetStep =
    | Inject(target: Uid, packet: Packet)
    | Arrive(flight: Flight, surroundings: Surroundings)

  ghost function EmptyNet(uids: set<Uid>): Net {
    Net(map u | u in uids :: NewRelay, {})
  }

  function AttemptsOf(e: Surroundings, p: Packet): seq<Attempt> {
    if p.from in e.known then [] else [Attempt(p.from, p.originKey)]
  }

  function HandledBy(me: Uid, n: RelayState, e: Surroundings, p: Packet): (RelayState, Outcome) {
    var (v, outcome) := HandleRelay(me, n.verifier, e, p);
    var (v1, key) := Authenticated(n.verifier, e, p);
    var n1 := n.(verifier := v, attempts := n.attempts + AttemptsOf(e, p));
    if key.None? then (n1, outcome)
    else
      var q := Request(key.value, p.nonce, p.timestamp, e.now);
      (n1.(checks := n.checks + [q],
           handled := n.handled + if Checked(v1, q).1 == Admitted then [Handled(q, p, e, outcome)] else []),
       outcome)
  }

  ghost predicate StepEnabled(net: Net, st: NetStep) {
    st.Arrive? ==> st.flight in net.flights && st.flight.target in net.nodes
  }

  ghost function NetAfter(net: Net, st: NetStep): Net
    requires StepEnabled(net, st)
  {
    match st
    case Inject(target, packet) => net.(flights := net.flights + {Flight(target, packet, 0)})
    case Arrive(f, e) =>
      var (n, outcome) := HandledBy(f.target, net.nodes[f.target], e, f.packet);
      Net(net.nodes[f.target := n],
          net.flights + if outcome.Forwarded? then {Flight(outcome.next, outcome.packet, f.forwards + 1)} else {})
  }

  ghost predicate NetReaches(uids: set<Uid>, steps: seq<NetStep>, net: Net)
    decreases |steps|
  {
    if steps == [] then net == EmptyNet(uids)
    else
      var k := |steps| - 1;
      exists before :: NetReaches(uids, steps[..k], before) && StepEnabled(before, steps[k]) && net == NetAfter(before, steps[k])
  }

  /**
   * A message signed and counted under the sender's known key, or under one that passed as the
   * pinned one, and sent where the node saw that it should go.
   */
  ghost predicate HandledOk(me: Uid, attempts: seq<Attempt>, h: Handled) {
    && h.request == Request(KeyFor(h.seen.known, h.packet), h.packet.nonce, h.packet.timestamp, h.seen.now)
    && h.seen.verify(h.request.key, SignedPart(h.packet), h.packet.signature) && h.outcome == Route(me, h.seen, h.packet)
    && (h.packet.from !in h.seen.known ==> Passed(attempts, h.packet.from, h.packet.originKey))
  }

  ghost predicate Passed(attempts: seq<Attempt>, sender: Uid, key: Key) {
    exists a :: 0 <= a < |attempts| && attempts[a] == Attempt(sender, key) && Accepted(attempts, a)
  }

  /** The verifier's tables are those of the recorded checks and attempts, and only admitted messages were acted on. */
  ghost predicate NodeRecord(me: Uid, n: RelayState) {
    && n.verifier.lastNonce == After(n.checks).lastNonce && n.verifier.rate == After(n.checks).rate
    && n.verifier.pins == PinnedAfter(n.attempts).pins
    && HandledMatch(me, n.handled, AdmittedOf(n.checks), n.attempts)
  }

  ghost predicate FlightOk(f: Flight) {
    f.forwards > 0 ==> f.packet.hopsLeft + f.forwards <= RELAY_MAX_HOPS
  }

  ghost predicate NetInv(net: Net) {
    && (forall u :: u in net.nodes ==> NodeRecord(u, net.nodes[u]))
    && (forall f :: f in net.flights ==> FlightOk(f))
  }

  lemma PinsApart(v: Verifier, w: Verifier, q: Request)
    requires v.lastNonce == w.lastNonce && v.rate == w.rate
    ensures Checked(v, q).1 == Checked(w, q).1
    ensures Checked(v, q).0.lastNonce == Checked(w, q).0.lastNonce && Checked(v, q).0.rate == Checked(w, q).0.rate
  {
  }

  lemma PassedKept(attempts: seq<Attempt>, more: seq<Attempt>, sender: Uid, key: Key)
    requires Passed(attempts, sender, key)
    ensures Passed(attempts + more, sender, key)
  {
    var a :| 0 <= a < |attempts| && attempts[a] == Attempt(sender, key) && Accepted(attempts, a);
    assert (attempts + more)[..a] == attempts[..a] && (attempts + more)[a] == attempts[a];
  }

  /** The pin table follows the attempts, and a key that passes is recorded as having passed. */
  lemma PinsFollow(v: Verifier, attempts: seq<Attempt>, e: Surroundings, p: Packet, all: seq<Attempt>)
    requires v.pins == PinnedAfter(attempts).pins && all == attempts + AttemptsOf(e, p)
    ensures Authenticated(v, e, p).0.pins == PinnedAfter(all).pins
    ensures Authenticated(v, e, p).1.Some? && p.from !in e.known ==> Passed(all, p.from, p.originKey)
  {
    if p.from in e.known {
      assert all == attempts;
    } else {
      assert all[..|attempts|] == attempts && all[|attempts|] == Attempt(p.from, p.originKey);
      assert Accepted(all, |attempts|) <==> Pin(v, p.from, p.originKey).1;
    }
  }

  lemma HandledKept(me: Uid, n: RelayState, e: Surroundings, p: Packet, all: seq<Attempt>)
    requires NodeRecord(me, n) && all == n.attempts + AttemptsOf(e, p)
    ensures forall i :: 0 <= i < |n.handled| ==> HandledOk(me, all, n.handled[i])
  {
    forall i | 0 <= i < |n.handled| ensures HandledOk(me, all, n.handled[i]) {
      var h := n.handled[i];
      assert HandledOk(me, n.attempts, h);
      if h.packet.from !in h.seen.known {
        PassedKept(n.attempts, AttemptsOf(e, p), h.packet.from, h.packet.originKey);
      }
    }
  }

  lemma ChecksKept(me: Uid, n: RelayState, v1: Verifier, q: Request)
    requires NodeRecord(me, n) && v1.lastNonce == n.verifier.lastNonce && v1.rate == n.verifier.rate
    ensures Checked(v1, q).0.lastNonce == After(n.checks + [q]).lastNonce && Checked(v1, q).0.rate == After(n.checks + [q]).rate
    ensures AdmittedOf(n.checks + [q]) == AdmittedOf(n.checks) + if Checked(v1, q).1 == Admitted then [q] else []
    ensures Checked(v1, q).0.pins == v1.pins
  {
    PinsApart(v1, After(n.checks), q);
    assert (n.checks + [q])[..|n.checks|] == n.checks;
  }

  /** The handled messages match the admissions and were counted under a proper key. */
  ghost predicate HandledMatch(me: Uid, handled: seq<Handled>, log: seq<Request>, attempts: seq<Attempt>) {
    && |handled| == |log| && (forall i :: 0 <= i < |handled| ==> handled[i].request == log[i])
    && (forall i :: 0 <= i < |handled| ==> HandledOk(me, attempts, handled[i]))
  }

  lemma OneMoreHandled(me: Uid, handled: seq<Handled>, log: seq<Request>, attempts: seq<Attempt>, h: Handled)
    requires HandledMatch(me, handled, log, attempts) && HandledOk(me, attempts, h)
    ensures HandledMatch(me, handled + [h], log + [h.request], attempts)
  {
    var all := handled + [h];
    forall i | 0 <= i < |all| ensures all[i].request == (log + [h.request])[i] && HandledOk(me, attempts, all[i]) {
      assert i < |handled| ==> all[i] == handled[i];
    }
  }

  lemma MatchGrows(me: Uid, handled: seq<Handled>, log: seq<Request>, attempts: seq<Attempt>, more: seq<Handled>, log': seq<Request>)
    requires HandledMatch(me, handled, log, attempts) && |more| <= 1
    requires log' == log + if more == [] then [] else [more[0].request]
    requires more != [] ==> HandledOk(me, attempts, more[0])
    ensures HandledMatch(me, handled + more, log', attempts)
  {
    if more == [] {
      assert handled + more == handled && log' == log;
    } else {
      assert more == [more[0]];
      OneMoreHandled(me, handled, log, attempts, more[0]);
    }
  }

  lemma RecordKept(me: Uid, n: RelayState, e: Surroundings, p: Packet)
    requires NodeRecord(me, n)
    ensures NodeRecord(me, HandledBy(me, n, e, p).0)
  {
    var (v1, key) := Authenticated(n.verifier, e, p);
    var all := n.attempts + AttemptsOf(e, p);
    PinsFollow(n.verifier, n.attempts, e, p, all);
    HandledKept(me, n, e, p, all);
    if key.Some? {
      var q := Request(key.value, p.nonce, p.timestamp, e.now);
      ChecksKept(me, n, v1, q);
      var more := if Checked(v1, q).1 == Admitted then [Handled(q, p, e, Route(me, e, p))] else [];
      MatchGrows(me, n.handled, AdmittedOf(n.checks), all, more, AdmittedOf(n.checks + [q]));
      assert HandledBy(me, n, e, p).0 == RelayState(Checked(v1, q).0, n.checks + [q], all, n.handled + more);
    } else {
      assert HandledBy(me, n, e, p).0 == n.(verifier := v1, attempts := all);
    }
  }

  lemma ForwardUsesHop(me: Uid, n: RelayState, e: Surroundings, f: Flight)
    requires FlightOk(f)
    ensures var outcome := HandledBy(me, n, e, f.packet).1;
            outcome.Forwarded? ==> FlightOk(Flight(outcome.next, outcome.packet, f.forwards + 1)) && f.forwards < RELAY_MAX_HOPS
  {
  }

  lemma NetStepKeeps(net: Net, st: NetStep)
    requires NetInv(net) && StepEnabled(net, st)
    ensures NetInv(NetAfter(net, st))
  {
    if st.Arrive? {
      var f, n := st.flight, net.nodes[st.flight.target];
      RecordKept(f.target, n, st.surroundings, f.packet);
      ForwardUsesHop(f.target, n, st.surroundings, f);
    }
  }

  lemma {:induction false} NetKeeps(uids: set<Uid>, steps: seq<NetStep>, net: Net)
    requires NetReaches(uids, steps, net)
    ensures NetInv(net)
    decreases |steps|
  {
    if steps != [] {
      var k := |steps| - 1;
      var before :| NetReaches(uids, steps[..k], before) && StepEnabled(before, steps[k]) && net == NetAfter(before, steps[k]);
      NetKeeps(uids, steps[..k], before);
      NetStepKeeps(before, steps[k]);
    }
  }

  /**
   * Whatever the routing tables say, cycles included, and whatever is injected: no copy is
   * ever forwarded more than eight times, each forward costing it one hop.
   */
  lemma ForwardsBounded(uids: set<Uid>, steps: seq<NetStep>, net: Net, f: Flight)
    requires NetReaches(uids, steps, net) && f in net.flights
    ensures f.forwards <= RELAY_MAX_HOPS
    ensures f.forwards > 0 ==> f.packet.hopsLeft + f.forwards <= RELAY_MAX_HOPS
  {
    NetKeeps(uids, steps, net);
    assert FlightOk(f);
  }

  /**
   * While fewer than 4096 keys have been admitted at a node, what it acts on under one key
   * has strictly increasing nonces.
   */
  lemma ActsOnce(uids: set<Uid>, steps: seq<NetStep>, net: Net, u: Uid, i: nat, j: nat)
    requires NetReaches(uids, steps, net) && u in net.nodes
    requires |KeysOf(AdmittedOf(net.nodes[u].checks))| < MAX_RELAY_TRACKED
    requires i < j < |net.nodes[u].handled|
    ensures var a, b := net.nodes[u].handled[i].request, net.nodes[u].handled[j].request;
            a.key == b.key ==> a.nonce < b.nonce
  {
    NetKeeps(uids, steps, net);
    var n := net.nodes[u];
    assert NodeRecord(u, n);
    if n.handled[i].request.key == n.handled[j].request.key {
      NoncesIncrease(n.checks, i, j);
    }
  }

  /**
   * Over all runs of any network, whatever is injected: whatever a node acted on carried a
   * signature that verified over its sender, target, nonce, time and payload, under the key the
   * node knew of that sender or, knowing none, under the one that came with it and had passed as
   * the sender's pinned key; and it was delivered exactly if the node was its target.
   */
  lemma ActedOnSigned(uids: set<Uid>, steps: seq<NetStep>, net: Net, u: Uid, i: nat)
    requires NetReaches(uids, steps, net) && u in net.nodes && i < |net.nodes[u].handled|
    ensures var h := net.nodes[u].handled[i];
            && h.seen.verify(if h.packet.from in h.seen.known then h.seen.known[h.packet.from] else h.packet.originKey,
                             SignedPart(h.packet), h.packet.signature)
            && (h.packet.from !in h.seen.known ==> Passed(net.nodes[u].attempts, h.packet.from, h.packet.originKey))
            && (h.outcome.Delivered? <==> h.packet.to == u)
            && (h.outcome.Forwarded? ==> IsNextHop(h.seen, h.packet.to, h.outcome.next))
  {
    NetKeeps(uids, steps, net);
    var n := net.nodes[u];
    assert NodeRecord(u, n);
    var h := n.handled[i];
    assert HandledOk(u, n.attempts, h);
    if h.outcome.Forwarded? {
      NextHopMeaning(h.seen, h.packet.to, h.outcome.next);
    }
  }

  // ---- Messages rather than keys ----

  /** The known key of a sender, if there is one. */
  function EntryOf(known: map<Uid, Key>, sender: Uid): Option<Key> {
    if sender in known then Some(known[sender]) else None
  }

  /** Of a sender's keys only one can ever have passed. */
  lemma PassedOnce(attempts: seq<Attempt>, sender: Uid, key: Key, key': Key)
    requires |SendersOf(attempts)| <= MAX_RELAY_PINS && Passed(attempts, sender, key) && Passed(attempts, sender, key')
    ensures key == key'
  {
    OnlyFirstKeyAccepted(attempts);
    var a :| 0 <= a < |attempts| && attempts[a] == Attempt(sender, key) && Accepted(attempts, a);
    var b :| 0 <= b < |attempts| && attempts[b] == Attempt(sender, key') && Accepted(attempts, b);
    var first := FirstAttempt(attempts, sender, a, b);
    assert IsFirst(attempts, first);
  }

  lemma {:induction false} FirstAttempt(attempts: seq<Attempt>, sender: Uid, a: nat, b: nat) returns (first: nat)
    requires a < |attempts| && b < |attempts| && attempts[a].sender == sender && attempts[b].sender == sender
    ensures first <= a && first <= b && IsFirst(attempts, first) && attempts[first].sender == sender
    decreases a + b
  {
    if i :| 0 <= i < (if a < b then a else b) && attempts[i].sender == sender {
      first := FirstAttempt(attempts, sender, i, i);
    } else {
      first := if a < b then a else b;
    }
  }

  /**
   * A node acts at most once on the messages of a sender with a given nonce, whoever brings
   * them and by whatever route, provided it knew the same key of that sender, or none, both
   * times, has pinned at most 4096 senders and admitted fewer than 4096 keys.
   */
  lemma MessageOnce(uids: set<Uid>, steps: seq<NetStep>, net: Net, u: Uid, i: nat, j: nat)
    requires NetReaches(uids, steps, net) && u in net.nodes && i < j < |net.nodes[u].handled|
    requires |KeysOf(AdmittedOf(net.nodes[u].checks))| < MAX_RELAY_TRACKED && |SendersOf(net.nodes[u].attempts)| <= MAX_RELAY_PINS
    requires var a, b := net.nodes[u].handled[i], net.nodes[u].handled[j];
             a.packet.from == b.packet.from && EntryOf(a.seen.known, a.packet.from) == EntryOf(b.seen.known, a.packet.from)
    ensures net.nodes[u].handled[i].packet.nonce < net.nodes[u].handled[j].packet.nonce
  {
    NetKeeps(uids, steps, net);
    var n := net.nodes[u];
    assert NodeRecord(u, n);
    var a, b := n.handled[i], n.handled[j];
    assert HandledOk(u, n.attempts, a) && HandledOk(u, n.attempts, b);
    if a.packet.from !in a.seen.known {
      PassedOnce(n.attempts, a.packet.from, a.packet.originKey, b.packet.originKey);
    }
    NoncesIncrease(n.checks, i, j);
  }

  /** A message that is in time and verifies under the key it counts against. */
  ghost predicate Presentable(e: Surroundings, p: Packet) {
    e.verify(KeyFor(e.known, p), SignedPart(p), p.signature) && AbsDiff(e.now, p.timestamp) <= RELAY_MAX_AGE_SECS
  }

  lemma FirstArrival(me: Uid, e: Surroundings, p: Packet, n: RelayState)
    requires Presentable(e, p) && n == HandledBy(me, NewRelay, e, p).0
    ensures |n.handled| == 1 && n.handled[0].packet == p
    ensures n.verifier.lastNonce == map[KeyFor(e.known, p) := p.nonce] && n.verifier.rate.Keys == {KeyFor(e.known, p)}
    ensures n.verifier.pins == if p.from in e.known then map[] else map[p.from := p.originKey]
  {
  }

  lemma SecondArrival(me: Uid, e: Surroundings, e': Surroundings, p: Packet, n: RelayState, n': RelayState)
    requires Presentable(e, p) && Presentable(e', p) && n == HandledBy(me, NewRelay, e, p).0 && n' == HandledBy(me, n, e', p).0
    ensures if KeyFor(e.known, p) == KeyFor(e'.known, p) then n'.handled == n.handled
            else |n'.handled| == 2 && n'.handled[0].packet == n'.handled[1].packet == p
  {
    FirstArrival(me, e, p, n);
    var (v1, key) := Authenticated(n.verifier, e', p);
    assert key == Some(KeyFor(e'.known, p));
    var q := Request(key.value, p.nonce, p.timestamp, e'.now);
    assert v1.lastNonce == n.verifier.lastNonce && v1.rate == n.verifier.rate;
    if KeyFor(e.known, p) != KeyFor(e'.known, p) {
      assert |v1.rate.Keys| == 1;
      assert Checked(v1, q).1 == Admitted;
    }
  }

  /** One copy, delivered twice to a node that starts from nothing. */
  function DoubleArrival(u: Uid, p: Packet, e: Surroundings, e': Surroundings): seq<NetStep> {
    [Inject(u, p), Arrive(Flight(u, p, 0), e), Arrive(Flight(u, p, 0), e')]
  }

  /**
   * The very same packet is acted on twice if and only if it counts against different keys
   * the two times, as when the sender's key becomes known under another spelling in between.
   */
  lemma PacketTwiceIff(uids: set<Uid>, u: Uid, p: Packet, e: Surroundings, e': Surroundings, net: Net)
    requires u in uids && Presentable(e, p) && Presentable(e', p) && NetReaches(uids, DoubleArrival(u, p, e, e'), net)
    ensures u in net.nodes
    ensures (exists i, j :: 0 <= i < j < |net.nodes[u].handled| && net.nodes[u].handled[i].packet == net.nodes[u].handled[j].packet)
       <==> KeyFor(e.known, p) != KeyFor(e'.known, p)
  {
    DoubleRun(uids, u, p, e, e', net);
    var n := HandledBy(u, NewRelay, e, p).0;
    FirstArrival(u, e, p, n);
    SecondArrival(u, e, e', p, n, HandledBy(u, n, e', p).0);
    if KeyFor(e.known, p) != KeyFor(e'.known, p) {
      assert net.nodes[u].handled[0].packet == net.nodes[u].handled[1].packet;
    }
  }

  lemma DoubleRun(uids: set<Uid>, u: Uid, p: Packet, e: Surroundings, e': Surroundings, net: Net)
    requires u in uids && NetReaches(uids, DoubleArrival(u, p, e, e'), net)
    ensures u in net.nodes && net.nodes[u] == HandledBy(u, HandledBy(u, NewRelay, e, p).0, e', p).0
  {
    var steps := DoubleArrival(u, p, e, e');
    var net2 := LastStep(uids, steps, net);
    assert steps[..2] == [steps[0], steps[1]];
    var net1 := LastStep(uids, steps[..2], net2);
    assert steps[..2][..1] == [steps[0]];
    var net0 := LastStep(uids, [steps[0]], net1);
    assert [steps[0]][..0] == [];
  }

  lemma DoubleArrivalHappens(uids: set<Uid>, u: Uid, p: Packet, e: Surroundings, e': Surroundings) returns (net: Net)
    requires u in uids
    ensures NetReaches(uids, DoubleArrival(u, p, e, e'), net)
  {
    var steps := DoubleArrival(u, p, e, e');
    var net0 := EmptyNet(uids);
    assert NetReaches(uids, [], net0);
    var net1 := NetAfter(net0, steps[0]);
    NextStep(uids, [], net0, steps[0], net1);
    var net2 := NetAfter(net1, steps[1]);
    NextStep(uids, [] + [steps[0]], net1, steps[1], net2);
    net := NetAfter(net2, steps[2]);
    NextStep(uids, [] + [steps[0]] + [steps[1]], net2, steps[2], net);
    assert steps == [] + [steps[0]] + [steps[1]] + [steps[2]];
  }

  lemma NextStep(uids: set<Uid>, steps: seq<NetStep>, before: Net, st: NetStep, net: Net)
    requires NetReaches(uids, steps, before) && StepEnabled(before, st) && net == NetAfter(before, st)
    ensures NetReaches(uids, steps + [st], net)
  {
    assert (steps + [st])[..|steps|] == steps;
  }

  lemma LastStep(uids: set<Uid>, steps: seq<NetStep>, net: Net) returns (before: Net)
    requires steps != [] && NetReaches(uids, steps, net)
    ensures NetReaches(uids, steps[..|steps| - 1], before) && StepEnabled(before, steps[|steps| - 1])
    ensures net == NetAfter(before, steps[|steps| - 1])
  {
    var k := |steps| - 1;
    before :| NetReaches(uids, steps[..k], before) && StepEnabled(before, steps[k]) && net == NetAfter(before, steps[k]);
  }
}
