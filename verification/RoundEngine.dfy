/** The leader-collect variant: participants send their shares to one leader, who publishes the frame. */
module RoundEngine {
  import opened ByteStrings
  import opened XorSum
  import opened DcNet
  import opened RoundNetwork
  import opened Cancellation
  import opened MeshDriver

  const LEADER_DEADLINE_SECS := 30

  datatype Engine = Engine(current: nat, queue: seq<Bytes>, collectors: map<nat, Collector>, me: Uid, leader: Option<Uid>)

  datatype RoundEvent = Extraction(round: nat, text: Bytes) | Receipt(round: nat, text: Bytes)

  /** The published frame of a finished round. */
  datatype RoundResult = RoundResult(round: nat, frame: Bytes)

  type Results = set<(Uid, RoundResult)>

  function Dequeue(queue: seq<Bytes>): (Option<Bytes>, seq<Bytes>) {
    if queue == [] then (None, []) else (Some(queue[0]), queue[1..])
  }

  /** What is shown of the recovered bytes. */
  function Shown(c: Crypto, bytes: Bytes): (r: Bytes)
    ensures c.utf8(bytes) ==> r == bytes
    ensures !c.utf8(bytes) ==> r == Ascii("(binary data)")
  {
    if c.utf8(bytes) then bytes else Ascii("(binary data)")
  }

  // ---- Reference transitions ----

  /** The leader opens a round; its own share goes straight into the collector. */
  function LeaderStart(c: Crypto, keys: EdgeKeys, e: Engine, participants: seq<Uid>, now: nat): (Engine, Outbox) {
    var round := e.current + 1;
    var col := NewCollector(round, participants, LEADER_DEADLINE_SECS, DEFAULT_PAYLOAD_LEN, now);
    var (message, queue) := Dequeue(e.queue);
    var share := ComputeShare(c, round, e.me, participants, message, DEFAULT_PAYLOAD_LEN, keys);
    var own := if share.Some? then Submit(col, e.me, share.value) else None;
    (e.(current := round, queue := queue, collectors := e.collectors[round := if own.Some? then own.value else col]),
     ToAll(participants, Start(round, e.me, participants, LEADER_DEADLINE_SECS, DEFAULT_PAYLOAD_LEN)))
  }

  /** One copy for everybody listed, the leader included. */
  function ToAll(participants: seq<Uid>, m: Message): (out: Outbox)
    ensures forall e :: e in out <==> e.0 in participants && e.1 == m
  {
    set u | u in participants :: (u, m)
  }

  /** A participant answers a start with its share, addressed to the leader. */
  function Answer(c: Crypto, keys: EdgeKeys, e: Engine, m: Message): (Engine, Outbox)
    requires m.Start?
  {
    if m.round != e.current + 1 then (e, {})
    else
      var (message, queue) := Dequeue(e.queue);
      var e1 := e.(current := m.round, queue := queue, leader := Some(m.leader));
      match ComputeShare(c, m.round, e.me, m.participants, message, m.payloadLen, keys)
      case None => (e1, {})
      case Some(share) => (e1, {(m.leader, Share(m.round, e.me, share))})
  }

  /** The leader takes a share; a complete or expired round is extracted and published. */
  ghost function Collect(c: Crypto, e: Engine, m: Message, accepted: bool, now: nat): (Engine, Option<RoundEvent>, Results)
    requires m.Share?
  {
    if !accepted || m.round !in e.collectors then (e, None, {})
    else
      match Submit(e.collectors[m.round], m.peer, m.payload)
      case None => (e, None, {})
      case Some(col) =>
        var stored := e.(collectors := e.collectors[m.round := col]);
        if !col.IsComplete() && !col.IsExpired(now) then (stored, None, {})
        else
          match Extracted(col)
          case None => (stored, None, {})
          case Some(frame) =>
            var closed := e.(collectors := e.collectors - {m.round});
            match Unpad(c, frame)
            case None => (closed, None, {})
            case Some(bytes) =>
              (closed, Some(Extraction(m.round, Shown(c, bytes))),
               set u | u in col.participants :: (u, RoundResult(m.round, frame)))
  }

  function Publish(c: Crypto, e: Engine, m: RoundResult): (Engine, Option<RoundEvent>) {
    match Unpad(c, m.frame)
    case None => (e, None)
    case Some(bytes) =>
      (if m.round == e.current + 1 then e.(current := m.round) else e, Some(Receipt(m.round, Shown(c, bytes))))
  }

  class RoundEngine {
    var currentRound: nat
    var messageQueue: seq<Bytes>
    var collectors: map<nat, Collector>
    const myUid: Uid
    var leaderUid: Option<Uid>

    function View(): Engine
      reads this
    {
      Engine(currentRound, messageQueue, collectors, myUid, leaderUid)
    }

    constructor (uid: Uid)
      ensures View() == Engine(0, [], map[], uid, None)
    {
      currentRound, messageQueue, collectors, myUid, leaderUid := 0, [], map[], uid, None;
    }

    method QueueMessage(text: Bytes)
      modifies this
      ensures View() == old(View()).(queue := old(messageQueue) + [text])
    {
      messageQueue := messageQueue + [text];
    }

    method TakeMessage() returns (message: Option<Bytes>)
      modifies this`messageQueue
      ensures (message, messageQueue) == Dequeue(old(messageQueue))
      ensures if old(messageQueue) == [] then message == None && messageQueue == []
              else message.Some? && [message.value] + messageQueue == old(messageQueue)
    {
      if messageQueue == [] {
        return None;
      }
      message := Some(messageQueue[0]);
      messageQueue := messageQueue[1..];
    }

    method StartRoundAsLeader(c: Crypto, keys: EdgeKeys, participants: seq<Uid>, now: nat) returns (out: Outbox)
      modifies this
      ensures (View(), out) == LeaderStart(c, keys, old(View()), participants, now)
      ensures messageQueue == if old(messageQueue) == [] then [] else old(messageQueue)[1..]
      ensures currentRound == old(currentRound) + 1 && leaderUid == old(leaderUid) && currentRound in collectors
      ensures collectors - {currentRound} == old(collectors) - {currentRound}
    {
      currentRound := currentRound + 1;
      var col := NewCollector(currentRound, participants, LEADER_DEADLINE_SECS, DEFAULT_PAYLOAD_LEN, now);
      var message := TakeMessage();
      var share := ComputeXorShareSecure(c, currentRound, myUid, participants, message, DEFAULT_PAYLOAD_LEN, keys);
      if share.Some? {
        var own := Submit(col, myUid, share.value);
        if own.Some? {
          col := own.value;
        }
      }
      collectors := collectors[currentRound := col];
      out := ToAll(participants, Start(currentRound, myUid, participants, LEADER_DEADLINE_SECS, DEFAULT_PAYLOAD_LEN));
    }

    method HandleRoundStart(c: Crypto, keys: EdgeKeys, m: Message) returns (out: Outbox)
      requires m.Start?
      modifies this
      ensures (View(), out) == Answer(c, keys, old(View()), m)
      ensures m.round != old(currentRound) + 1 ==> View() == old(View()) && out == {}
      ensures m.round == old(currentRound) + 1 ==> currentRound == m.round && leaderUid == Some(m.leader) && collectors == old(collectors)
      ensures messageQueue == if m.round != old(currentRound) + 1 || old(messageQueue) == [] then old(messageQueue) else old(messageQueue)[1..]
    {
      if m.round != currentRound + 1 {
        return {};
      }
      currentRound := m.round;
      leaderUid := Some(m.leader);
      var message := TakeMessage();
      var share := ComputeXorShareSecure(c, m.round, myUid, m.participants, message, m.payloadLen, keys);
      if share.None? {
        return {};
      }
      out := {(m.leader, Share(m.round, myUid, share.value))};
    }

    method HandleRoundShare(c: Crypto, auth: Authenticator, m: Message, signature: Bytes, now: nat)
      returns (event: Option<RoundEvent>, out: Results)
      requires m.Share?
      modifies this
      ensures (View(), event, out) == Collect(c, old(View()), m, auth.Accepts(m.round, m.peer, m.payload, signature), now)
      ensures m.peer in auth.known && auth.parses(auth.known[m.peer])
              && !auth.verify(auth.known[m.peer], ShareSignatureMessage(auth.channel, m.round, m.payload), signature) ==>
                View() == old(View()) && event == None && out == {}
      ensures m.peer !in auth.known || !auth.parses(auth.known[m.peer])
              || auth.verify(auth.known[m.peer], ShareSignatureMessage(auth.channel, m.round, m.payload), signature) ==>
                (View(), event, out) == Collect(c, old(View()), m, true, now)
    {
      event, out := None, {};
      if !auth.Accepts(m.round, m.peer, m.payload, signature) || m.round !in collectors {
        return;
      }
      var col := Submit(collectors[m.round], m.peer, m.payload);
      if col.None? {
        return;
      }
      if !col.value.IsComplete() && !col.value.IsExpired(now) {
        collectors := collectors[m.round := col.value];
        return;
      }
      var frame := ExtractMessage(col.value);
      if frame.None? {
        collectors := collectors[m.round := col.value];
        return;
      }
      collectors := collectors - {m.round};
      var bytes := Unpad(c, frame.value);
      if bytes.None? {
        return;
      }
      event := Some(Extraction(m.round, Shown(c, bytes.value)));
      out := set u | u in col.value.participants :: (u, RoundResult(m.round, frame.value));
    }

    method HandleRoundResult(c: Crypto, m: RoundResult) returns (event: Option<RoundEvent>)
      modifies this
      ensures (View(), event) == Publish(c, old(View()), m)
      ensures event.Some? <==> Unpad(c, m.frame).Some?
      ensures currentRound == old(currentRound) + if event.Some? && m.round == old(currentRound) + 1 then 1 else 0
      ensures messageQueue == old(messageQueue) && collectors == old(collectors) && leaderUid == old(leaderUid)
    {
      var bytes := Unpad(c, m.frame);
      if bytes.None? {
        return None;
      }
      if m.round == currentRound + 1 {
        currentRound := m.round;
      }
      event := Some(Receipt(m.round, Shown(c, bytes.value)));
    }
  }

  // ---- One round, end to end ----

  /** A group, its leader, the one member with something to say, the round's number and everybody's share. */
  datatype Setting = Setting(
    crypto: Crypto,
    parties: set<Uid>,
    leader: Uid,
    sender: Uid,
    text: Bytes,
    round: nat,
    shares: map<Uid, Bytes>)
  {
    ghost predicate Wellformed() {
      && leader in parties && parties != {leader} && crypto.utf8(text)
      && shares.Keys == parties && AllOfLength(shares, DEFAULT_PAYLOAD_LEN)
    }

    /** The shares are those that the members compute, listing the group as `list`. */
    ghost predicate Computed(list: seq<Uid>, edges: map<Uid, EdgeKeys>) {
      && Enumerates(list, parties) && SharedEdges(edges, parties)
      && sender in parties && FRAME_HEADER + |text| <= DEFAULT_PAYLOAD_LEN
      && forall u :: u in shares ==> u in edges && Some(shares[u]) == ComputeShare(crypto, round, u, list, Message(u), DEFAULT_PAYLOAD_LEN, edges[u])
    }

    function Message(u: Uid): Option<Bytes> {
      if u == sender then Some(text) else None
    }

    /** A member about to take part: it has the text queued, or nothing. */
    predicate Ready(u: Uid, e: Engine) {
      && e.me == u && e.current + 1 == round
      && (if u == sender then e.queue != [] && e.queue[0] == text else e.queue == [])
    }
  }

  /** Any group of two or more with pairwise keys gives such a setting. */
  lemma SettingExists(c: Crypto, parties: set<Uid>, list: seq<Uid>, edges: map<Uid, EdgeKeys>, leader: Uid, sender: Uid, text: Bytes, round: nat)
    returns (s: Setting)
    requires Enumerates(list, parties) && |list| >= 2 && SharedEdges(edges, parties) && leader in parties && sender in parties
    requires c.utf8(text) && FRAME_HEADER + |text| <= DEFAULT_PAYLOAD_LEN
    ensures s.Wellformed() && s.Computed(list, edges)
    ensures s.crypto == c && s.parties == parties && s.leader == leader && s.sender == sender && s.text == text && s.round == round
  {
    var blank := Setting(c, parties, leader, sender, text, round, map[]);
    var payloads := map u | u in parties :: PayloadOf(blank, list, edges[u], u);
    s := blank.(shares := payloads);
    EnumerationSize(list, parties);
    forall u | u in parties ensures Some(payloads[u]) == ComputeShare(c, round, u, list, s.Message(u), DEFAULT_PAYLOAD_LEN, edges[u]) {
      assert CanShare(u, list, edges[u]);
    }
  }

  ghost function PayloadOf(s: Setting, list: seq<Uid>, keys: EdgeKeys, u: Uid): Bytes {
    var share := ComputeShare(s.crypto, s.round, u, list, s.Message(u), DEFAULT_PAYLOAD_LEN, keys);
    if share.Some? then share.value else []
  }

  /** The leader's collector once the shares of `arrived` are in. */
  ghost predicate Holding(s: Setting, col: Collector, arrived: set<Uid>, deadline: nat) {
    && col.round == s.round && col.participants == s.parties && col.payloadLen == DEFAULT_PAYLOAD_LEN && col.deadline == deadline
    && col.shares.Keys == arrived + {s.leader}
    && forall u :: u in col.shares && u in s.shares ==> col.shares[u] == s.shares[u]
  }

  /** A collector that holds everybody's share yields a frame that decodes to the text. */
  ghost predicate Decodes(s: Setting) {
    forall col, arrived, deadline :: Holding(s, col, arrived, deadline) && arrived + {s.leader} == s.parties ==> DecodesTo(s.crypto, col, s.text)
  }

  ghost predicate DecodesTo(c: Crypto, col: Collector, text: Bytes) {
    Extracted(col).Some? && Unpad(c, Extracted(col).value) == Some(text)
  }

  lemma ComputedDecodes(s: Setting, list: seq<Uid>, edges: map<Uid, EdgeKeys>)
    requires s.Wellformed() && s.Computed(list, edges)
    ensures Decodes(s)
  {
    forall col, arrived, deadline | Holding(s, col, arrived, deadline) && arrived + {s.leader} == s.parties
      ensures DecodesTo(s.crypto, col, s.text)
    {
      CompleteIsEveryone(col);
      var lists := map u | u in s.parties :: list;
      CompleteRoundExtracts(s.crypto, col, edges, lists, s.sender, s.text);
    }
  }

  lemma LeaderHolds(s: Setting, list: seq<Uid>, edges: map<Uid, EdgeKeys>, e: Engine, now: nat, e': Engine, out: Outbox)
    requires s.Wellformed() && s.Computed(list, edges) && s.Ready(s.leader, e)
    requires (e', out) == LeaderStart(s.crypto, edges[s.leader], e, list, now)
    ensures s.round in e'.collectors && Holding(s, e'.collectors[s.round], {}, now + LEADER_DEADLINE_SECS)
  {
    var col := NewCollector(s.round, list, LEADER_DEADLINE_SECS, DEFAULT_PAYLOAD_LEN, now);
    assert col.participants == s.parties;
    assert s.leader in s.shares && Dequeue(e.queue).0 == s.Message(s.leader);
    assert e'.collectors[s.round] == Submit(col, s.leader, s.shares[s.leader]).value;
  }

  lemma LeaderInvites(c: Crypto, keys: EdgeKeys, e: Engine, list: seq<Uid>, now: nat, e': Engine, out: Outbox)
    requires (e', out) == LeaderStart(c, keys, e, list, now)
    ensures e'.current == e.current + 1
    ensures out == ToAll(list, Start(e'.current, e.me, list, LEADER_DEADLINE_SECS, DEFAULT_PAYLOAD_LEN))
  {
  }

  /** The start that the leader also sends to itself is refused. */
  lemma LeaderIgnoresOwnStart(c: Crypto, keys: EdgeKeys, e: Engine, list: seq<Uid>, now: nat, e': Engine, out: Outbox, m: Message)
    requires (e', out) == LeaderStart(c, keys, e, list, now) && (e.me, m) in out
    ensures m.Start? && Answer(c, keys, e', m) == (e', {})
  {
  }

  /** Every other member answers the start with its share, to the leader alone. */
  lemma FollowerAnswers(s: Setting, list: seq<Uid>, edges: map<Uid, EdgeKeys>, u: Uid, e: Engine)
    requires s.Wellformed() && s.Computed(list, edges) && u in s.parties && s.Ready(u, e)
    ensures Answer(s.crypto, edges[u], e, Start(s.round, s.leader, list, LEADER_DEADLINE_SECS, DEFAULT_PAYLOAD_LEN)).1 ==
            {(s.leader, Share(s.round, u, s.shares[u]))}
  {
  }

  /** The head of the queue is what a follower's share carries. */
  lemma HeadCarried(c: Crypto, keys: EdgeKeys, e: Engine, m: Message, share: Bytes)
    requires m.Start? && (m.leader, Share(m.round, e.me, share)) in Answer(c, keys, e, m).1
    ensures Some(share) == ComputeShare(c, m.round, e.me, m.participants, if e.queue == [] then None else Some(e.queue[0]), m.payloadLen, keys)
  {
  }

  // ---- The queue over whole runs ----

  /** What is done with an engine that concerns its queue. */
  datatype QueueCall =
    | Queues(text: Bytes)
    | Leads(keys: EdgeKeys, list: seq<Uid>, now: nat)
    | Follows(keys: EdgeKeys, m: Message)

  function AfterCall(c: Crypto, e: Engine, call: QueueCall): Engine {
    match call
    case Queues(text) => e.(queue := e.queue + [text])
    case Leads(keys, list, now) => LeaderStart(c, keys, e, list, now).0
    case Follows(keys, m) => if m.Start? then Answer(c, keys, e, m).0 else e
  }

  function AfterCalls(c: Crypto, e: Engine, calls: seq<QueueCall>): Engine {
    if calls == [] then e else AfterCall(c, AfterCalls(c, e, calls[..|calls| - 1]), calls[|calls| - 1])
  }

  /** The call opens a round or joins one. */
  predicate TakesPart(e: Engine, call: QueueCall) {
    call.Leads? || (call.Follows? && call.m.Start? && call.m.round == e.current + 1)
  }

  function Queued(call: QueueCall): seq<Bytes> {
    if call.Queues? then [call.text] else []
  }

  /** The text that a call puts into a round. */
  function Spent(e: Engine, call: QueueCall): seq<Bytes> {
    if TakesPart(e, call) && e.queue != [] then [e.queue[0]] else []
  }

  /** One call takes from the front what it puts into a round, and adds at the back what is queued. */
  lemma CallConserves(c: Crypto, e: Engine, call: QueueCall)
    ensures e.queue + Queued(call) == Spent(e, call) + AfterCall(c, e, call).queue
  {
    match call
    case Queues(_) =>
    case Leads(keys, list, now) => assert LeaderStart(c, keys, e, list, now).0.queue == Dequeue(e.queue).1;
    case Follows(keys, m) =>
      if TakesPart(e, call) {
        assert Answer(c, keys, e, m).0.queue == Dequeue(e.queue).1;
      }
  }

  function QueuedIn(calls: seq<QueueCall>): seq<Bytes> {
    if calls == [] then [] else QueuedIn(calls[..|calls| - 1]) + Queued(calls[|calls| - 1])
  }

  /** The texts that went into rounds, in order. */
  function SpentIn(c: Crypto, e: Engine, calls: seq<QueueCall>): seq<Bytes> {
    if calls == [] then []
    else SpentIn(c, e, calls[..|calls| - 1]) + Spent(AfterCalls(c, e, calls[..|calls| - 1]), calls[|calls| - 1])
  }

  lemma Regroup(first: seq<Bytes>, queued: seq<Bytes>, spent: seq<Bytes>, left: seq<Bytes>, q: seq<Bytes>, p: seq<Bytes>, left': seq<Bytes>)
    requires first + queued == spent + left && left + q == p + left'
    ensures first + (queued + q) == spent + p + left'
  {
    assert first + (queued + q) == first + queued + q;
    assert spent + left + q == spent + (left + q);
    assert spent + (p + left') == spent + p + left';
  }

  /**
   * Over any run of calls, first in is first out: the texts queued are those that went into
   * rounds, each into one, followed by those still waiting.
   */
  lemma {:induction false} QueueConserved(c: Crypto, e: Engine, calls: seq<QueueCall>)
    ensures e.queue + QueuedIn(calls) == SpentIn(c, e, calls) + AfterCalls(c, e, calls).queue
    decreases |calls|
  {
    if calls != [] {
      var k := |calls| - 1;
      var before := AfterCalls(c, e, calls[..k]);
      QueueConserved(c, e, calls[..k]);
      CallConserves(c, before, calls[k]);
      Regroup(e.queue, QueuedIn(calls[..k]), SpentIn(c, e, calls[..k]), before.queue, Queued(calls[k]), Spent(before, calls[k]),
              AfterCalls(c, e, calls).queue);
    }
  }

  /**
   * The last share, or any share at or after the deadline whoever is still missing, closes the
   * round: with an extraction and its results if what is there decodes, with nothing otherwise.
   */
  lemma LastShareCloses(c: Crypto, e: Engine, m: Message, now: nat, col: Collector, e': Engine, event: Option<RoundEvent>, out: Results)
    requires m.Share? && m.round in e.collectors && Submit(e.collectors[m.round], m.peer, m.payload) == Some(col)
    requires col.deadline <= now || col.Missing() == {}
    requires (e', event, out) == Collect(c, e, m, true, now)
    ensures e' == e.(collectors := e.collectors - {m.round})
    ensures event.Some? <==> Unpad(c, XorAll(col.shares, col.payloadLen)).Some?
    ensures event.Some? ==> event == Some(Extraction(m.round, Shown(c, Unpad(c, XorAll(col.shares, col.payloadLen)).value)))
    ensures out == if event.None? then {} else set u | u in col.participants :: (u, RoundResult(m.round, XorAll(col.shares, col.payloadLen)))
  {
    assert m.peer in col.shares && m.peer in e.collectors[m.round].participants;
    CompleteIsEveryone(col);
    assert Extracted(col) == Some(XorAll(col.shares, col.payloadLen));
    assert col.IsComplete() || col.IsExpired(now);
  }

  /** Before the deadline an incomplete round only grows. */
  lemma EarlyShareStored(c: Crypto, e: Engine, m: Message, now: nat, col: Collector)
    requires m.Share? && m.round in e.collectors && Submit(e.collectors[m.round], m.peer, m.payload) == Some(col)
    requires now < col.deadline && col.Missing() != {}
    ensures Collect(c, e, m, true, now) == (e.(collectors := e.collectors[m.round := col]), None, {})
  {
    CompleteIsEveryone(col);
  }

  /** A message arrives at the leader at time `now`. */
  datatype Arrival = Arrival(m: Message, now: nat)

  /** It is the share of another member. */
  ghost predicate OfMember(s: Setting, a: Arrival) {
    && a.m.Share? && a.m.round == s.round && a.m.peer != s.leader
    && a.m.peer in s.shares && a.m.payload == s.shares[a.m.peer]
  }

  ghost predicate Timely(s: Setting, a: Arrival, deadline: nat) {
    OfMember(s, a) && a.now < deadline
  }

  ghost function Peers(arrivals: seq<Arrival>): set<Uid> {
    set i | 0 <= i < |arrivals| && arrivals[i].m.Share? :: arrivals[i].m.peer
  }

  ghost function Taken(c: Crypto, e: Engine, a: Arrival): (Engine, Option<RoundEvent>, Results) {
    if a.m.Share? then Collect(c, e, a.m, true, a.now) else (e, None, {})
  }

  /** The leader's state, extractions and published results after a sequence of arrivals. */
  ghost function Arrive(c: Crypto, e: Engine, arrivals: seq<Arrival>): (Engine, seq<RoundEvent>, Results) {
    if arrivals == [] then (e, [], {})
    else
      var k := |arrivals| - 1;
      var (e1, events, results) := Arrive(c, e, arrivals[..k]);
      var (e2, event, more) := Taken(c, e1, arrivals[k]);
      (e2, events + Events(event), results + more)
  }

  /** The results reach every participant and all decode to the text. */
  ghost predicate Published(s: Setting, results: Results) {
    && (forall r :: r in results ==> r.1.round == s.round && Unpad(s.crypto, r.1.frame) == Some(s.text))
    && (forall u :: u in s.parties ==> exists frame :: (u, RoundResult(s.round, frame)) in results)
  }

  /** Where the leader stands after the shares of `arrived` have come in. */
  ghost predicate Standing(s: Setting, e: Engine, arrived: set<Uid>, deadline: nat, events: seq<RoundEvent>, results: Results) {
    if arrived + {s.leader} == s.parties then
      s.round !in e.collectors && events == [Extraction(s.round, s.text)] && Published(s, results)
    else s.round in e.collectors && Holding(s, e.collectors[s.round], arrived, deadline) && events == [] && results == {}
  }

  ghost function Events(event: Option<RoundEvent>): seq<RoundEvent> {
    if event.Some? then [event.value] else []
  }

  /** What one arrival does: nothing, or it takes the leader to its next standing. */
  ghost predicate Outcome(s: Setting, e: Engine, arrived: set<Uid>, deadline: nat, peer: Uid, e': Engine, event: Option<RoundEvent>, more: Results) {
    if arrived + {s.leader} == s.parties || peer in arrived then e' == e && event == None && more == {}
    else Standing(s, e', arrived + {peer}, deadline, Events(event), more)
  }

  lemma ArrivalOutcome(s: Setting, e: Engine, arrived: set<Uid>, deadline: nat, events: seq<RoundEvent>, results: Results, a: Arrival,
                       e': Engine, event: Option<RoundEvent>, more: Results)
    requires s.Wellformed() && Decodes(s) && Standing(s, e, arrived, deadline, events, results) && Timely(s, a, deadline)
    requires (e', event, more) == Taken(s.crypto, e, a)
    ensures Outcome(s, e, arrived, deadline, a.m.peer, e', event, more)
  {
    if arrived + {s.leader} == s.parties || a.m.peer in arrived {
      Repeated(s, e, arrived, deadline, events, results, a, e', event, more);
    } else {
      NewShare(s, e, arrived, deadline, a, e', event, more);
    }
  }

  lemma StandingStep(s: Setting, e: Engine, arrived: set<Uid>, deadline: nat, events: seq<RoundEvent>, results: Results, peer: Uid,
                     e': Engine, event: Option<RoundEvent>, more: Results)
    requires Standing(s, e, arrived, deadline, events, results) && Outcome(s, e, arrived, deadline, peer, e', event, more)
    requires peer in s.parties && arrived <= s.parties
    ensures Standing(s, e', arrived + {peer}, deadline, events + Events(event), results + more)
  {
    assert results + {} == results && events + [] == events && [] + Events(event) == Events(event) && {} + more == more;
    if arrived + {s.leader} == s.parties {
      assert arrived + {peer} + {s.leader} == s.parties;
    } else if peer in arrived {
      assert arrived + {peer} == arrived;
    }
  }

  /** A share that is already in, or comes after the round is closed, changes nothing. */
  lemma Repeated(s: Setting, e: Engine, arrived: set<Uid>, deadline: nat, events: seq<RoundEvent>, results: Results, a: Arrival,
                 e': Engine, event: Option<RoundEvent>, more: Results)
    requires Standing(s, e, arrived, deadline, events, results) && OfMember(s, a)
    requires arrived + {s.leader} == s.parties || a.m.peer in arrived
    requires (e', event, more) == Taken(s.crypto, e, a)
    ensures (e', event, more) == (e, None, {})
  {
  }

  lemma NewShare(s: Setting, e: Engine, arrived: set<Uid>, deadline: nat, a: Arrival, e': Engine, event: Option<RoundEvent>, more: Results)
    requires s.Wellformed() && Decodes(s) && s.round in e.collectors && Holding(s, e.collectors[s.round], arrived, deadline)
    requires Timely(s, a, deadline) && a.m.peer !in arrived && (e', event, more) == Taken(s.crypto, e, a)
    ensures Standing(s, e', arrived + {a.m.peer}, deadline, Events(event), more)
  {
    var col := Submit(e.collectors[s.round], a.m.peer, s.shares[a.m.peer]).value;
    assert col.shares.Keys == arrived + {a.m.peer} + {s.leader};
    assert Holding(s, col, arrived + {a.m.peer}, deadline);
    CompleteIsEveryone(col);
    if arrived + {a.m.peer} + {s.leader} == s.parties {
      assert DecodesTo(s.crypto, col, s.text);
      Closes(s, e, a, col, e', event, more);
    }
  }

  lemma Closes(s: Setting, e: Engine, a: Arrival, col: Collector, e': Engine, event: Option<RoundEvent>, more: Results)
    requires OfMember(s, a) && s.round in e.collectors && s.crypto.utf8(s.text)
    requires Submit(e.collectors[s.round], a.m.peer, s.shares[a.m.peer]) == Some(col) && col.IsComplete() && col.participants == s.parties
    requires DecodesTo(s.crypto, col, s.text) && (e', event, more) == Taken(s.crypto, e, a)
    ensures s.round !in e'.collectors && event == Some(Extraction(s.round, s.text)) && Published(s, more)
  {
    forall u | u in s.parties ensures (u, RoundResult(s.round, Extracted(col).value)) in more {}
  }

  lemma ArrivalStep(s: Setting, e: Engine, arrived: set<Uid>, deadline: nat, events: seq<RoundEvent>, results: Results, a: Arrival,
                    e': Engine, event: Option<RoundEvent>, more: Results)
    requires s.Wellformed() && Decodes(s) && Standing(s, e, arrived, deadline, events, results) && Timely(s, a, deadline)
    requires arrived <= s.parties && (e', event, more) == Taken(s.crypto, e, a)
    ensures Standing(s, e', arrived + {a.m.peer}, deadline, events + Events(event), results + more)
  {
    ArrivalOutcome(s, e, arrived, deadline, events, results, a, e', event, more);
    StandingStep(s, e, arrived, deadline, events, results, a.m.peer, e', event, more);
  }

  lemma PeersGrow(s: Setting, arrivals: seq<Arrival>, k: nat, deadline: nat)
    requires k + 1 == |arrivals| && s.shares.Keys == s.parties && arrivals[k].m.Share?
    requires forall i :: 0 <= i < |arrivals| ==> Timely(s, arrivals[i], deadline)
    ensures Peers(arrivals) == Peers(arrivals[..k]) + {arrivals[k].m.peer} && Peers(arrivals[..k]) <= s.parties
    ensures forall i :: 0 <= i < k ==> Timely(s, arrivals[..k][i], deadline)
  {
    assert forall i :: 0 <= i < k ==> arrivals[..k][i] == arrivals[i];
  }

  lemma {:induction false} ArrivalsStand(s: Setting, e: Engine, deadline: nat, arrivals: seq<Arrival>, e': Engine, events: seq<RoundEvent>, results: Results)
    requires s.Wellformed() && Decodes(s) && Standing(s, e, {}, deadline, [], {})
    requires forall i :: 0 <= i < |arrivals| ==> Timely(s, arrivals[i], deadline)
    requires (e', events, results) == Arrive(s.crypto, e, arrivals)
    ensures Standing(s, e', Peers(arrivals), deadline, events, results)
    decreases |arrivals|
  {
    if arrivals == [] {
      assert Peers(arrivals) == {};
    } else {
      var k := |arrivals| - 1;
      var (e1, before, earlier) := Arrive(s.crypto, e, arrivals[..k]);
      var (e2, event, more) := Taken(s.crypto, e1, arrivals[k]);
      assert Timely(s, arrivals[k], deadline);
      PeersGrow(s, arrivals, k, deadline);
      ArrivalsStand(s, e, deadline, arrivals[..k], e1, before, earlier);
      ArrivalStep(s, e1, Peers(arrivals[..k]), deadline, before, earlier, arrivals[k], e2, event, more);
    }
  }

  lemma LeaderCollects(s: Setting, list: seq<Uid>, edges: map<Uid, EdgeKeys>, e: Engine, start: nat, e0: Engine, out: Outbox,
                       arrivals: seq<Arrival>, events: seq<RoundEvent>, results: Results)
    requires s.Wellformed() && s.Computed(list, edges) && s.Ready(s.leader, e)
    requires (e0, out) == LeaderStart(s.crypto, edges[s.leader], e, list, start)
    requires forall i :: 0 <= i < |arrivals| ==> Timely(s, arrivals[i], start + LEADER_DEADLINE_SECS)
    requires (events, results) == (Arrive(s.crypto, e0, arrivals).1, Arrive(s.crypto, e0, arrivals).2)
    ensures events == if Peers(arrivals) + {s.leader} == s.parties then [Extraction(s.round, s.text)] else []
    ensures if Peers(arrivals) + {s.leader} == s.parties then Published(s, results) else results == {}
  {
    LeaderHolds(s, list, edges, e, start, e0, out);
    ComputedDecodes(s, list, edges);
    assert Standing(s, e0, {}, start + LEADER_DEADLINE_SECS, [], {});
    ArrivalsStand(s, e0, start + LEADER_DEADLINE_SECS, arrivals, Arrive(s.crypto, e0, arrivals).0, events, results);
  }

  // ---- All engines of a group ----

  /** Two or more members with pairwise keys, each with its engine; only the sender has something queued. */
  datatype Team = Team(
    crypto: Crypto,
    list: seq<Uid>,
    parties: set<Uid>,
    edges: map<Uid, EdgeKeys>,
    engines: map<Uid, Engine>,
    leader: Uid,
    sender: Uid,
    text: Bytes)
  {
    ghost predicate Valid() {
      && Enumerates(list, parties) && |list| >= 2 && SharedEdges(edges, parties)
      && leader in parties && sender in parties && parties <= engines.Keys
      && crypto.utf8(text) && FRAME_HEADER + |text| <= DEFAULT_PAYLOAD_LEN
      && forall u :: u in parties ==> ReadyAt(u, engines[u], engines[leader].current)
    }

    predicate ReadyAt(u: Uid, e: Engine, current: nat) {
      && e.me == u && e.current == current
      && (if u == sender then e.queue != [] && e.queue[0] == text else e.queue == [])
    }
  }

  /** Some other member's engine sent this message to the leader in answer to a start. */
  ghost predicate IsAnswer(t: Team, starts: Outbox, m: Message)
    requires t.parties <= t.engines.Keys && t.parties <= t.edges.Keys
  {
    exists u, start :: u in t.parties && u != t.leader && (u, start) in starts && start.Start?
                       && (t.leader, m) in Answer(t.crypto, t.edges[u], t.engines[u], start).1
  }

  lemma AnswerIsShare(t: Team, s: Setting, starts: Outbox, m: Message)
    requires t.Valid() && s.Wellformed() && s.Computed(t.list, t.edges)
    requires s.crypto == t.crypto && s.parties == t.parties && s.leader == t.leader && s.sender == t.sender && s.text == t.text
    requires s.round == t.engines[t.leader].current + 1
    requires starts == ToAll(t.list, Start(s.round, s.leader, t.list, LEADER_DEADLINE_SECS, DEFAULT_PAYLOAD_LEN)) && IsAnswer(t, starts, m)
    ensures OfMember(s, Arrival(m, 0))
  {
    var u, start :| u in t.parties && u != t.leader && (u, start) in starts && start.Start?
                    && (t.leader, m) in Answer(t.crypto, t.edges[u], t.engines[u], start).1;
    assert t.ReadyAt(u, t.engines[u], t.engines[t.leader].current);
    FollowerAnswers(s, t.list, t.edges, u, t.engines[u]);
  }

  /**
   * A whole round: the leader's engine opens it, the other engines answer the start, and
   * their answers reach the leader before the deadline, in any order, possibly repeated,
   * possibly not all. The leader extracts the text exactly once if everybody's answer is
   * among them and nothing otherwise; then every member is sent a result, and whichever
   * engine handles a result shows the same text.
   */
  lemma LeaderCollect(t: Team, start: nat, e0: Engine, starts: Outbox, arrivals: seq<Arrival>, events: seq<RoundEvent>, results: Results)
    requires t.Valid() && (e0, starts) == LeaderStart(t.crypto, t.edges[t.leader], t.engines[t.leader], t.list, start)
    requires forall i :: 0 <= i < |arrivals| ==> IsAnswer(t, starts, arrivals[i].m) && arrivals[i].now < start + LEADER_DEADLINE_SECS
    requires (events, results) == (Arrive(t.crypto, e0, arrivals).1, Arrive(t.crypto, e0, arrivals).2)
    ensures events == if Peers(arrivals) + {t.leader} == t.parties then [Extraction(e0.current, t.text)] else []
    ensures Peers(arrivals) + {t.leader} == t.parties ==>
              forall u :: u in t.parties ==> exists frame :: (u, RoundResult(e0.current, frame)) in results
    ensures forall u, r, other :: (u, r) in results ==> Publish(t.crypto, other, r).1 == Some(Receipt(e0.current, t.text))
  {
    var s := SettingExists(t.crypto, t.parties, t.list, t.edges, t.leader, t.sender, t.text, e0.current);
    assert t.ReadyAt(t.leader, t.engines[t.leader], t.engines[t.leader].current);
    LeaderInvites(t.crypto, t.edges[t.leader], t.engines[t.leader], t.list, start, e0, starts);
    forall i | 0 <= i < |arrivals| ensures Timely(s, arrivals[i], start + LEADER_DEADLINE_SECS) {
      AnswerIsShare(t, s, starts, arrivals[i].m);
    }
    LeaderCollects(s, t.list, t.edges, t.engines[t.leader], start, e0, starts, arrivals, events, results);
  }
}
