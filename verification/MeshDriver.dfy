/** The mesh DC-Net round driver of one channel: one node's state machine. */
module MeshDriver {
  import opened ByteStrings
  import opened DcNet
  import opened RoundNetwork

  const CHANNEL_PAYLOAD_LEN := 4096
  const CHANNEL_ROUND_DEADLINE_SECS := 30
  const MAX_CONFLICT_RETRIES := 3

  datatype Message =
    | Start(round: nat, leader: Uid, participants: seq<Uid>, deadlineSecs: nat, payloadLen: nat)
    | Share(round: nat, peer: Uid, payload: Bytes)

  // (target, message) pairs handed to the connection manager.
  type Outbox = set<(Uid, Message)>

  datatype Action = Action(extracted: Option<(nat, Bytes)>, outgoing: Outbox)

  const NoAction := Action(None, {})

  /** Who we are, our edge keys, and the orders in which hash tables are iterated during the call. */
  datatype Context = Context(
    crypto: Crypto,
    me: Uid,
    keys: EdgeKeys,
    uidOrder: set<Uid> -> seq<Uid>,
    roundOrder: set<nat> -> seq<nat>)
  {
    ghost predicate Valid() {
      && (forall s :: Enumerates(uidOrder(s), s))
      && (forall s :: Enumerates(roundOrder(s), s))
    }
  }

  /** What a node has done so far; read by no handler. */
  datatype History = History(
    initiated: map<nat, Bytes>,          // round we initiated -> text
    carried: map<nat, Option<Bytes>>,    // round we sent a share for -> text inside it
    transmissions: multiset<nat>,        // one entry per share broadcast
    delivered: multiset<(nat, Bytes)>)   // texts extracted

  datatype Driver = Driver(
    current: nat,
    pendingMessage: Option<Bytes>,
    pendingRound: Option<nat>,
    retries: nat,
    collectors: map<nat, Collector>,
    emitted: set<nat>,
    myShare: Option<Bytes>,
    myShareBroadcast: bool,
    pendingOutgoing: Outbox,
    retryAfterPeer: Option<nat>,
    hist: History)

  const NewDriver := Driver(0, None, None, 0, map[], {}, None, false, {}, None,
                            History(map[], map[], multiset{}, multiset{}))

  function ToOthers(participants: set<Uid>, me: Uid, m: Message): (out: Outbox)
    ensures forall e :: e in out <==> e.1 == m && e.0 in participants && e.0 != me
  {
    set u | u in participants && u != me :: (u, m)
  }

  function Elements(s: seq<Uid>): (r: set<Uid>)
    ensures forall u :: u in r <==> u in s
  {
    set u | u in s
  }

  // ---- Reference transitions ----

  /** Our own round, once its message share is known. */
  function Begin(x: Context, d: Driver, text: Bytes, participants: seq<Uid>, share: Bytes, now: nat): (Driver, Outbox) {
    var round := d.current + 1;
    var col := NewCollector(round, participants, CHANNEL_ROUND_DEADLINE_SECS, CHANNEL_PAYLOAD_LEN, now);
    var start := Start(round, x.me, participants, CHANNEL_ROUND_DEADLINE_SECS, CHANNEL_PAYLOAD_LEN);
    (d.(current := round,
        collectors := d.collectors[round := col],
        pendingMessage := Some(text),
        pendingRound := Some(round),
        myShare := Some(share),
        myShareBroadcast := false,
        retries := 0,
        hist := d.hist.(initiated := d.hist.initiated[round := text])),
     ToOthers(Elements(participants), x.me, start))
  }

  function Initiate(x: Context, d: Driver, text: Bytes, participants: seq<Uid>, now: nat): (Driver, Option<Outbox>) {
    if |text| + FRAME_HEADER > CHANNEL_PAYLOAD_LEN || |participants| < 2 || x.me !in participants then (d, None)
    else
      match ComputeShare(x.crypto, d.current + 1, x.me, participants, Some(text), CHANNEL_PAYLOAD_LEN, x.keys)
      case None => (d.(current := d.current + 1), None)
      case Some(share) =>
        var (d1, out) := Begin(x, d, text, participants, share, now);
        (d1, Some(out))
  }

  /** Initiates and keeps the start messages for the next flush. */
  function QueuedInitiate(x: Context, d: Driver, text: Bytes, participants: seq<Uid>, now: nat): Driver {
    var (d1, out) := Initiate(x, d, text, participants, now);
    if out.Some? then d1.(pendingOutgoing := d1.pendingOutgoing + out.value) else d1
  }

  function RetryPending(x: Context, d: Driver, participants: set<Uid>, now: nat): Driver {
    if d.retries >= MAX_CONFLICT_RETRIES then d.(pendingMessage := None)
    else
      var d1 := d.(retries := d.retries + 1);
      match d.pendingMessage
      case None => d1
      case Some(text) => QueuedInitiate(x, d1, text, x.uidOrder(participants), now)
  }

  function ClearPending(d: Driver): Driver {
    d.(pendingRound := None, myShare := None, myShareBroadcast := false)
  }

  /** Forgets a round; a round of our own also gives up its pending slot. */
  function Discard(d: Driver, round: nat): Driver {
    var d1 := d.(collectors := d.collectors - {round});
    if d.pendingRound == Some(round) then ClearPending(d1) else d1
  }

  function AbortPending(d: Driver): Driver {
    match d.pendingRound
    case Some(round) => ClearPending(d.(collectors := d.collectors - {round}))
    case None => ClearPending(d)
  }

  function Expired(d: Driver, now: nat): set<nat> {
    set id | id in d.collectors && d.collectors[id].IsExpired(now)
  }

  function ExpireOne(x: Context, d: Driver, id: nat, now: nat): Driver {
    var participants := if id in d.collectors then d.collectors[id].participants else {};
    var d1 := Discard(d, id);
    if d.pendingRound == Some(id) && participants != {} then RetryPending(x, d1, participants, now) else d1
  }

  function ExpireAll(x: Context, d: Driver, ids: seq<nat>, now: nat): (r: Driver)
    decreases |ids|
  {
    if ids == [] then d else ExpireAll(x, ExpireOne(x, d, ids[0], now), ids[1..], now)
  }

  function DropExpired(x: Context, d: Driver, now: nat): Driver {
    ExpireAll(x, d, x.roundOrder(Expired(d, now)), now)
  }

  function Transmit(h: History, round: nat, text: Option<Bytes>): History {
    h.(carried := h.carried[round := text], transmissions := h.transmissions + multiset{round})
  }

  predicate LosesTie(x: Context, d: Driver, m: Message)
    requires m.Start?
  {
    d.pendingRound == Some(m.round) && m.leader != x.me && Less(m.leader, x.me)
  }

  /** Takes part in somebody else's round with a neutral share. */
  function Participate(x: Context, d: Driver, m: Message, share: Bytes, now: nat): (r: (Driver, Outbox))
    requires m.Start?
  {
    var col := NewCollector(m.round, m.participants, m.deadlineSecs, m.payloadLen, now);
    var own := Submit(col, x.me, share);
    (d.(collectors := d.collectors[m.round := if own.Some? then own.value else col],
        hist := Transmit(d.hist, m.round, None)),
     ToOthers(Elements(m.participants), x.me, Share(m.round, x.me, share)))
  }

  function OnRoundStart(x: Context, d: Driver, m: Message, now: nat): (r: (Driver, Action))
    requires m.Start?
  {
    var isNext := m.round == d.current + 1;
    if !isNext && !LosesTie(x, d, m) then (d, NoAction)
    else
      var d1 := if isNext then d.(current := m.round) else AbortPending(d).(retryAfterPeer := Some(m.round));
      if x.me !in m.participants then (d1, NoAction)
      else
        match ComputeShare(x.crypto, m.round, x.me, m.participants, None, m.payloadLen, x.keys)
        case None => (d1, NoAction)
        case Some(share) =>
          var (d2, out) := Participate(x, d1, m, share, now);
          (d2, Action(None, out))
  }

  /** The text inside a complete collector, if the frame and the encoding check out. */
  ghost function Decode(c: Crypto, col: Collector): Option<Bytes> {
    var payload := Extracted(col);
    if payload.None? then None
    else
      var text := Unpad(c, payload.value);
      if text.Some? && c.utf8(text.value) then text else None
  }

  /** Our message share goes out last, once everybody else's share has arrived. */
  predicate SendsShare(x: Context, d: Driver, round: nat, col: Collector) {
    d.pendingRound == Some(round) && !d.myShareBroadcast && col.Missing() == {x.me} && d.myShare.Some?
  }

  function InitiatedText(d: Driver, round: nat): Option<Bytes> {
    if round in d.hist.initiated then Some(d.hist.initiated[round]) else None
  }

  /** Stores an accepted share and, when it is time, broadcasts our own. */
  function AcceptShare(x: Context, d: Driver, round: nat, col: Collector): (r: (Driver, Outbox))
    ensures round in r.0.collectors
  {
    if !SendsShare(x, d, round, col) then (d.(collectors := d.collectors[round := col]), {})
    else
      var share := d.myShare.value;
      var own := Submit(col, x.me, share);
      (d.(collectors := d.collectors[round := if own.Some? then own.value else col],
          myShareBroadcast := true,
          hist := Transmit(d.hist, round, InitiatedText(d, round))),
       ToOthers(col.participants, x.me, Share(round, x.me, share)))
  }

  /** A complete round is forgotten, and its decoded text emitted once. */
  function Complete(d: Driver, round: nat, text: Option<Bytes>): (Driver, Option<(nat, Bytes)>) {
    var d1 := Discard(d, round);
    if text.Some? && round !in d.emitted then
      (d1.(emitted := d1.emitted + {round},
           pendingMessage := if d.pendingRound == Some(round) then None else d1.pendingMessage,
           hist := d1.hist.(delivered := d1.hist.delivered + multiset{(round, text.value)})),
       Some((round, text.value)))
    else (d1, None)
  }

  /** Retries that a completed round triggers. */
  function Settle(x: Context, d: Driver, round: nat, failed: bool, participants: set<Uid>, now: nat): Driver {
    var d1 := if failed then RetryPending(x, d, participants, now) else d;
    if d1.retryAfterPeer != Some(round) then d1
    else
      var d2 := d1.(retryAfterPeer := None);
      if d2.pendingMessage.Some? then RetryPending(x, d2, participants, now) else d2
  }

  ghost function OnRoundShare(x: Context, d: Driver, m: Message, accepted: bool, now: nat): (r: (Driver, Action))
    requires m.Share?
  {
    if !accepted || m.round !in d.collectors then (d, NoAction)
    else
      match Submit(d.collectors[m.round], m.peer, m.payload)
      case None => (d, NoAction)
      case Some(col) =>
        var (d1, out) := AcceptShare(x, d, m.round, col);
        if !d1.collectors[m.round].IsComplete() then (d1, Action(None, out))
        else
          var (d2, text) := Complete(d1, m.round, Decode(x.crypto, d1.collectors[m.round]));
          var mine := d.pendingRound == Some(m.round);
          (Settle(x, d2, m.round, mine && text.None?, col.participants, now), Action(text, out))
  }

  /** `accepted` is the outcome of the signature check (true when the sender's key is unknown). */
  ghost function React(x: Context, d: Driver, m: Message, accepted: bool, now: nat): (Driver, Action) {
    if m.Start? then OnRoundStart(x, d, m, now) else OnRoundShare(x, d, m, accepted, now)
  }

  ghost function Handle(x: Context, d: Driver, m: Message, accepted: bool, now: nat): (Driver, Action) {
    var (d1, a) := React(x, DropExpired(x, d, now), m, accepted, now);
    (d1.(pendingOutgoing := {}), a.(outgoing := a.outgoing + d1.pendingOutgoing))
  }
}
