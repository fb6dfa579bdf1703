/** Shares, collectors and message frames of one DC-Net round. */
module RoundNetwork {
  import opened ByteStrings
  import opened XorSum
  import opened DcNet

  const DEFAULT_PAYLOAD_LEN := 1024
  const MAX_ROUND_DEADLINE_SECS := 30
  const FRAME_HEADER := 36

  type EdgeKeys = map<Uid, Bytes>

  // ---- Message frame: length, checksum, message, zero padding ----

  function Pad(c: Crypto, msg: Bytes, len: nat): (r: Option<Bytes>)
    ensures r.Some? <==> FRAME_HEADER + |msg| <= len
    ensures r.Some? ==> |r.value| == len
  {
    if len < FRAME_HEADER + |msg| then None
    else Some(U32(|msg|) + c.sha256(msg) + msg + Zeros(len - FRAME_HEADER - |msg|))
  }

  function Unpad(c: Crypto, padded: Bytes): (r: Option<Bytes>)
    ensures r.Some? ==> |padded| >= FRAME_HEADER + |r.value| && padded[4..36] == c.sha256(r.value)
  {
    if |padded| < FRAME_HEADER then None
    else
      var len := FromU32(padded[..4]);
      if len > |padded| - FRAME_HEADER then None
      else
        var msg := padded[FRAME_HEADER..FRAME_HEADER + len];
        if c.sha256(msg) != padded[4..36] then None else Some(msg)
  }

  lemma FrameFields(c: Crypto, msg: Bytes, len: nat, size: Bytes)
    requires FRAME_HEADER + |msg| <= len && size == U32(|msg|)
    ensures var p := Pad(c, msg, len).value;
            p[..4] == size && p[4..36] == c.sha256(msg) && p[36..36 + |msg|] == msg && p[36 + |msg|..] == Zeros(len - 36 - |msg|)
  {
    Fields(size, c.sha256(msg), msg, Zeros(len - FRAME_HEADER - |msg|));
  }

  lemma Fields(size: Bytes, sum: Bytes, msg: Bytes, tail: Bytes)
    requires |size| == 4 && |sum| == 32
    ensures var p := size + sum + msg + tail;
            p[..4] == size && p[4..36] == sum && p[36..36 + |msg|] == msg && p[36 + |msg|..] == tail
  {
  }

  lemma UnpadFields(c: Crypto, padded: Bytes, size: Bytes, msg: Bytes)
    requires |padded| >= FRAME_HEADER + |msg| && |size| == 4 && FromU32(size) == |msg|
    requires padded[..4] == size && padded[4..36] == c.sha256(msg) && padded[36..36 + |msg|] == msg
    ensures Unpad(c, padded) == Some(msg)
  {
  }

  lemma PadUnpad(c: Crypto, msg: Bytes, len: nat)
    requires FRAME_HEADER + |msg| <= len && |msg| < 0x1_0000_0000
    ensures Unpad(c, Pad(c, msg, len).value) == Some(msg)
  {
    var size := U32(|msg|);
    U32RoundTrip(|msg|);
    FrameFields(c, msg, len, size);
    UnpadFields(c, Pad(c, msg, len).value, size, msg);
  }

  /** Writes the frame into a zeroed buffer. */
  method PadMessage(c: Crypto, msg: Bytes, len: nat) returns (r: Option<Bytes>)
    ensures r == Pad(c, msg, len)
  {
    if len < FRAME_HEADER + |msg| {
      return None;
    }
    var padded := new Byte[len](_ => 0);
    var size, sum := U32(|msg|), c.sha256(msg);
    forall i | 0 <= i < 4 { padded[i] := size[i]; }
    forall i | 4 <= i < FRAME_HEADER { padded[i] := sum[i - 4]; }
    forall i | FRAME_HEADER <= i < FRAME_HEADER + |msg| { padded[i] := msg[i - FRAME_HEADER]; }
    assert padded[..] == size + sum + msg + Zeros(len - FRAME_HEADER - |msg|);
    r := Some(padded[..]);
  }

  // ---- Share of one participant ----

  predicate CanShare(me: Uid, participants: seq<Uid>, keys: EdgeKeys) {
    |participants| >= 2 && me in participants && forall u :: u in participants && u != me ==> u in keys
  }

  function EdgePad(c: Crypto, round: nat, me: Uid, other: Uid, key: Bytes, len: nat): (r: Bytes)
    ensures |r| == len
    ensures forall i :: 0 <= i < len ==> r[i] == c.hkdf(key, BlockInfo(PairInfo(round, c.sha256(me), c.sha256(other)), i / 32))[i % 32]
  {
    PairShare(c, key, round, c.sha256(me), c.sha256(other), len)
  }

  /** The running XOR of the pads with every other listed participant. */
  function PadsOver(c: Crypto, round: nat, me: Uid, participants: seq<Uid>, keys: EdgeKeys, len: nat): (r: Bytes)
    requires forall u :: u in participants && u != me ==> u in keys
    ensures |r| == len
  {
    if participants == [] then Zeros(len)
    else
      var k := |participants| - 1;
      var other := participants[k];
      var before := PadsOver(c, round, me, participants[..k], keys, len);
      if other == me then before else Xor(before, EdgePad(c, round, me, other, keys[other], len))
  }

  function ComputeShare(c: Crypto, round: nat, me: Uid, participants: seq<Uid>, message: Option<Bytes>, len: nat, keys: EdgeKeys): (r: Option<Bytes>)
    ensures r.Some? <==> CanShare(me, participants, keys) && (message.Some? ==> FRAME_HEADER + |message.value| <= len)
    ensures r.Some? ==> |r.value| == len
  {
    if !CanShare(me, participants, keys) then None
    else
      var pads := PadsOver(c, round, me, participants, keys, len);
      match message
      case None => Some(pads)
      case Some(msg) =>
        match Pad(c, msg, len)
        case None => None
        case Some(frame) => Some(Xor(pads, frame))
  }

  /** The loop over the participant list; refuses as soon as an edge key is missing. */
  method ComputeXorShareSecure(c: Crypto, round: nat, me: Uid, participants: seq<Uid>, message: Option<Bytes>, len: nat, keys: EdgeKeys)
    returns (r: Option<Bytes>)
    ensures r == ComputeShare(c, round, me, participants, message, len, keys)
    ensures r.Some? <==> |participants| >= 2 && me in participants && (forall u :: u in participants && u != me ==> u in keys)
                         && (message.Some? ==> FRAME_HEADER + |message.value| <= len)
  {
    if |participants| < 2 || me !in participants {
      return None;
    }
    var output := Zeros(len);
    for i := 0 to |participants|
      invariant forall u :: u in participants[..i] && u != me ==> u in keys
      invariant output == PadsOver(c, round, me, participants[..i], keys, len)
    {
      var other := participants[i];
      assert participants[..i + 1] == participants[..i] + [other];
      assert participants[..i + 1][..i] == participants[..i];
      if other != me {
        if other !in keys {
          return None;
        }
        var share, overflowed := DerivePairShare(c, keys[other], round, c.sha256(me), c.sha256(other), len);
        output := XorBytes(output, share);
      }
    }
    assert participants[..|participants|] == participants;
    if message.Some? {
      var padded := PadMessage(c, message.value, len);
      if padded.None? {
        return None;
      }
      output := XorBytes(output, padded.value);
    }
    r := Some(output);
  }

  // ---- Collector ----

  datatype CollectorData = CollectorData(
    round: nat,
    participants: set<Uid>,
    shares: map<Uid, Bytes>,
    deadline: nat,
    payloadLen: nat)
  {
    predicate IsExpired(now: nat) { now >= deadline }
    predicate IsComplete() { |shares| >= |participants| }
    function Missing(): set<Uid> { participants - shares.Keys }

    /** What every sequence of submissions keeps. */
    predicate Valid() {
      shares.Keys <= participants && AllOfLength(shares, payloadLen)
    }
  }

  type Collector = c: CollectorData | c.Valid() witness CollectorData(0, {}, map[], 0, 0)

  function Clamp(x: nat, lo: nat, hi: nat): nat
    requires lo <= hi
  {
    if x < lo then lo else if x > hi then hi else x
  }

  function NewCollector(round: nat, participants: seq<Uid>, deadlineSecs: nat, payloadLen: nat, now: nat): (r: Collector)
    ensures r.Missing() == r.participants
  {
    var secs := if deadlineSecs < MAX_ROUND_DEADLINE_SECS then deadlineSecs else MAX_ROUND_DEADLINE_SECS;
    CollectorData(round, set u | u in participants, map[], now + secs, Clamp(payloadLen, 4, 65536))
  }

  /** Rejects non-participants, duplicates and shares of the wrong length. */
  function Submit(col: Collector, peer: Uid, share: Bytes): (r: Option<Collector>)
    ensures r.Some? ==> r.value.Missing() == col.Missing() - {peer}
  {
    if peer !in col.participants || peer in col.shares || |share| != col.payloadLen then None
    else Some(col.(shares := col.shares[peer := share]))
  }

  /** What a new collector takes over from the start message, and where it stops believing it. */
  lemma CollectorLimits(round: nat, participants: seq<Uid>, deadlineSecs: nat, payloadLen: nat, now: nat)
    ensures var col := NewCollector(round, participants, deadlineSecs, payloadLen, now);
            && col.round == round && col.shares == map[] && (forall u :: u in col.participants <==> u in participants)
            && col.deadline - now <= 30 && col.deadline - now <= deadlineSecs && (deadlineSecs <= 30 ==> col.deadline == now + deadlineSecs)
            && 4 <= col.payloadLen <= 65536 && (4 <= payloadLen <= 65536 ==> col.payloadLen == payloadLen)
            && (payloadLen < 4 ==> col.payloadLen == 4) && (deadlineSecs > 30 ==> col.deadline == now + 30)
  {
  }

  datatype Submission = Submission(peer: Uid, share: Bytes)

  /** Submissions one after the other; those that are rejected leave no trace. */
  function SubmitAll(col: Collector, subs: seq<Submission>): Collector {
    if subs == [] then col
    else
      var before, s := SubmitAll(col, subs[..|subs| - 1]), subs[|subs| - 1];
      var r := Submit(before, s.peer, s.share);
      if r.Some? then r.value else before
  }

  /** A share of `u` that has the right length. */
  predicate Fits(col: Collector, s: Submission, u: Uid) {
    s.peer == u && u in col.participants && |s.share| == col.payloadLen
  }

  /** Whatever is submitted, in whatever order, each participant's first share of the right length stands, and nothing else. */
  lemma {:induction false} FirstShareStands(col: Collector, subs: seq<Submission>, u: Uid)
    requires col.shares == map[]
    ensures var end := SubmitAll(col, subs);
            && end == col.(shares := end.shares)
            && (u in end.shares <==> exists i :: 0 <= i < |subs| && Fits(col, subs[i], u))
            && forall i :: 0 <= i < |subs| && Fits(col, subs[i], u) && (forall j :: 0 <= j < i ==> !Fits(col, subs[j], u)) ==>
                 u in end.shares && end.shares[u] == subs[i].share
    decreases |subs|
  {
    if subs != [] {
      var k := |subs| - 1;
      FirstShareStands(col, subs[..k], u);
      assert forall i :: 0 <= i < k ==> subs[..k][i] == subs[i];
      assert subs[k].peer != u ==> !Fits(col, subs[k], u);
    }
  }

  /** The count test of `is_complete` means that nobody is missing. */
  lemma CompleteIsEveryone(col: Collector)
    ensures col.IsComplete() <==> col.shares.Keys == col.participants
  {
    var rest := col.participants - col.shares.Keys;
    assert col.participants == col.shares.Keys + rest;
    assert |col.participants| == |col.shares.Keys| + |rest|;
  }

  ghost function Extracted(col: Collector): Option<Bytes> {
    if col.shares == map[] then None else Some(XorAll(col.shares, col.payloadLen))
  }

  /** XORs the collected shares in whatever order the hash map yields them. */
  method ExtractMessage(col: Collector) returns (r: Option<Bytes>)
    ensures r == Extracted(col)
  {
    if col.shares == map[] {
      return None;
    }
    var result := Zeros(col.payloadLen);
    var left := col.shares;
    XorZeros(XorAll(left, col.payloadLen), col.payloadLen);
    while left != map[]
      invariant left.Keys <= col.shares.Keys && AllOfLength(left, col.payloadLen) && |result| == col.payloadLen
      invariant Xor(result, XorAll(left, col.payloadLen)) == XorAll(col.shares, col.payloadLen)
      decreases |left|
    {
      var u :| u in left;
      XorAllPick(left, col.payloadLen, u);
      XorAssociates(result, left[u], XorAll(left - {u}, col.payloadLen));
      result := XorBytes(result, left[u]);
      left := left - {u};
    }
    XorZeros(result, col.payloadLen);
    r := Some(result);
  }

  // ---- Share signatures ----

  function ShareSignatureMessage(channel: Bytes, round: nat, share: Bytes): Bytes {
    Ascii("chrono-dcnet-share-v1") + (Prefixed(channel) + (U64(round) + share))
  }

  /** A signature on a share is good for one channel, one round and one share only. */
  lemma ShareSignatureInjective(channel: Bytes, round: nat, share: Bytes, channel': Bytes, round': nat, share': Bytes)
    requires |channel| < 0x1_0000_0000 && |channel'| < 0x1_0000_0000
    requires round < 0x1_0000_0000_0000_0000 && round' < 0x1_0000_0000_0000_0000
    requires ShareSignatureMessage(channel, round, share) == ShareSignatureMessage(channel', round', share')
    ensures channel == channel' && round == round' && share == share'
  {
    var domain := Ascii("chrono-dcnet-share-v1");
    SplitFields(domain, Prefixed(channel) + (U64(round) + share), domain, Prefixed(channel') + (U64(round') + share'));
    PrefixedSplit(channel, U64(round) + share, channel', U64(round') + share');
    U64Split(round, share, round', share');
  }

  /** The peers' identity keys we know, and Ed25519: which keys parse, and (key, message, signature) verification. */
  datatype Authenticator = Authenticator(
    channel: Bytes,
    known: map<Uid, Bytes>,
    parses: Bytes -> bool,
    verify: (Bytes, Bytes, Bytes) -> bool)
  {
    /** Shares of peers with no key, or no readable one, pass unverified. */
    predicate Accepts(round: nat, peer: Uid, share: Bytes, signature: Bytes) {
      peer in known && parses(known[peer]) ==> verify(known[peer], ShareSignatureMessage(channel, round, share), signature)
    }
  }
}
