/** N-party cancellation: the shares of a complete round XOR to the sender's frame. */
module Cancellation {
  import opened ByteStrings
  import opened XorSum
  import opened DcNet
  import opened RoundNetwork

  /** `me` holds an edge key for every other member of the group. */
  predicate HasKeys(me: Uid, group: set<Uid>, keys: EdgeKeys) {
    forall v :: v in group && v != me ==> v in keys
  }

  /** Every two members hold the same edge key for each other. */
  ghost predicate SharedEdges(edges: map<Uid, EdgeKeys>, group: set<Uid>) {
    && group <= edges.Keys
    && (forall a :: a in group ==> HasKeys(a, group, edges[a]))
    && forall a, b :: a in group && b in group && a != b ==> edges[a][b] == edges[b][a]
  }

  ghost function RowPads(c: Crypto, round: nat, me: Uid, group: set<Uid>, keys: EdgeKeys, len: nat): (m: map<Uid, Bytes>)
    requires HasKeys(me, group, keys)
    ensures AllOfLength(m, len)
  {
    map v | v in group && v != me :: EdgePad(c, round, me, v, keys[v], len)
  }

  /** The share of a member as a function of the group, whatever order lists it. */
  ghost function GroupShare(c: Crypto, round: nat, me: Uid, group: set<Uid>, message: Option<Bytes>, keys: EdgeKeys, len: nat): (r: Bytes)
    requires HasKeys(me, group, keys)
    requires message.Some? ==> FRAME_HEADER + |message.value| <= len
    ensures |r| == len
  {
    var neutral := XorAll(RowPads(c, round, me, group, keys, len), len);
    match message
    case None => neutral
    case Some(msg) => Xor(neutral, Pad(c, msg, len).value)
  }

  lemma RowPadsAdd(c: Crypto, round: nat, me: Uid, other: Uid, group: set<Uid>, keys: EdgeKeys, len: nat)
    requires HasKeys(me, group, keys) && other in group
    ensures var before := XorAll(RowPads(c, round, me, group - {other}, keys, len), len);
            XorAll(RowPads(c, round, me, group, keys, len), len) ==
            if other == me then before else Xor(before, EdgePad(c, round, me, other, keys[other], len))
  {
    var pads, before := RowPads(c, round, me, group, keys, len), RowPads(c, round, me, group - {other}, keys, len);
    if other == me {
      assert pads == before;
    } else {
      var pad := EdgePad(c, round, me, other, keys[other], len);
      assert pads == before[other := pad];
      XorAllInsert(before, len, other, pad);
      XorCommutes(pad, XorAll(before, len));
    }
  }

  lemma {:induction false} PadsOverAnyList(c: Crypto, round: nat, me: Uid, list: seq<Uid>, group: set<Uid>, keys: EdgeKeys, len: nat)
    requires Enumerates(list, group) && HasKeys(me, group, keys)
    ensures PadsOver(c, round, me, list, keys, len) == XorAll(RowPads(c, round, me, group, keys, len), len)
    decreases |list|
  {
    if list == [] {
      assert RowPads(c, round, me, group, keys, len) == map[];
    } else {
      var k := |list| - 1;
      assert list == list[..k] + [list[k]];
      assert list[k] !in list[..k];
      PadsOverAnyList(c, round, me, list[..k], group - {list[k]}, keys, len);
      RowPadsAdd(c, round, me, list[k], group, keys, len);
    }
  }

  /** The computed share does not depend on the order of the participant list. */
  lemma ShareOfAnyList(c: Crypto, round: nat, me: Uid, list: seq<Uid>, group: set<Uid>, message: Option<Bytes>, len: nat, keys: EdgeKeys)
    requires Enumerates(list, group)
    requires ComputeShare(c, round, me, list, message, len, keys).Some?
    ensures HasKeys(me, group, keys) && (message.Some? ==> FRAME_HEADER + |message.value| <= len)
    ensures ComputeShare(c, round, me, list, message, len, keys).value == GroupShare(c, round, me, group, message, keys, len)
  {
    PadsOverAnyList(c, round, me, list, group, keys, len);
  }

  ghost function GroupPad(c: Crypto, round: nat, edges: map<Uid, EdgeKeys>, group: set<Uid>, len: nat): (Uid, Uid) -> Bytes
    requires SharedEdges(edges, group)
  {
    (a: Uid, b: Uid) =>
      if a in group && b in group && a != b then EdgePad(c, round, a, b, edges[a][b], len) else Zeros(len)
  }

  lemma GroupPadSymmetric(c: Crypto, round: nat, edges: map<Uid, EdgeKeys>, group: set<Uid>, len: nat)
    requires SharedEdges(edges, group)
    ensures Symmetric(GroupPad(c, round, edges, group, len), len)
  {
    var pad := GroupPad(c, round, edges, group, len);
    forall a, b ensures |pad(a, b)| == len && pad(a, b) == pad(b, a) {
      if a in group && b in group && a != b {
        PairShareSymmetric(c, edges[a][b], round, c.sha256(a), c.sha256(b), len);
        assert pad(a, b) == EdgePad(c, round, a, b, edges[a][b], len);
        assert pad(b, a) == EdgePad(c, round, b, a, edges[b][a], len);
      } else {
        assert pad(a, b) == Zeros(len) == pad(b, a);
      }
    }
  }

  lemma RowsAgree(c: Crypto, round: nat, edges: map<Uid, EdgeKeys>, group: set<Uid>, u: Uid, len: nat)
    requires SharedEdges(edges, group) && u in group
    ensures Row(GroupPad(c, round, edges, group, len), u, group) == RowPads(c, round, u, group, edges[u], len)
  {
  }

  lemma NeutralSharesCancel(c: Crypto, round: nat, edges: map<Uid, EdgeKeys>, group: set<Uid>, neutral: map<Uid, Bytes>, len: nat)
    requires SharedEdges(edges, group) && neutral.Keys == group && AllOfLength(neutral, len)
    requires forall u :: u in group ==> neutral[u] == XorAll(RowPads(c, round, u, group, edges[u], len), len)
    ensures XorAll(neutral, len) == Zeros(len)
  {
    var pad := GroupPad(c, round, edges, group, len);
    GroupPadSymmetric(c, round, edges, group, len);
    var sums := RowSums(pad, group, group, len);
    forall u | u in group ensures neutral[u] == sums[u] {
      RowsAgree(c, round, edges, group, u, len);
    }
    assert neutral == sums;
    PadsCancel(pad, group, len);
  }

  /** One share per member, exactly one of them carrying `msg`. */
  ghost predicate RoundShares(c: Crypto, round: nat, edges: map<Uid, EdgeKeys>, group: set<Uid>, sender: Uid, msg: Bytes, shares: map<Uid, Bytes>, len: nat)
    requires SharedEdges(edges, group) && FRAME_HEADER + |msg| <= len
  {
    && shares.Keys == group && sender in group
    && forall u :: u in group ==>
         shares[u] == GroupShare(c, round, u, group, if u == sender then Some(msg) else None, edges[u], len)
  }

  /** XORing all shares of the round, in any order, leaves exactly the sender's frame. */
  lemma RoundSum(c: Crypto, round: nat, edges: map<Uid, EdgeKeys>, group: set<Uid>, sender: Uid, msg: Bytes, shares: map<Uid, Bytes>, len: nat)
    requires SharedEdges(edges, group) && FRAME_HEADER + |msg| <= len
    requires RoundShares(c, round, edges, group, sender, msg, shares, len)
    ensures AllOfLength(shares, len)
    ensures XorAll(shares, len) == Pad(c, msg, len).value
  {
    var neutral := map u | u in group :: GroupShare(c, round, u, group, None, edges[u], len);
    NeutralSharesCancel(c, round, edges, group, neutral, len);
    OneFrame(neutral, sender, Pad(c, msg, len).value, shares, len);
  }

  lemma OneFrame(neutral: map<Uid, Bytes>, sender: Uid, frame: Bytes, shares: map<Uid, Bytes>, len: nat)
    requires AllOfLength(neutral, len) && XorAll(neutral, len) == Zeros(len)
    requires shares.Keys == neutral.Keys && sender in neutral && |frame| == len
    requires forall u :: u in shares && u != sender ==> shares[u] == neutral[u]
    requires shares[sender] == Xor(neutral[sender], frame)
    ensures AllOfLength(shares, len) && XorAll(shares, len) == frame
  {
    assert shares == neutral[sender := Xor(neutral[sender], frame)];
    XorAllChange(neutral, len, sender, frame);
    XorZeros(frame, len);
  }

  /**
   * The collector of a round in which every participant computed its share from
   * its own listing of the group, one of them embedding `msg`, extracts `msg`.
   */
  lemma CompleteRoundExtracts(c: Crypto, col: Collector, edges: map<Uid, EdgeKeys>, lists: map<Uid, seq<Uid>>, sender: Uid, msg: Bytes)
    requires col.IsComplete() && sender in col.participants
    requires col.participants <= lists.Keys && SharedEdges(edges, col.participants)
    requires FRAME_HEADER + |msg| <= col.payloadLen && |msg| < 0x1_0000_0000
    requires forall u :: u in col.participants ==> Enumerates(lists[u], col.participants)
    requires forall u :: u in col.shares ==>
               u in edges && u in lists &&
               Some(col.shares[u]) == ComputeShare(c, col.round, u, lists[u], if u == sender then Some(msg) else None, col.payloadLen, edges[u])
    ensures Extracted(col).Some? && Unpad(c, Extracted(col).value) == Some(msg)
  {
    CompleteIsEveryone(col);
    forall u | u in col.participants
      ensures col.shares[u] == GroupShare(c, col.round, u, col.participants, if u == sender then Some(msg) else None, edges[u], col.payloadLen)
    {
      ShareOfAnyList(c, col.round, u, lists[u], col.participants, if u == sender then Some(msg) else None, col.payloadLen, edges[u]);
    }
    RoundSum(c, col.round, edges, col.participants, sender, msg, col.shares, col.payloadLen);
    PadUnpad(c, msg, col.payloadLen);
  }
}
