/** Sender ambiguity: the shares of a round fit every member as its sender equally well. */
module Anonymity {
  import opened ByteStrings
  import opened XorSum
  import opened DcNet
  import opened RoundNetwork
  import opened Cancellation

  /** Everybody's share when `sender` adds `frame` to the XOR of its pads. */
  ghost function SharesOf(pad: (Uid, Uid) -> Bytes, group: set<Uid>, sender: Uid, frame: Bytes, len: nat): map<Uid, Bytes>
    requires Symmetric(pad, len)
  {
    map u | u in group :: if u == sender then Xor(XorAll(Row(pad, u, group), len), frame) else XorAll(Row(pad, u, group), len)
  }

  /** The pads with the one between u and v changed by the frame. */
  ghost function Shifted(pad: (Uid, Uid) -> Bytes, u: Uid, v: Uid, frame: Bytes): (Uid, Uid) -> Bytes {
    (a: Uid, b: Uid) => if (a == u && b == v) || (a == v && b == u) then Xor(pad(a, b), frame) else pad(a, b)
  }

  lemma ShiftedSymmetric(pad: (Uid, Uid) -> Bytes, u: Uid, v: Uid, frame: Bytes, len: nat)
    requires Symmetric(pad, len) && |frame| == len
    ensures Symmetric(Shifted(pad, u, v, frame), len)
  {
    var pad' := Shifted(pad, u, v, frame);
    forall a, b ensures |pad'(a, b)| == len && pad'(a, b) == pad'(b, a) {
      assert |pad(a, b)| == len && pad(a, b) == pad(b, a);
    }
  }

  /** Shifting twice gives the pads back, so the pads that fit u and those that fit v are paired off one to one. */
  lemma ShiftedTwice(pad: (Uid, Uid) -> Bytes, u: Uid, v: Uid, frame: Bytes, len: nat, a: Uid, b: Uid)
    requires Symmetric(pad, len) && |frame| == len
    ensures Shifted(Shifted(pad, u, v, frame), u, v, frame)(a, b) == pad(a, b)
  {
    TwiceIsNothing(pad(a, b), frame);
  }

  lemma TwiceIsNothing(a: Bytes, frame: Bytes)
    requires |a| == |frame|
    ensures Xor(Xor(a, frame), frame) == a
  {
    XorAssociates(a, frame, frame);
    XorSelf(frame);
    XorZeros(a, |a|);
  }

  /** At either end of the changed pad the row sum changes by the frame. */
  lemma ShiftedEnd(pad: (Uid, Uid) -> Bytes, group: set<Uid>, u: Uid, v: Uid, frame: Bytes, len: nat, pad': (Uid, Uid) -> Bytes)
    requires Symmetric(pad, len) && Symmetric(pad', len) && |frame| == len && v in group && u != v
    requires pad'(u, v) == Xor(pad(u, v), frame) && forall b :: b != v ==> pad'(u, b) == pad(u, b)
    ensures XorAll(Row(pad', u, group), len) == Xor(XorAll(Row(pad, u, group), len), frame)
  {
    var rest := XorAll(Row(pad, u, group - {v}), len);
    RowSplit(pad, u, v, group, len);
    RowSplit(pad', u, v, group, len);
    assert Row(pad', u, group - {v}) == Row(pad, u, group - {v});
    XorAssociates(pad(u, v), frame, rest);
    XorCommutes(frame, rest);
    XorAssociates(pad(u, v), rest, frame);
  }

  /**
   * Whoever sees all shares of a round, and even all pads but the one that u and v share,
   * cannot tell whether u or v sent the frame: for every choice of pads under which u did
   * there is exactly one, differing in that pad only, under which v's sending gives the very
   * same shares.
   */
  lemma SenderAmbiguous(pad: (Uid, Uid) -> Bytes, group: set<Uid>, u: Uid, v: Uid, frame: Bytes, len: nat, pad': (Uid, Uid) -> Bytes)
    requires Symmetric(pad, len) && u in group && v in group && u != v && |frame| == len && pad' == Shifted(pad, u, v, frame)
    ensures Symmetric(pad', len) && SharesOf(pad', group, v, frame, len) == SharesOf(pad, group, u, frame, len)
    ensures forall a, b :: {a, b} != {u, v} ==> pad'(a, b) == pad(a, b)
  {
    ShiftedSymmetric(pad, u, v, frame, len);
    ShiftedEnd(pad, group, u, v, frame, len, pad');
    ShiftedEnd(pad, group, v, u, frame, len, pad');
    TwiceIsNothing(XorAll(Row(pad, v, group), len), frame);
    forall w | w in group && w != u && w != v ensures Row(pad', w, group) == Row(pad, w, group) {}
    forall a, b | {a, b} != {u, v} ensures pad'(a, b) == pad(a, b) {
      assert a == u && b == v ==> {a, b} == {u, v};
      assert a == v && b == u ==> {a, b} == {u, v};
    }
  }

  /** Only that pad can do it: with another value between u and v the shares differ. */
  lemma OnlyShift(pad: (Uid, Uid) -> Bytes, group: set<Uid>, u: Uid, v: Uid, frame: Bytes, len: nat, pad': (Uid, Uid) -> Bytes)
    requires Symmetric(pad, len) && Symmetric(pad', len) && u in group && v in group && u != v && |frame| == len
    requires forall a, b :: {a, b} != {u, v} ==> pad'(a, b) == pad(a, b)
    requires SharesOf(pad', group, v, frame, len) == SharesOf(pad, group, u, frame, len)
    ensures pad'(u, v) == Xor(pad(u, v), frame)
  {
    var rest := Row(pad, u, group - {v});
    forall b | b != v ensures pad'(u, b) == pad(u, b) {
      assert v !in {u, b};
    }
    assert Row(pad', u, group - {v}) == rest;
    RowSplit(pad, u, v, group, len);
    RowSplit(pad', u, v, group, len);
    assert SharesOf(pad', group, v, frame, len)[u] == SharesOf(pad, group, u, frame, len)[u];
    Cancels(pad'(u, v), pad(u, v), XorAll(rest, len), frame);
  }

  lemma Cancels(a: Bytes, b: Bytes, rest: Bytes, frame: Bytes)
    requires |a| == |b| == |rest| == |frame| && Xor(a, rest) == Xor(Xor(b, rest), frame)
    ensures a == Xor(b, frame)
  {
    TwiceIsNothing(a, rest);
    XorAssociates(b, rest, frame);
    XorCommutes(rest, frame);
    XorAssociates(b, frame, rest);
    TwiceIsNothing(Xor(b, frame), rest);
  }

  /** The shares that the members compute from their edge keys are of this form. */
  lemma ComputedSharesOf(c: Crypto, round: nat, edges: map<Uid, EdgeKeys>, group: set<Uid>, sender: Uid, msg: Bytes, shares: map<Uid, Bytes>, len: nat)
    requires SharedEdges(edges, group) && FRAME_HEADER + |msg| <= len
    requires RoundShares(c, round, edges, group, sender, msg, shares, len)
    ensures Symmetric(GroupPad(c, round, edges, group, len), len)
    ensures shares == SharesOf(GroupPad(c, round, edges, group, len), group, sender, Pad(c, msg, len).value, len)
  {
    GroupPadSymmetric(c, round, edges, group, len);
    forall u | u in group ensures shares[u] == SharesOf(GroupPad(c, round, edges, group, len), group, sender, Pad(c, msg, len).value, len)[u] {
      RowsAgree(c, round, edges, group, u, len);
    }
  }
}
