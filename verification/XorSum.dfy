/** The XOR of a whole family of equally long byte strings, independent of any order. */
module XorSum {
  import opened ByteStrings

  predicate AllOfLength(m: map<Uid, Bytes>, len: nat) {
    forall u :: u in m ==> |m[u]| == len
  }

  ghost function XorAll(m: map<Uid, Bytes>, len: nat): (r: Bytes)
    requires AllOfLength(m, len)
    ensures |r| == len
    decreases |m|
  {
    if m == map[] then Zeros(len)
    else
      var u :| u in m;
      Xor(m[u], XorAll(m - {u}, len))
  }

  /** Any member may be taken out first: the sum does not depend on the order. */
  lemma {:induction false} XorAllPick(m: map<Uid, Bytes>, len: nat, u: Uid)
    requires AllOfLength(m, len) && u in m
    ensures XorAll(m, len) == Xor(m[u], XorAll(m - {u}, len))
    decreases |m|
  {
    var v :| v in m && XorAll(m, len) == Xor(m[v], XorAll(m - {v}, len));
    if v != u {
      var rest := m - {u} - {v};
      assert rest == m - {v} - {u};
      XorAllPick(m - {v}, len, u);
      XorAllPick(m - {u}, len, v);
      XorAssociates(m[v], m[u], XorAll(rest, len));
      XorCommutes(m[v], m[u]);
      XorAssociates(m[u], m[v], XorAll(rest, len));
    }
  }

  lemma XorAllInsert(m: map<Uid, Bytes>, len: nat, u: Uid, b: Bytes)
    requires AllOfLength(m, len) && u !in m && |b| == len
    ensures XorAll(m[u := b], len) == Xor(b, XorAll(m, len))
  {
    XorAllPick(m[u := b], len, u);
    assert m[u := b] - {u} == m;
  }

  /** Summing two families over the same index set adds the two sums. */
  lemma {:induction false} XorAllZip(a: map<Uid, Bytes>, b: map<Uid, Bytes>, c: map<Uid, Bytes>, len: nat)
    requires AllOfLength(a, len) && AllOfLength(b, len) && AllOfLength(c, len)
    requires a.Keys == b.Keys == c.Keys
    requires forall u :: u in c ==> c[u] == Xor(a[u], b[u])
    ensures XorAll(c, len) == Xor(XorAll(a, len), XorAll(b, len))
    decreases |c|
  {
    if c == map[] {
      assert a == map[] && b == map[];
      XorZeros(Zeros(len), len);
    } else {
      var u :| u in c;
      XorAllPick(a, len, u);
      XorAllPick(b, len, u);
      XorAllPick(c, len, u);
      XorAllZip(a - {u}, b - {u}, c - {u}, len);
      XorExchange(a[u], b[u], XorAll(a - {u}, len), XorAll(b - {u}, len));
    }
  }

  /** Adding one string to one member adds it to the sum. */
  lemma XorAllChange(m: map<Uid, Bytes>, len: nat, u: Uid, b: Bytes)
    requires AllOfLength(m, len) && u in m && |b| == len
    ensures AllOfLength(m[u := Xor(m[u], b)], len)
    ensures XorAll(m[u := Xor(m[u], b)], len) == Xor(XorAll(m, len), b)
  {
    var m' := m[u := Xor(m[u], b)];
    var rest := XorAll(m - {u}, len);
    assert m' - {u} == m - {u};
    XorAllPick(m, len, u);
    XorAllPick(m', len, u);
    XorAssociates(m[u], b, rest);
    XorCommutes(b, rest);
    XorAssociates(m[u], rest, b);
  }

  // ---- Cancellation of symmetric pads ----

  ghost predicate Symmetric(pad: (Uid, Uid) -> Bytes, len: nat) {
    forall a, b :: |pad(a, b)| == len && pad(a, b) == pad(b, a)
  }

  /** The pads a member shares with the rest of the group. */
  ghost function Row(pad: (Uid, Uid) -> Bytes, u: Uid, group: set<Uid>): map<Uid, Bytes> {
    map v | v in group && v != u :: pad(u, v)
  }

  ghost function RowSums(pad: (Uid, Uid) -> Bytes, members: set<Uid>, group: set<Uid>, len: nat): (m: map<Uid, Bytes>)
    requires Symmetric(pad, len)
    ensures AllOfLength(m, len) && m.Keys == members
  {
    map u | u in members :: XorAll(Row(pad, u, group), len)
  }

  lemma RowSplit(pad: (Uid, Uid) -> Bytes, u: Uid, x: Uid, group: set<Uid>, len: nat)
    requires Symmetric(pad, len) && x in group && x != u
    ensures XorAll(Row(pad, u, group), len) == Xor(pad(u, x), XorAll(Row(pad, u, group - {x}), len))
  {
    XorAllPick(Row(pad, u, group), len, x);
    assert Row(pad, u, group) - {x} == Row(pad, u, group - {x});
  }

  lemma RowSumsSplit(pad: (Uid, Uid) -> Bytes, x: Uid, group: set<Uid>, len: nat)
    requires Symmetric(pad, len) && x in group
    ensures var rest := group - {x};
            XorAll(RowSums(pad, rest, group, len), len) ==
            Xor(XorAll(Row(pad, x, group), len), XorAll(RowSums(pad, rest, rest, len), len))
  {
    var rest := group - {x};
    forall u | u in rest
      ensures RowSums(pad, rest, group, len)[u] == Xor(Row(pad, x, group)[u], RowSums(pad, rest, rest, len)[u])
    {
      RowSplit(pad, u, x, group, len);
    }
    XorAllZip(Row(pad, x, group), RowSums(pad, rest, rest, len), RowSums(pad, rest, group, len), len);
  }

  /** Every pad occurs in exactly two rows, so the sum of all rows vanishes. */
  lemma {:induction false} PadsCancel(pad: (Uid, Uid) -> Bytes, group: set<Uid>, len: nat)
    requires Symmetric(pad, len)
    ensures XorAll(RowSums(pad, group, group, len), len) == Zeros(len)
    decreases group
  {
    var sums := RowSums(pad, group, group, len);
    if group == {} {
      assert sums == map[];
    } else {
      var x :| x in group;
      XorAllPick(sums, len, x);
      assert sums - {x} == RowSums(pad, group - {x}, group, len);
      RowSumsSplit(pad, x, group, len);
      PadsCancel(pad, group - {x}, len);
      var r := XorAll(Row(pad, x, group), len);
      XorZeros(r, len);
      XorSelf(r);
    }
  }
}
