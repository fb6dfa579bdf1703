/** The local DC-Net broadcast: all participants' shares computed pairwise in one process. */
module Broadcast {
  import opened ByteStrings
  import opened DcNet

  // ---- expand_share ----

  /** Byte i comes from block i / 32 of counter-mode hashing. */
  function Expanded(c: Crypto, seed: Bytes, len: nat): (r: Bytes)
    ensures |r| == len
    ensures forall i :: 0 <= i < len ==> r[i] == c.sha256(seed + U64(i / 32))[i % 32]
  {
    seq(len, i requires 0 <= i < len => c.sha256(seed + U64(i / 32))[i % 32])
  }

  lemma ExpandedExtend(c: Crypto, seed: Bytes, k: nat)
    ensures Expanded(c, seed, 32 * k) + c.sha256(seed + U64(k)) == Expanded(c, seed, 32 * (k + 1))
  {
    var s, l := Expanded(c, seed, 32 * k) + c.sha256(seed + U64(k)), Expanded(c, seed, 32 * (k + 1));
    forall i | 32 * k <= i < 32 * (k + 1) ensures s[i] == l[i] {
      assert i / 32 == k && i % 32 == i - 32 * k;
    }
  }

  method ExpandShare(c: Crypto, seed: Bytes, len: nat) returns (out: Bytes)
    ensures out == Expanded(c, seed, len)
  {
    out := [];
    var counter := 0;
    while |out| < len
      invariant counter >= 0 && out == Expanded(c, seed, 32 * counter)
      decreases len - |out|
    {
      ExpandedExtend(c, seed, counter);
      out := out + c.sha256(seed + U64(counter));
      counter := counter + 1;
    }
    out := out[..len];
    assert out == Expanded(c, seed, len);
  }

  // ---- Pairwise masks ----

  /** One ephemeral key pair per participant, and the agreement function. */
  datatype Keys = Keys(secrets: seq<Bytes>, publicOf: Bytes -> Bytes, agree: (Bytes, Bytes) -> Digest)

  /** The pad of an unordered pair: the lower index supplies the secret. */
  function PairPad(c: Crypto, ks: Keys, len: nat, i: nat, j: nat): (r: Bytes)
    ensures |r| == len
    ensures i < j < |ks.secrets| ==>
              forall b :: 0 <= b < len ==> r[b] == c.sha256(ks.agree(ks.secrets[i], ks.publicOf(ks.secrets[j])) + U64(b / 32))[b % 32]
  {
    var (lo, hi) := if i < j then (i, j) else (j, i);
    if hi < |ks.secrets| then Expanded(c, ks.agree(ks.secrets[lo], ks.publicOf(ks.secrets[hi])), len) else Zeros(len)
  }

  function PadTable(c: Crypto, ks: Keys, len: nat): (nat, nat) -> Bytes {
    (i: nat, j: nat) => PairPad(c, ks, len, i, j)
  }

  ghost predicate IsPads(c: Crypto, ks: Keys, len: nat, pad: (nat, nat) -> Bytes) {
    forall i, j :: pad(i, j) == PairPad(c, ks, len, i, j)
  }

  /** Participant k's mask over the first m participants: the XOR of its pads with all of them. */
  function Mask(pad: (nat, nat) -> Bytes, len: nat, k: nat, m: nat): Bytes {
    if m == 0 then Zeros(len)
    else if m - 1 == k then Mask(pad, len, k, m - 1)
    else Xor(Mask(pad, len, k, m - 1), pad(k, m - 1))
  }

  /** A mask hides what it is added to: changing the pad with any other participant changes it by exactly as much. */
  lemma {:induction false} MaskFollowsPad(pad: (nat, nat) -> Bytes, pad': (nat, nat) -> Bytes, len: nat, k: nat, m: nat, j: nat, e: Bytes)
    requires k != j && |e| == len && pad'(k, j) == Xor(pad(k, j), e)
    requires forall i :: i != j ==> pad'(k, i) == pad(k, i)
    requires forall i :: |pad(k, i)| == len
    ensures |Mask(pad, len, k, m)| == len && Mask(pad', len, k, m) == if j < m then Xor(Mask(pad, len, k, m), e) else Mask(pad, len, k, m)
    decreases m
  {
    if m > 0 {
      MaskFollowsPad(pad, pad', len, k, m - 1, j, e);
      var before := Mask(pad, len, k, m - 1);
      if m - 1 == j {
        XorAssociates(before, pad(k, j), e);
      } else if j < m - 1 {
        XorAssociates(before, e, pad(k, m - 1));
        XorCommutes(e, pad(k, m - 1));
        XorAssociates(before, pad(k, m - 1), e);
      }
    }
  }

  // ---- XOR of a list ----

  predicate AllLong(s: seq<Bytes>, len: nat) {
    forall i :: 0 <= i < |s| ==> |s[i]| == len
  }

  function XorList(s: seq<Bytes>, len: nat): (r: Bytes)
    requires AllLong(s, len)
    ensures |r| == len
  {
    if s == [] then Zeros(len) else Xor(XorList(s[..|s| - 1], len), s[|s| - 1])
  }

  lemma {:induction false} XorListChange(s: seq<Bytes>, len: nat, i: nat, e: Bytes)
    requires AllLong(s, len) && i < |s| && |e| == len
    ensures XorList(s[i := Xor(s[i], e)], len) == Xor(XorList(s, len), e)
    decreases |s|
  {
    var k := |s| - 1;
    var s' := s[i := Xor(s[i], e)];
    var before := XorList(s[..k], len);
    if i == k {
      assert s'[..k] == s[..k];
      XorAssociates(before, s[k], e);
    } else {
      assert s'[..k] == s[..k][i := Xor(s[..k][i], e)];
      XorListChange(s[..k], len, i, e);
      XorAssociates(before, e, s[k]);
      XorCommutes(e, s[k]);
      XorAssociates(before, s[k], e);
    }
  }

  lemma {:induction false} XorListZeros(s: seq<Bytes>, len: nat)
    requires forall i :: 0 <= i < |s| ==> s[i] == Zeros(len)
    ensures AllLong(s, len) && XorList(s, len) == Zeros(len)
  {
    if s != [] {
      XorListZeros(s[..|s| - 1], len);
      XorZeros(Zeros(len), len);
    }
  }

  /** Adding the same string to two entries leaves the sum alone. */
  lemma XorListPair(s: seq<Bytes>, len: nat, i: nat, j: nat, e: Bytes)
    requires AllLong(s, len) && i < |s| && j < |s| && i != j && |e| == len
    ensures AllLong(s[i := Xor(s[i], e)][j := Xor(s[j], e)], len)
    ensures XorList(s[i := Xor(s[i], e)][j := Xor(s[j], e)], len) == XorList(s, len)
  {
    XorListChange(s, len, i, e);
    XorListChange(s[i := Xor(s[i], e)], len, j, e);
    XorAssociates(XorList(s, len), e, e);
    XorSelf(e);
    XorZeros(XorList(s, len), len);
  }

  // ---- broadcast_message ----

  /** How many participants k has been masked against when the loops have reached the pair (i, j). */
  function Reached(n: nat, i: nat, j: nat, k: nat): nat {
    if k < i then n else if k == i then j else if k < j then i + 1 else i
  }

  ghost predicate Masked(pad: (nat, nat) -> Bytes, len: nat, shares: seq<Bytes>, i: nat, j: nat) {
    forall k :: 0 <= k < |shares| ==> shares[k] == Mask(pad, len, k, Reached(|shares|, i, j, k))
  }

  datatype Aspect = Sums | Masks

  /** What the loops keep: all buffers full length, their XOR zero, each masked as far as reached. */
  ghost predicate Balanced(pad: (nat, nat) -> Bytes, len: nat, shares: seq<Bytes>, i: nat, j: nat) {
    forall a :: BalancedIn(a, pad, len, shares, i, j)
  }

  // Stated aspect by aspect, so that a loop which only passes it on need not look inside.
  ghost predicate BalancedIn(a: Aspect, pad: (nat, nat) -> Bytes, len: nat, shares: seq<Bytes>, i: nat, j: nat) {
    match a
    case Sums => AllLong(shares, len) && XorList(shares, len) == Zeros(len)
    case Masks => Masked(pad, len, shares, i, j)
  }

  lemma BalancedMeans(pad: (nat, nat) -> Bytes, len: nat, shares: seq<Bytes>, i: nat, j: nat)
    ensures Balanced(pad, len, shares, i, j) <==>
            AllLong(shares, len) && XorList(shares, len) == Zeros(len) && Masked(pad, len, shares, i, j)
  {
    assert BalancedIn(Sums, pad, len, shares, i, j) <==> AllLong(shares, len) && XorList(shares, len) == Zeros(len);
    assert BalancedIn(Masks, pad, len, shares, i, j) <==> Masked(pad, len, shares, i, j);
    forall a ensures BalancedIn(a, pad, len, shares, i, j) <== BalancedIn(Sums, pad, len, shares, i, j) && BalancedIn(Masks, pad, len, shares, i, j) {}
  }

  lemma MaskStep(pad: (nat, nat) -> Bytes, len: nat, shares: seq<Bytes>, i: nat, j: nat, shares': seq<Bytes>)
    requires i < j < |shares| && Masked(pad, len, shares, i, j) && pad(i, j) == pad(j, i)
    requires shares' == shares[i := Xor(shares[i], pad(i, j))][j := Xor(shares[j], pad(i, j))]
    ensures Masked(pad, len, shares', i, j + 1)
  {
    forall k | 0 <= k < |shares'| ensures shares'[k] == Mask(pad, len, k, Reached(|shares|, i, j + 1, k)) {
      if k == i {
        assert shares'[i] == Xor(Mask(pad, len, i, j), pad(i, j));
      } else if k == j {
        assert shares'[j] == Xor(Mask(pad, len, j, i), pad(j, i));
      }
    }
  }

  lemma NextRow(pad: (nat, nat) -> Bytes, len: nat, shares: seq<Bytes>, i: nat)
    requires i < |shares| && Balanced(pad, len, shares, i, |shares|)
    ensures Balanced(pad, len, shares, i + 1, if i + 1 < |shares| then i + 2 else |shares|)
  {
    var j := if i + 1 < |shares| then i + 2 else |shares|;
    BalancedMeans(pad, len, shares, i, |shares|);
    BalancedMeans(pad, len, shares, i + 1, j);
    forall k | 0 <= k < |shares| ensures shares[k] == Mask(pad, len, k, Reached(|shares|, i + 1, j, k)) {
      if k == i + 1 {
        assert Mask(pad, len, k, k + 1) == Mask(pad, len, k, k);
      }
    }
  }

  lemma StartBalanced(pad: (nat, nat) -> Bytes, len: nat, shares: seq<Bytes>)
    requires forall k :: 0 <= k < |shares| ==> shares[k] == Zeros(len)
    ensures Balanced(pad, len, shares, 0, if 0 < |shares| then 1 else 0)
  {
    XorListZeros(shares, len);
    BalancedMeans(pad, len, shares, 0, if 0 < |shares| then 1 else 0);
    if |shares| > 0 {
      assert Mask(pad, len, 0, 1) == Mask(pad, len, 0, 0);
    }
  }

  /** The pad of one pair goes into exactly its two buffers. */
  method MaskPair(c: Crypto, ks: Keys, len: nat, ghost pad: (nat, nat) -> Bytes, shares: array<Bytes>, i: nat, j: nat)
    requires IsPads(c, ks, len, pad) && shares.Length == |ks.secrets|
    requires i < j < shares.Length && Balanced(pad, len, shares[..], i, j)
    modifies shares
    ensures Balanced(pad, len, shares[..], i, j + 1)
  {
    ghost var before := shares[..];
    var expanded := ExpandShare(c, ks.agree(ks.secrets[i], ks.publicOf(ks.secrets[j])), len);
    assert expanded == pad(i, j) == pad(j, i);
    BalancedMeans(pad, len, before, i, j);
    XorListPair(before, len, i, j, expanded);
    MaskStep(pad, len, before, i, j, before[i := Xor(before[i], expanded)][j := Xor(before[j], expanded)]);
    shares[i] := XorBytes(shares[i], expanded);
    shares[j] := XorBytes(shares[j], expanded);
    assert shares[..] == before[i := Xor(before[i], expanded)][j := Xor(before[j], expanded)];
    BalancedMeans(pad, len, shares[..], i, j + 1);
  }

  method MaskRow(c: Crypto, ks: Keys, len: nat, ghost pad: (nat, nat) -> Bytes, shares: array<Bytes>, i: nat)
    requires IsPads(c, ks, len, pad) && shares.Length == |ks.secrets|
    requires i < shares.Length && Balanced(pad, len, shares[..], i, i + 1)
    modifies shares
    ensures Balanced(pad, len, shares[..], i, shares.Length)
  {
    for j := i + 1 to shares.Length
      invariant Balanced(pad, len, shares[..], i, j)
    {
      MaskPair(c, ks, len, pad, shares, i, j);
    }
  }

  method MaskAll(c: Crypto, ks: Keys, len: nat, ghost pad: (nat, nat) -> Bytes, shares: array<Bytes>)
    requires IsPads(c, ks, len, pad) && shares.Length == |ks.secrets|
    requires forall k :: 0 <= k < shares.Length ==> shares[k] == Zeros(len)
    modifies shares
    ensures Balanced(pad, len, shares[..], shares.Length, shares.Length)
  {
    var n := shares.Length;
    StartBalanced(pad, len, shares[..]);
    for i := 0 to n
      invariant Balanced(pad, len, shares[..], i, if i < n then i + 1 else n)
    {
      MaskRow(c, ks, len, pad, shares, i);
      NextRow(pad, len, shares[..], i);
    }
  }

  /** The share buffers of all participants, filled pair by pair. */
  method PairwiseShares(c: Crypto, ks: Keys, len: nat) returns (shares: array<Bytes>)
    ensures fresh(shares) && shares.Length == |ks.secrets|
    ensures forall k :: 0 <= k < shares.Length ==> shares[k] == Mask(PadTable(c, ks, len), len, k, shares.Length)
    ensures AllLong(shares[..], len) && XorList(shares[..], len) == Zeros(len)
  {
    shares := new Bytes[|ks.secrets|](_ => Zeros(len));
    ghost var pad := PadTable(c, ks, len);
    MaskAll(c, ks, len, pad, shares);
    BalancedMeans(pad, len, shares[..], shares.Length, shares.Length);
    forall k | 0 <= k < shares.Length ensures shares[k] == Mask(pad, len, k, shares.Length) {
      assert shares[..][k] == shares[k];
    }
  }

  method GlobalXor(shares: seq<Bytes>, len: nat) returns (r: Bytes)
    requires AllLong(shares, len)
    ensures r == XorList(shares, len)
  {
    r := Zeros(len);
    for i := 0 to |shares|
      invariant r == XorList(shares[..i], len)
    {
      assert shares[..i + 1][..i] == shares[..i];
      r := XorBytes(r, shares[i]);
    }
    assert shares[..|shares|] == shares;
  }

  /** Reads the length prefix, never past the end of the buffer. */
  function Unprefixed(b: Bytes): Bytes {
    if |b| < 4 then b
    else
      var declared := FromU32(b[..4]);
      b[4..4 + if declared < |b| - 4 then declared else |b| - 4]
  }

  lemma UnprefixedPayload(text: Bytes)
    ensures Unprefixed(U32(|text|) + text) == text[..|text| % 0x1_0000_0000]
  {
    var b := U32(|text|) + text;
    U32RoundTrip(|text|);
    assert b[..4] == U32(|text|);
    assert b[4..] == text;
  }

  lemma CutWhole(text: Bytes)
    ensures text[..|text| % 0x1_0000_0000] == text <==> |text| < 0x1_0000_0000
  {
  }

  function Position(s: seq<Digest>, x: Digest): (r: Option<nat>)
    ensures r.Some? <==> x in s
    ensures r.Some? ==> r.value < |s| && s[r.value] == x
  {
    if s == [] then None
    else if s[0] == x then Some(0)
    else
      match Position(s[1..], x)
      case None => None
      case Some(i) => Some(i + 1)
  }

  /** A member of a channel's group, and whether its reputation has marked it malicious. */
  datatype Member = Member(peer: Digest, malicious: bool)

  const MIN_PARTICIPANTS := 2

  function PeersOf(members: seq<Member>): (r: seq<Digest>)
    ensures |r| == |members| && forall i :: 0 <= i < |r| ==> r[i] == members[i].peer
  {
    seq(|members|, i requires 0 <= i < |members| => members[i].peer)
  }

  function Honest(members: seq<Member>): seq<Member> {
    if members == [] then []
    else Honest(members[..|members| - 1]) + if members[|members| - 1].malicious then [] else [members[|members| - 1]]
  }

  /** A round starts when, without the malicious, enough members are left. */
  predicate Starts(members: seq<Member>) {
    |Honest(members)| >= MIN_PARTICIPANTS
  }

  lemma {:induction false} HonestOne(members: seq<Member>)
    ensures Honest(members) != [] <==> exists i :: 0 <= i < |members| && !members[i].malicious
  {
    if members != [] {
      var k := |members| - 1;
      HonestOne(members[..k]);
      assert forall i :: 0 <= i < k ==> members[..k][i] == members[i];
    }
  }

  ghost predicate TwoHonest(members: seq<Member>) {
    exists i, j :: 0 <= i < j < |members| && !members[i].malicious && !members[j].malicious
  }

  lemma TwoHonestSnoc(members: seq<Member>, k: nat)
    requires k + 1 == |members|
    ensures TwoHonest(members) <==>
              TwoHonest(members[..k]) || (!members[k].malicious && exists i :: 0 <= i < k && !members[..k][i].malicious)
  {
    assert forall i :: 0 <= i < k ==> members[..k][i] == members[i];
  }

  /** A round starts exactly when two members are not marked malicious. */
  lemma {:induction false} StartsIff(members: seq<Member>)
    ensures Starts(members) <==> TwoHonest(members)
  {
    if members != [] {
      var k := |members| - 1;
      StartsIff(members[..k]);
      HonestOne(members[..k]);
      TwoHonestSnoc(members, k);
    }
  }

  datatype Result = NoRound | Alone(text: Bytes) | Round(id: nat, parties: nat, text: Bytes)

  /**
   * One local round in the channel's group, if there is one, numbered after the channel's
   * last. The text comes back cut to its length modulo 2^32, so unchanged exactly when it is
   * shorter than 2^32 bytes.
   */
  method BroadcastMessage(c: Crypto, ks: Keys, group: Option<seq<Member>>, lastRound: Option<nat>, me: Digest, text: Bytes)
    returns (r: Result)
    requires group.Some? ==> |ks.secrets| == |group.value|
    ensures r.Alone? <==> group.Some? && |group.value| < 2
    ensures r.Alone? ==> r.text == text
    ensures r.Round? <==>
              && group.Some? && (exists i, j :: 0 <= i < j < |group.value| && !group.value[i].malicious && !group.value[j].malicious)
              && exists i :: 0 <= i < |group.value| && group.value[i].peer == me
    ensures r.Round? ==> r.id == (if lastRound.Some? then lastRound.value + 1 else 1) && r.parties == |group.value|
    ensures r.Round? ==> r.text == text[..|text| % 0x1_0000_0000] && (r.text == text <==> |text| < 0x1_0000_0000)
  {
    if group.None? {
      return NoRound;
    }
    var participants := PeersOf(group.value);
    if |participants| < 2 {
      return Alone(text);
    }
    var nextId := if lastRound.Some? then lastRound.value + 1 else 1;
    StartsIff(group.value);
    if !Starts(group.value) {
      return NoRound;
    }
    var sender := Position(participants, me);
    var payload := U32(|text|) + text;
    var global := XorOfAll(c, ks, 4 + |text|, sender, payload);
    if global.None? {
      return NoRound;
    }
    UnprefixedPayload(text);
    CutWhole(text);
    r := Round(nextId, |participants|, Unprefixed(global.value));
  }

  /** Everybody's broadcast XORed together: exactly the sender's payload. */
  method XorOfAll(c: Crypto, ks: Keys, len: nat, sender: Option<nat>, payload: Bytes) returns (r: Option<Bytes>)
    requires |payload| == len && (sender.Some? ==> sender.value < |ks.secrets|)
    ensures r == if sender.Some? then Some(payload) else None
  {
    var shares := PairwiseShares(c, ks, len);
    if sender.None? {
      return None;
    }
    ghost var before := shares[..];
    XorListChange(before, len, sender.value, payload);
    XorZeros(payload, len);
    shares[sender.value] := XorBytes(shares[sender.value], payload);
    assert shares[..] == before[sender.value := Xor(before[sender.value], payload)];
    var global := GlobalXor(shares[..], len);
    r := Some(global);
  }
}
