/** Pairwise shares of a DC-Net round: XOR of buffers and key-stream derivation. */
module DcNet {
  import opened ByteStrings

  /** The cryptographic primitives and the UTF-8 test, left uninterpreted. */
  datatype Crypto = Crypto(
    sha256: Bytes -> Digest,
    hkdf: (Bytes, Bytes) -> Digest,   // (key, info) -> 32 bytes of output
    utf8: Bytes -> bool)

  /** Fills the result byte by byte, reading zero past the end of either operand. */
  method XorBytes(a: Bytes, b: Bytes) returns (r: Bytes)
    ensures r == Xor(a, b)
  {
    var len := if |a| < |b| then |b| else |a|;
    var result := new Byte[len](_ => 0);
    for i := 0 to len
      invariant forall k :: 0 <= k < i ==> result[k] == XorByte(At(a, k), At(b, k))
    {
      result[i] := XorByte(At(a, i), At(b, i));
    }
    r := result[..];
  }

  // ---- derive_pair_share ----

  function PairInfo(round: nat, peerA: Digest, peerB: Digest): (info: Bytes)
    ensures |info| == 92
  {
    var (lo, hi) := if Less(peerA, peerB) then (peerA, peerB) else (peerB, peerA);
    Ascii("chrono-dcnet-pair-v1") + U64(round) + lo + hi
  }

  /** The info string holds the round and both peers, the lower one first. */
  lemma PairInfoFields(round: nat, peerA: Digest, peerB: Digest)
    ensures var info := PairInfo(round, peerA, peerB);
            && info[20..28] == U64(round) && !Less(info[60..92], info[28..60])
            && ((info[28..60] == peerA && info[60..92] == peerB) || (info[28..60] == peerB && info[60..92] == peerA))
  {
    LessTotal(peerA, peerB);
    var (lo, hi) := if Less(peerA, peerB) then (peerA, peerB) else (peerB, peerA);
    FieldsAt(Ascii("chrono-dcnet-pair-v1"), U64(round), lo, hi);
  }

  lemma FieldsAt(domain: Bytes, round: Bytes, lo: Bytes, hi: Bytes)
    requires |domain| == 20 && |round| == 8 && |lo| == 32 && |hi| == 32
    ensures var info := domain + round + lo + hi;
            |info| == 92 && info[20..28] == round && info[28..60] == lo && info[60..92] == hi
  {
  }

  /** Different rounds and different pairs never share an info string. */
  lemma PairInfoInjective(r: nat, a: Digest, b: Digest, r': nat, a': Digest, b': Digest)
    requires r < 0x1_0000_0000_0000_0000 && r' < 0x1_0000_0000_0000_0000 && PairInfo(r, a, b) == PairInfo(r', a', b')
    ensures r == r' && ((a == a' && b == b') || (a == b' && b == a'))
  {
    PairInfoFields(r, a, b);
    PairInfoFields(r', a', b');
    U64Injective(r, r');
  }

  /** The info string of the k-th block; the counter is a single byte. */
  function BlockInfo(info: Bytes, k: nat): Bytes {
    info + [k % 256]
  }

  /** Byte i of the key stream comes from block i / 32. */
  function KeyStream(c: Crypto, key: Bytes, info: Bytes, len: nat): (r: Bytes)
    ensures |r| == len
    ensures forall i :: 0 <= i < len ==> r[i] == c.hkdf(key, BlockInfo(info, i / 32))[i % 32]
  {
    seq(len, i requires 0 <= i < len => c.hkdf(key, BlockInfo(info, i / 32))[i % 32])
  }

  function PairShare(c: Crypto, key: Bytes, round: nat, peerA: Digest, peerB: Digest, len: nat): (r: Bytes)
    ensures |r| == len
  {
    KeyStream(c, key, PairInfo(round, peerA, peerB), len)
  }

  lemma KeyStreamExtend(c: Crypto, key: Bytes, info: Bytes, k: nat)
    ensures KeyStream(c, key, info, 32 * k) + c.hkdf(key, BlockInfo(info, k)) == KeyStream(c, key, info, 32 * (k + 1))
  {
    var s, l := KeyStream(c, key, info, 32 * k) + c.hkdf(key, BlockInfo(info, k)), KeyStream(c, key, info, 32 * (k + 1));
    forall i | 32 * k <= i < 32 * (k + 1) ensures s[i] == l[i] {
      assert i / 32 == k && i % 32 == i - 32 * k;
    }
  }

  lemma PairShareSymmetric(c: Crypto, key: Bytes, round: nat, peerA: Digest, peerB: Digest, len: nat)
    ensures PairShare(c, key, round, peerA, peerB, len) == PairShare(c, key, round, peerB, peerA, len)
  {
    LessTotal(peerA, peerB);
  }

  lemma PairSharePrefix(c: Crypto, key: Bytes, round: nat, peerA: Digest, peerB: Digest, short: nat, len: nat)
    requires short <= len
    ensures PairShare(c, key, round, peerA, peerB, short) == PairShare(c, key, round, peerA, peerB, len)[..short]
  {
    var s, l := PairShare(c, key, round, peerA, peerB, short), PairShare(c, key, round, peerA, peerB, len);
    assert forall i :: 0 <= i < short ==> s[i] == l[i];
  }

  const MAX_STREAM := 8160

  /** All blocks of one stream use different info strings exactly when the stream has at most 256 blocks. */
  lemma BlocksDistinct(info: Bytes, len: nat)
    ensures (forall i, j :: 0 <= i < len && 0 <= j < len && BlockInfo(info, i / 32) == BlockInfo(info, j / 32) ==> i / 32 == j / 32)
       <==> len <= MAX_STREAM + 32
  {
    if len <= MAX_STREAM + 32 {
      forall i, j | 0 <= i < len && 0 <= j < len && BlockInfo(info, i / 32) == BlockInfo(info, j / 32)
        ensures i / 32 == j / 32
      {
        assert BlockInfo(info, i / 32)[|info|] == BlockInfo(info, j / 32)[|info|];
        assert i / 32 < 256 && j / 32 < 256;
      }
    } else {
      assert BlockInfo(info, 0 / 32) == BlockInfo(info, 8192 / 32);
    }
  }

  /**
   * No block of key stream is ever used twice: up to 256 blocks a stream, two blocks have the
   * same info string exactly when round, pair of peers and position are the same.
   */
  lemma PadsNeverReused(r: nat, a: Digest, b: Digest, k: nat, r': nat, a': Digest, b': Digest, k': nat)
    requires r < 0x1_0000_0000_0000_0000 && r' < 0x1_0000_0000_0000_0000 && k < 256 && k' < 256
    ensures BlockInfo(PairInfo(r, a, b), k) == BlockInfo(PairInfo(r', a', b'), k')
       <==> r == r' && k == k' && ((a == a' && b == b') || (a == b' && b == a'))
  {
    if BlockInfo(PairInfo(r, a, b), k) == BlockInfo(PairInfo(r', a', b'), k') {
      SplitFields(PairInfo(r, a, b), [k % 256], PairInfo(r', a', b'), [k' % 256]);
      PairInfoInjective(r, a, b, r', a', b');
    }
    LessTotal(a, b);
  }

  /**
   * Appends 32-byte blocks until the stream is long enough. The block counter
   * is an 8-bit integer; `overflowed` reports that incrementing it overflowed.
   */
  method ExpandBlocks(c: Crypto, key: Bytes, info: Bytes, len: nat) returns (out: Bytes, overflowed: bool)
    ensures out == KeyStream(c, key, info, len)
    ensures overflowed <==> len > MAX_STREAM
  {
    out := [];
    var blockIndex: nat := 0;
    overflowed := false;
    ghost var blocks: nat := 0;
    while |out| < len
      invariant out == KeyStream(c, key, info, 32 * blocks)
      invariant blockIndex == blocks % 256 && 32 * blocks < len + 32
      invariant overflowed <==> blocks > 255
    {
      assert BlockInfo(info, blockIndex) == BlockInfo(info, blocks);
      KeyStreamExtend(c, key, info, blocks);
      out := out + c.hkdf(key, BlockInfo(info, blockIndex));
      overflowed := overflowed || blockIndex == 255;
      blockIndex := (blockIndex + 1) % 256;
      blocks := blocks + 1;
    }
    out := out[..len];
    assert out == KeyStream(c, key, info, len);
  }

  method DerivePairShare(c: Crypto, key: Bytes, round: nat, peerA: Digest, peerB: Digest, len: nat)
    returns (out: Bytes, overflowed: bool)
    ensures out == PairShare(c, key, round, peerA, peerB, len)
    ensures |out| == len && forall i :: 0 <= i < len ==> out[i] == c.hkdf(key, BlockInfo(PairInfo(round, peerA, peerB), i / 32))[i % 32]
    ensures overflowed <==> len > MAX_STREAM
  {
    var info := PairInfo(round, peerA, peerB);
    out, overflowed := ExpandBlocks(c, key, info, len);
  }
}
