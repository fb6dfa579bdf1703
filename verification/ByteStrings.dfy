/** Byte strings, their bytewise order, big-endian integers and XOR. */
module ByteStrings {

  type Byte = x: int | 0 <= x < 256

  type Bytes = seq<Byte>

  type Digest = d: Bytes | |d| == 32 witness Zeros(32)

  // User ids are compared by the program as UTF-8 byte strings.
  type Uid = Bytes

  datatype Option<+T> = None | Some(value: T)

  function Zeros(n: nat): (z: Bytes)
    ensures |z| == n
    ensures forall i :: 0 <= i < n ==> z[i] == 0
  {
    seq(n, _ => 0)
  }

  /** The bytes of an ASCII literal. */
  function Ascii(s: string): (b: Bytes)
    ensures |b| == |s|
  {
    seq(|s|, i requires 0 <= i < |s| => s[i] as int % 256)
  }

  // ---- Lexicographic order ----

  predicate Less(a: Bytes, b: Bytes) {
    b != [] && (a == [] || a[0] < b[0] || (a[0] == b[0] && Less(a[1..], b[1..])))
  }

  lemma {:induction false} LessTotal(a: Bytes, b: Bytes)
    ensures a == b || Less(a, b) || Less(b, a)
    ensures !(Less(a, b) && Less(b, a))
  {
    if a != [] && b != [] {
      LessTotal(a[1..], b[1..]);
      assert a == [a[0]] + a[1..] && b == [b[0]] + b[1..];
    }
  }

  lemma {:induction false} LessTransitive(a: Bytes, b: Bytes, c: Bytes)
    requires Less(a, b) && Less(b, c)
    ensures Less(a, c)
  {
    if a != [] && a[0] == b[0] == c[0] {
      LessTransitive(a[1..], b[1..], c[1..]);
    }
  }

  /** Every nonempty finite set of uids has a lowest element. */
  lemma {:induction false} LowestExists(s: set<Uid>) returns (m: Uid)
    requires s != {}
    ensures m in s && forall u :: u in s && u != m ==> Less(m, u)
    decreases s
  {
    var x :| x in s;
    if s == {x} {
      m := x;
    } else {
      var rest := s - {x};
      assert s == rest + {x};
      var y := LowestExists(rest);
      LessTotal(x, y);
      m := if Less(x, y) then x else y;
      forall u | u in s && u != m ensures Less(m, u) {
        if Less(x, y) && u != y {
          LessTransitive(x, y, u);
        }
      }
    }
  }

  // ---- Big-endian integers ----

  /** The low 32 bits, most significant byte first. */
  function U32(n: nat): (b: Bytes)
    ensures |b| == 4
  {
    [n / 0x100_0000 % 256, n / 0x1_0000 % 256, n / 0x100 % 256, n % 256]
  }

  function FromU32(b: Bytes): nat
    requires |b| == 4
  {
    b[0] as int * 0x100_0000 + b[1] as int * 0x1_0000 + b[2] as int * 0x100 + b[3]
  }

  lemma Digits(n: nat)
    ensures n % 0x1_0000_0000
         == (n / 0x100_0000) % 256 * 0x100_0000 + (n / 0x1_0000) % 256 * 0x1_0000 + (n / 0x100) % 256 * 0x100 + n % 256
  {
    assert n / 0x1_0000 == n / 0x100 / 0x100;
    assert n / 0x100_0000 == n / 0x1_0000 / 0x100;
    assert n / 0x1_0000_0000 == n / 0x100_0000 / 0x100;
  }

  /** Encoding truncates to 32 bits; decoding gives back exactly the truncated value. */
  lemma U32RoundTrip(n: nat)
    ensures FromU32(U32(n)) == n % 0x1_0000_0000
  {
    Digits(n);
  }

  function U64(n: nat): (b: Bytes)
    ensures |b| == 8
  {
    U32(n / 0x1_0000_0000) + U32(n)
  }

  lemma U64Halves(n: nat, hi: Bytes, lo: Bytes)
    requires hi == U32(n / 0x1_0000_0000) && lo == U32(n)
    ensures U64(n)[..4] == hi && U64(n)[4..] == lo
  {
  }

  lemma HalvesOf(n: nat, hi: nat)
    requires n < 0x1_0000_0000_0000_0000 && hi == n / 0x1_0000_0000
    ensures hi % 0x1_0000_0000 == hi && hi * 0x1_0000_0000 + n % 0x1_0000_0000 == n
  {
  }

  lemma U64RoundTrip(n: nat)
    requires n < 0x1_0000_0000_0000_0000
    ensures FromU32(U64(n)[..4]) * 0x1_0000_0000 + FromU32(U64(n)[4..]) == n
  {
    var hi := n / 0x1_0000_0000;
    var x, y := U32(hi), U32(n);
    U32RoundTrip(hi);
    U32RoundTrip(n);
    U64Halves(n, x, y);
    HalvesOf(n, hi);
  }

  lemma U64Injective(a: nat, b: nat)
    requires a < 0x1_0000_0000_0000_0000 && b < 0x1_0000_0000_0000_0000 && U64(a) == U64(b)
    ensures a == b
  {
    U64RoundTrip(a);
    U64RoundTrip(b);
  }

  lemma LessCons(x: Byte, y: Byte, a: Bytes, b: Bytes)
    ensures Less([x] + a, [y] + b) <==> x < y || (x == y && Less(a, b))
  {
    assert ([x] + a)[1..] == a && ([y] + b)[1..] == b;
  }

  lemma FourLess(x: Bytes, y: Bytes)
    requires |x| == 4 && |y| == 4
    ensures Less(x, y) <==> x[0] < y[0] || (x[0] == y[0] && (x[1] < y[1] || (x[1] == y[1] && (x[2] < y[2] || (x[2] == y[2] && x[3] < y[3])))))
  {
    assert x == [x[0]] + x[1..] && y == [y[0]] + y[1..];
    LessCons(x[0], y[0], x[1..], y[1..]);
    assert x[1..] == [x[1]] + x[2..] && y[1..] == [y[1]] + y[2..];
    LessCons(x[1], y[1], x[2..], y[2..]);
    assert x[2..] == [x[2]] + x[3..] && y[2..] == [y[2]] + y[3..];
    LessCons(x[2], y[2], x[3..], y[3..]);
    assert x[3..] == [x[3]] + [] && y[3..] == [y[3]] + [];
    LessCons(x[3], y[3], [], []);
  }

  /** Most significant byte first: the order of the bytes is the order of the numbers. */
  lemma BigEndian(x: Bytes, y: Bytes)
    requires |x| == 4 && |y| == 4
    ensures Less(x, y) <==> FromU32(x) < FromU32(y)
  {
    FourLess(x, y);
  }

  // ---- Fields of a message ----

  /** Two equal messages whose first fields are equally long agree field by field. */
  lemma SplitFields(a: Bytes, ra: Bytes, b: Bytes, rb: Bytes)
    requires a + ra == b + rb && |a| == |b|
    ensures a == b && ra == rb
  {
    assert a == (a + ra)[..|a|] && b == (b + rb)[..|b|];
    assert ra == (a + ra)[|a|..] && rb == (b + rb)[|b|..];
  }

  function Prefixed(b: Bytes): Bytes {
    U32(|b|) + b
  }

  lemma PrefixedParts(a: Bytes, rest: Bytes, m: Bytes)
    requires m == Prefixed(a) + rest && |a| < 0x1_0000_0000
    ensures |m| >= 4 && FromU32(m[..4]) == |a| && |m| >= 4 + |a| && m[4..4 + |a|] == a && m[4 + |a|..] == rest
  {
    assert m[..4] == U32(|a|);
    U32RoundTrip(|a|);
  }

  lemma PrefixedSplit(a: Bytes, ra: Bytes, b: Bytes, rb: Bytes)
    requires Prefixed(a) + ra == Prefixed(b) + rb && |a| < 0x1_0000_0000 && |b| < 0x1_0000_0000
    ensures a == b && ra == rb
  {
    PrefixedParts(a, ra, Prefixed(a) + ra);
    PrefixedParts(b, rb, Prefixed(a) + ra);
  }

  lemma U64Split(a: nat, ra: Bytes, b: nat, rb: Bytes)
    requires U64(a) + ra == U64(b) + rb && a < 0x1_0000_0000_0000_0000 && b < 0x1_0000_0000_0000_0000
    ensures a == b && ra == rb
  {
    SplitFields(U64(a), ra, U64(b), rb);
    U64Injective(a, b);
  }

  // ---- XOR ----

  function XorNat(a: nat, b: nat): nat {
    if a == 0 && b == 0 then 0 else 2 * XorNat(a / 2, b / 2) + (if a % 2 == b % 2 then 0 else 1)
  }

  function Pow2(k: nat): nat {
    if k == 0 then 1 else 2 * Pow2(k - 1)
  }

  lemma {:induction false} XorBound(a: nat, b: nat, k: nat)
    requires a < Pow2(k) && b < Pow2(k)
    ensures XorNat(a, b) < Pow2(k)
    decreases k
  {
    if k > 0 {
      XorBound(a / 2, b / 2, k - 1);
    }
  }

  lemma {:induction false} XorNatCommutes(a: nat, b: nat)
    ensures XorNat(a, b) == XorNat(b, a)
    decreases a + b
  {
    if a != 0 || b != 0 {
      XorNatCommutes(a / 2, b / 2);
    }
  }

  lemma XorHalves(a: nat, b: nat)
    ensures XorNat(a, b) / 2 == XorNat(a / 2, b / 2) && XorNat(a, b) % 2 == (if a % 2 == b % 2 then 0 else 1)
  {
  }

  lemma {:induction false} XorNatAssociates(a: nat, b: nat, c: nat)
    ensures XorNat(XorNat(a, b), c) == XorNat(a, XorNat(b, c))
    decreases a + b + c
  {
    if a != 0 || b != 0 || c != 0 {
      XorNatAssociates(a / 2, b / 2, c / 2);
      LeftHalves(a, b, c);
      RightHalves(a, b, c);
      Halves(XorNat(XorNat(a, b), c), XorNat(a, XorNat(b, c)));
    }
  }

  lemma LeftHalves(a: nat, b: nat, c: nat)
    ensures var l := XorNat(XorNat(a, b), c);
            l / 2 == XorNat(XorNat(a / 2, b / 2), c / 2) && l % 2 == (if (a % 2 == b % 2) == (c % 2 == 0) then 0 else 1)
  {
    XorHalves(a, b);
    XorHalves(XorNat(a, b), c);
  }

  lemma RightHalves(a: nat, b: nat, c: nat)
    ensures var r := XorNat(a, XorNat(b, c));
            r / 2 == XorNat(a / 2, XorNat(b / 2, c / 2)) && r % 2 == (if (b % 2 == c % 2) == (a % 2 == 0) then 0 else 1)
  {
    XorHalves(b, c);
    XorHalves(a, XorNat(b, c));
  }

  lemma Halves(x: nat, y: nat)
    requires x / 2 == y / 2 && x % 2 == y % 2
    ensures x == y
  {
  }

  lemma {:induction false} XorNatUnits(a: nat)
    ensures XorNat(a, 0) == a && XorNat(a, a) == 0
  {
    if a != 0 {
      XorNatUnits(a / 2);
    }
  }

  function XorByte(a: Byte, b: Byte): Byte {
    XorBound(a, b, 8);
    XorNat(a, b)
  }

  function At(a: Bytes, i: nat): Byte {
    if i < |a| then a[i] else 0
  }

  /** XOR with the shorter operand extended by zeros. */
  function Xor(a: Bytes, b: Bytes): (r: Bytes)
    ensures |r| == if |a| < |b| then |b| else |a|
    ensures forall i :: 0 <= i < |r| ==> r[i] == XorByte(At(a, i), At(b, i))
  {
    seq(if |a| < |b| then |b| else |a|, i requires 0 <= i => XorByte(At(a, i), At(b, i)))
  }

  lemma XorCommutes(a: Bytes, b: Bytes)
    ensures Xor(a, b) == Xor(b, a)
  {
    forall i | 0 <= i < |Xor(a, b)| ensures Xor(a, b)[i] == Xor(b, a)[i] {
      XorNatCommutes(At(a, i), At(b, i));
    }
  }

  lemma XorAssociates(a: Bytes, b: Bytes, c: Bytes)
    ensures Xor(Xor(a, b), c) == Xor(a, Xor(b, c))
  {
    var l, r := Xor(Xor(a, b), c), Xor(a, Xor(b, c));
    forall i | 0 <= i < |l| ensures l[i] == r[i] {
      XorAt(a, b, i);
      XorAt(b, c, i);
      XorNatAssociates(At(a, i), At(b, i), At(c, i));
    }
  }

  lemma XorAt(a: Bytes, b: Bytes, i: nat)
    ensures At(Xor(a, b), i) == XorByte(At(a, i), At(b, i))
  {
    XorNatUnits(0);
  }

  lemma XorZeros(a: Bytes, n: nat)
    requires n <= |a|
    ensures Xor(a, Zeros(n)) == a && Xor(Zeros(n), a) == a
  {
    XorCommutes(a, Zeros(n));
    forall i | 0 <= i < |a| ensures Xor(a, Zeros(n))[i] == a[i] {
      XorNatUnits(a[i]);
    }
  }

  lemma XorSelf(a: Bytes)
    ensures Xor(a, a) == Zeros(|a|)
  {
    forall i | 0 <= i < |a| ensures Xor(a, a)[i] == 0 {
      XorNatUnits(a[i]);
    }
  }

  /** Exchanges the two inner operands of a XOR of XORs. */
  lemma XorExchange(a: Bytes, b: Bytes, c: Bytes, d: Bytes)
    ensures Xor(Xor(a, b), Xor(c, d)) == Xor(Xor(a, c), Xor(b, d))
  {
    XorAssociates(a, b, Xor(c, d));
    XorAssociates(b, c, d);
    XorCommutes(b, c);
    XorAssociates(c, b, d);
    XorAssociates(a, c, Xor(b, d));
  }

  // ---- Enumerations of sets ----

  predicate NoDuplicates<T(==)>(s: seq<T>) {
    forall i, j :: 0 <= i < j < |s| ==> s[i] != s[j]
  }

  ghost predicate Enumerates<T(!new)>(s: seq<T>, elems: set<T>) {
    NoDuplicates(s) && forall x :: x in s <==> x in elems
  }

  lemma {:induction false} EnumerationSize<T(!new)>(s: seq<T>, elems: set<T>)
    requires Enumerates(s, elems)
    ensures |s| == |elems|
    decreases |s|
  {
    if s == [] {
      assert elems == {};
    } else {
      var k := |s| - 1;
      assert s == s[..k] + [s[k]];
      assert s[k] !in s[..k];
      EnumerationSize(s[..k], elems - {s[k]});
    }
  }

  lemma SubsetSize<T>(a: set<T>, b: set<T>)
    requires a <= b
    ensures |a| <= |b|
  {
    assert b == a + (b - a);
  }

  // ---- Sealing ----

  datatype Seal = Seal

  /**
   * The same as p(Seal), as a quantifier over one element: a proof that only passes the fact
   * on is not led to unfold it.
   */
  ghost predicate Sealed(p: Seal -> bool) {
    forall k :: p(k)
  }
}
