/** Hexadecimal text, as keys are written to the log and to snapshots. */
module Hex {
  import opened ByteStrings

  function Digit(n: nat): Byte
    requires n < 16
  {
    if n < 10 then 48 + n else 87 + n
  }

  /** Both letter cases are read. */
  function DigitValue(ch: Byte): Option<nat> {
    if 48 <= ch <= 57 then Some(ch - 48)
    else if 97 <= ch <= 102 then Some(ch - 87)
    else if 65 <= ch <= 70 then Some(ch - 55)
    else None
  }

  function Encode(b: Bytes): (h: Bytes)
    ensures |h| == 2 * |b|
  {
    if b == [] then [] else [Digit(b[0] / 16), Digit(b[0] % 16)] + Encode(b[1..])
  }

  /** Two characters as an 8-bit number; the number parser tolerates a leading plus sign. */
  function Pair(hi: Byte, lo: Byte): (r: Option<Byte>) {
    match DigitValue(lo)
    case None => None
    case Some(y) =>
      if hi == 43 then Some(y)
      else
        match DigitValue(hi)
        case None => None
        case Some(x) => if x < 16 && y < 16 then Some(16 * x + y) else None
  }

  function Decode(h: Bytes): Option<Bytes> {
    if h == [] then Some([])
    else if |h| == 1 then None
    else
      var first, rest := Pair(h[0], h[1]), Decode(h[2..]);
      if first.None? || rest.None? then None else Some([first.value] + rest.value)
  }

  lemma {:induction false} EncodeDecode(b: Bytes)
    ensures Decode(Encode(b)) == Some(b)
  {
    if b != [] {
      var h := Encode(b);
      assert h[2..] == Encode(b[1..]);
      EncodeDecode(b[1..]);
      assert Pair(h[0], h[1]) == Some(b[0]);
      assert [b[0]] + b[1..] == b;
    }
  }

  function UpperDigit(ch: Byte): Byte {
    if 97 <= ch <= 102 then ch - 32 else ch
  }

  function Upper(h: Bytes): (r: Bytes)
    ensures |r| == |h| && forall i :: 0 <= i < |r| ==> r[i] == UpperDigit(h[i])
  {
    seq(|h|, i requires 0 <= i < |h| => UpperDigit(h[i]))
  }

  /** Another spelling of the same bytes, different as soon as there is a lower-case letter. */
  lemma {:induction false} UpperSpells(h: Bytes)
    ensures Decode(Upper(h)) == Decode(h)
    ensures Upper(h) != h <==> exists i :: 0 <= i < |h| && 97 <= h[i] <= 102
    decreases |h|
  {
    if |h| >= 2 {
      UpperSpells(h[2..]);
      assert Upper(h)[2..] == Upper(h[2..]);
      assert Pair(Upper(h)[0], Upper(h)[1]) == Pair(h[0], h[1]);
    }
    if i :| 0 <= i < |h| && 97 <= h[i] <= 102 {
      assert Upper(h)[i] != h[i];
    } else {
      assert Upper(h) == h;
    }
  }

  /** A byte below 16 can also be written with a plus sign in place of the zero. */
  lemma {:induction false} PlusSpells(h: Bytes, i: nat)
    requires 2 * i + 1 < |h| && h[2 * i] == 48 && h[2 * i + 1] != 43
    ensures Decode(h[2 * i := 43]) == Decode(h)
    decreases i
  {
    var h' := h[2 * i := 43];
    if i == 0 {
      assert h'[2..] == h[2..];
    } else {
      assert h'[2..] == h[2..][2 * (i - 1) := 43];
      PlusSpells(h[2..], i - 1);
    }
  }

  type EdgeKey = Digest

  function KeyFromHex(h: Bytes): Option<EdgeKey> {
    match Decode(h)
    case None => None
    case Some(b) => if |b| == 32 then Some(b) else None
  }

  lemma KeyRoundTrip(k: EdgeKey)
    ensures KeyFromHex(Encode(k)) == Some(k)
  {
    EncodeDecode(k);
  }
}
