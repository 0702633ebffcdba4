/** Bytes as they travel on the wire, and the big-endian reads and writes every parser shares. */
module Wire {

  type Byte = b: int | 0 <= b < 256
  type Bytes = seq<Byte>

  // The source's unsigned arithmetic: an operation that would wrap does not verify.
  newtype uint32 = x: int | 0 <= x < 0x1_0000_0000

  datatype Option<+T> = None | Some(value: T)

  function Min(a: int, b: int): int { if a < b then a else b }

  function Rd16(b: Bytes, i: nat): (n: nat)
    requires i + 2 <= |b|
    ensures n < 0x1_0000
  {
    b[i] as int * 256 + b[i + 1]
  }

  function Rd24(b: Bytes, i: nat): (n: nat)
    requires i + 3 <= |b|
    ensures n < 0x100_0000
  {
    b[i] as int * 0x1_0000 + b[i + 1] as int * 256 + b[i + 2]
  }

  function U16(n: nat): (b: Bytes)
    requires n < 0x1_0000
    ensures |b| == 2 && Rd16(b, 0) == n
  {
    [n / 256, n % 256]
  }

  function U24(n: nat): (b: Bytes)
    requires n < 0x100_0000
    ensures |b| == 3 && Rd24(b, 0) == n
  {
    [n / 0x1_0000, n / 256 % 256, n % 256]
  }

  /** Reading is the inverse of writing in the other order too. */
  lemma Rd16Inverse(b: Bytes, i: nat)
    requires i + 2 <= |b|
    ensures U16(Rd16(b, i)) == b[i..i + 2]
  {
    var n := Rd16(b, i);
    assert n / 256 == b[i] && n % 256 == b[i + 1];
  }

  lemma SliceOfSlice(p: Bytes, a: nat, b: nat, i: nat, j: nat)
    requires a <= b <= |p| && i <= j <= b - a
    ensures p[a..b][i..j] == p[a + i..a + j]
  {
    var x := p[a..b][i..j];
    assert forall k | 0 <= k < |x| :: x[k] == p[a..b][i + k] == p[a + i + k];
  }

  lemma Regroup(a: Bytes, b: Bytes, c: Bytes, d: Bytes)
    ensures a + (b + c) + d == a + b + (c + d)
  {}

  /** A vector with a one-byte or two-byte length in front, and what follows it. */
  lemma Vector8(b: Bytes)
    requires |b| >= 1 && |b| >= 1 + b[0] as int
    ensures b == ([b[0]] + b[1..1 + b[0] as int]) + b[1 + b[0] as int..]
  {}

  lemma Vector16(b: Bytes)
    requires |b| >= 2 && |b| >= 2 + Rd16(b, 0)
    ensures b == (U16(Rd16(b, 0)) + b[2..2 + Rd16(b, 0)]) + b[2 + Rd16(b, 0)..]
  {
    Rd16Inverse(b, 0);
    assert b == b[0..2] + b[2..2 + Rd16(b, 0)] + b[2 + Rd16(b, 0)..];
  }

  /** A block behind a two-byte declared length, which may also run past the end. */
  lemma Declared(d: Bytes)
    requires |d| >= 2
    ensures var e := Min(|d|, 2 + Rd16(d, 0)); d == U16(Rd16(d, 0)) + d[2..e] + d[e..]
  {
    Rd16Inverse(d, 0);
    var e := Min(|d|, 2 + Rd16(d, 0));
    assert d == d[0..2] + d[2..e] + d[e..];
  }

  lemma Assoc(a: Bytes, b: Bytes, c: Bytes)
    ensures a + (b + c) == a + b + c && a + [] == a
  {}
}
