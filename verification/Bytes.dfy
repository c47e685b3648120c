/** Byte strings as the mock server reads and writes them: big-endian integers of Python's
    `struct` module and Python's slices.
 */
module Bytes {
  import opened Options

  type byte = x: int | 0 <= x < 256

  type bytes = seq<byte>

  function Pow256(n: nat): (p: nat)
    ensures p > 0
  {
    if n == 0 then 1 else 256 * Pow256(n - 1)
  }

  function ToBE(n: nat, v: nat): (b: bytes)
    requires v < Pow256(n)
    ensures |b| == n
  {
    if n == 0 then [] else ToBE(n - 1, v / 256) + [v % 256]
  }

  function FromBE(b: bytes): (v: nat)
    ensures v < Pow256(|b|)
  {
    if b == [] then 0 else FromBE(b[..|b| - 1]) * 256 + b[|b| - 1]
  }

  lemma {:induction false} FromToBE(n: nat, v: nat)
    requires v < Pow256(n)
    ensures FromBE(ToBE(n, v)) == v
  {
    if n > 0 {
      var front := ToBE(n - 1, v / 256);
      assert ToBE(n, v)[..n - 1] == front;
      FromToBE(n - 1, v / 256);
    }
  }

  lemma {:induction false} ToFromBE(b: bytes)
    ensures ToBE(|b|, FromBE(b)) == b
  {
    if b != [] {
      ToFromBE(b[..|b| - 1]);
    }
  }

  /** The integers a signed field of `n` bytes can hold. */
  predicate Fits(n: nat, v: int) {
    0 <= 2 * v + Pow256(n) && 2 * v < Pow256(n)
  }

  function PackSigned(n: nat, v: int): (b: bytes)
    requires Fits(n, v)
    ensures |b| == n
  {
    ToBE(n, if v < 0 then v + Pow256(n) else v)
  }

  function UnpackSigned(b: bytes): (v: int)
    ensures Fits(|b|, v)
  {
    var u := FromBE(b);
    if 2 * u < Pow256(|b|) then u else u - Pow256(|b|)
  }

  lemma UnpackPack(n: nat, v: int)
    requires Fits(n, v)
    ensures UnpackSigned(PackSigned(n, v)) == v
  {
    FromToBE(n, if v < 0 then v + Pow256(n) else v);
  }

  /** Python's `s[a:b]`: negative bounds count from the end, and bounds are clamped. */
  function Slice(s: bytes, a: int, b: int): bytes {
    var lo := Clamp(if a < 0 then a + |s| else a, |s|);
    var hi := Clamp(if b < 0 then b + |s| else b, |s|);
    if lo <= hi then s[lo..hi] else []
  }

  function Clamp(x: int, n: nat): nat {
    if x < 0 then 0 else if x > n then n else x
  }

  /** `struct.unpack` of a signed field of `n` bytes at the cursor; None is `struct.error`. */
  function ReadSigned(n: nat, m: bytes, off: int): (r: Option<int>)
    ensures r.Some? ==> Fits(n, r.value)
  {
    var field := Slice(m, off, off + n);
    if |field| == n then Some(UnpackSigned(field)) else None
  }

  /** `e` stands in `m` at `off`. */
  predicate At(m: bytes, off: int, e: bytes) {
    0 <= off && off + |e| <= |m| && m[off..off + |e|] == e
  }

  lemma AtWhole(m: bytes)
    ensures At(m, 0, m)
  {
  }

  lemma AtSplit(m: bytes, off: int, a: bytes, b: bytes)
    requires At(m, off, a + b)
    ensures At(m, off, a) && At(m, off + |a|, b)
  {
    assert m[off..off + |a|] == m[off..off + |a + b|][..|a|] == (a + b)[..|a|] == a;
    assert m[off + |a|..off + |a| + |b|] == m[off..off + |a + b|][|a|..] == (a + b)[|a|..] == b;
  }

  lemma ReadAt(n: nat, v: int, m: bytes, off: int)
    requires Fits(n, v) && At(m, off, PackSigned(n, v))
    ensures ReadSigned(n, m, off) == Some(v)
  {
    UnpackPack(n, v);
  }

  /** Read a field and split it off the front of what stands at the cursor. */
  lemma ReadFront(n: nat, v: int, m: bytes, off: int, rest: bytes)
    requires Fits(n, v) && At(m, off, PackSigned(n, v) + rest)
    ensures off + n <= |m| && ReadSigned(n, m, off) == Some(v) && At(m, off + n, rest)
  {
    AtSplit(m, off, PackSigned(n, v), rest);
    ReadAt(n, v, m, off);
  }

  lemma Widths()
    ensures Pow256(2) == 0x1_0000 && Pow256(4) == 0x1_0000_0000
    ensures Pow256(8) == 0x1_0000_0000_0000_0000
  {
    assert Pow256(3) == 0x100_0000;
    assert Pow256(5) == 0x100_0000_0000;
    assert Pow256(6) == 0x1_0000_0000_0000;
    assert Pow256(7) == 0x100_0000_0000_0000;
  }

  lemma ZeroPacked()
    ensures Fits(4, 0) && PackSigned(4, 0) == ToBE(4, 0)
  {
  }

  /** The first byte is the highest digit. */
  lemma {:induction false} FirstIsHighest(b: bytes)
    requires b != []
    ensures FromBE(b) == b[0] * Pow256(|b| - 1) + FromBE(b[1..])
    decreases b
  {
    hide Pow256;
    var n := |b| - 1;
    PowStep(n);
    if n == 0 {
      assert b[..0] == b[1..] == [] && FromBE([]) == 0;
    } else {
      PowStep(n - 1);
      FirstIsHighest(b[..n]);
      assert b[..n][1..] == b[1..][..n - 1];
      Distribute(b[0], Pow256(n - 1), FromBE(b[1..n]));
    }
  }

  lemma PowStep(n: nat)
    ensures Pow256(0) == 1 && Pow256(n + 1) == 256 * Pow256(n)
  {
  }

  lemma Distribute(a: nat, p: nat, x: nat)
    ensures (a * p + x) * 256 == a * (256 * p) + x * 256
    ensures x < p ==> (a >= 128 <==> 2 * (a * p + x) >= 256 * p)
  {
    if a >= 128 { assert a * p >= 128 * p; } else { assert a * p <= 127 * p; }
  }

  /** A signed field is negative exactly when its first bit is set, and then lies 256^n lower. */
  lemma TwosComplement(b: bytes)
    requires b != []
    ensures UnpackSigned(b) == FromBE(b) - if b[0] >= 128 then Pow256(|b|) else 0
  {
    hide Pow256, FromBE;
    FirstIsHighest(b);
    PowStep(|b| - 1);
    Distribute(b[0], Pow256(|b| - 1), FromBE(b[1..]));
  }

  lemma TwoBytes(a: byte, b: byte)
    ensures FromBE([a, b]) == 256 * a + b
  {
    var both: bytes := [a, b];
    assert both[..1] == [a] && both[..1][..0] == [];
  }

  /** Slices with bounds inside, past the end, and counted from the end. */
  lemma SliceCases(s: bytes, a: int, b: int)
    ensures 0 <= a <= b <= |s| ==> Slice(s, a, b) == s[a..b]
    ensures 0 <= b < a ==> Slice(s, a, b) == []
    ensures b > |s| ==> Slice(s, a, b) == Slice(s, a, |s|)
    ensures a > |s| ==> Slice(s, a, b) == []
    ensures -|s| <= a < 0 ==> Slice(s, a, b) == Slice(s, a + |s|, b)
    ensures -|s| <= b < 0 ==> Slice(s, a, b) == Slice(s, a, b + |s|)
    ensures a < -|s| ==> Slice(s, a, b) == Slice(s, 0, b)
    ensures b < -|s| ==> Slice(s, a, b) == []
  {
  }
}
