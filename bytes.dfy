/** Bytes and fixed-width little-endian integers, as `struct.pack` with a
    `<` format and `array('h').tobytes()` on a little-endian host lay them
    out. */
module Bytes {

  type byte = b: int | 0 <= b < 256

  function Pow256(n: nat): (p: nat)
    ensures p >= 1
  {
    if n == 0 then 1 else 256 * Pow256(n - 1)
  }

  lemma Pow256Values()
    ensures Pow256(2) == 0x1_0000 && Pow256(4) == 0x1_0000_0000
  {
    assert Pow256(1) == 256;
    assert Pow256(3) == 0x100_0000;
  }

  /** The `n` little-endian bytes of the unsigned value `x`. */
  function LE(x: nat, n: nat): (r: seq<byte>)
    requires x < Pow256(n)
    ensures |r| == n
    decreases n
  {
    if n == 0 then [] else [x % 256] + LE(x / 256, n - 1)
  }

  /** The unsigned value of a little-endian byte string. */
  function FromLE(s: seq<byte>): (x: nat)
    ensures x < Pow256(|s|)
  {
    if s == [] then 0 else s[0] + 256 * FromLE(s[1..])
  }

  /** Reading back what `LE` wrote recovers the value. */
  lemma {:induction false} FromLEOfLE(x: nat, n: nat)
    requires x < Pow256(n)
    ensures FromLE(LE(x, n)) == x
    decreases n
  {
    if n > 0 {
      assert x / 256 < Pow256(n - 1);
      FromLEOfLE(x / 256, n - 1);
      assert LE(x, n)[1..] == LE(x / 256, n - 1);
    }
  }

  /** `LE` is the only way to write a byte string: any bytes are the
      encoding of their own value. */
  lemma {:induction false} LEOfFromLE(s: seq<byte>)
    ensures LE(FromLE(s), |s|) == s
  {
    if s != [] {
      LEOfFromLE(s[1..]);
      assert FromLE(s) % 256 == s[0];
      assert FromLE(s) / 256 == FromLE(s[1..]);
    }
  }

  /** Two's-complement 16-bit value of a Python int in the 'h' range. */
  predicate IsShort(q: int) {
    -32768 <= q <= 32767
  }

  /** The two bytes `array('h', [q]).tobytes()` writes, little-endian. */
  function ShortBytes(q: int): (r: seq<byte>)
    requires IsShort(q)
    ensures |r| == 2
  {
    LE(if q < 0 then q + 65536 else q, 2)
  }

  /** The signed value of two little-endian bytes. */
  function ShortOf(b: seq<byte>): (q: int)
    requires |b| == 2
    ensures IsShort(q)
  {
    var u := FromLE(b);
    if u >= 32768 then u - 65536 else u
  }

  lemma ShortRoundTrip(q: int)
    requires IsShort(q)
    ensures ShortOf(ShortBytes(q)) == q
  {
    FromLEOfLE(if q < 0 then q + 65536 else q, 2);
  }
}
