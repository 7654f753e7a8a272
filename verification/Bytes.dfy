/** Bytes and the fixed-width integers of the wire formats. */
module Bytes {
  type byte = x: int | 0 <= x < 256

  const TWO_16 := 0x1_0000
  const TWO_31 := 0x8000_0000
  const TWO_32 := 0x1_0000_0000

  function U16BE(n: nat): (b: seq<byte>)
    requires n < TWO_16
    ensures |b| == 2
  {
    [n / 256, n % 256]
  }

  function FromU16BE(b: seq<byte>): (n: nat)
    requires |b| == 2
    ensures n < TWO_16
  {
    var hi: int := b[0];
    hi * 256 + b[1]
  }

  lemma U16BERoundTrip(n: nat)
    requires n < TWO_16
    ensures FromU16BE(U16BE(n)) == n
  {
  }

  function Pow256(k: nat): (p: nat)
    ensures p > 0
  {
    if k == 0 then 1 else 256 * Pow256(k - 1)
  }

  /** The i-th base-256 digit of `n`. */
  function Digit(n: nat, i: nat): byte {
    if i == 0 then n % 256 else Digit(n / 256, i - 1)
  }

  /** The low `k` bytes of `n`, least significant first. */
  function LE(n: nat, k: nat): (b: seq<byte>)
    ensures |b| == k
  {
    seq(k, i requires 0 <= i < k => Digit(n, i))
  }

  function FromLE(b: seq<byte>): (n: nat)
    ensures n < Pow256(|b|)
  {
    if b == [] then 0 else b[0] + 256 * FromLE(b[1..])
  }

  lemma {:induction false} LERoundTrip(n: nat, k: nat)
    requires n < Pow256(k)
    ensures FromLE(LE(n, k)) == n
    decreases k
  {
    if k > 0 {
      LERoundTrip(n / 256, k - 1);
      assert LE(n, k)[1..] == LE(n / 256, k - 1);
    }
  }

  /** The low `k` bytes of `n`, most significant first. */
  function BE(n: nat, k: nat): (b: seq<byte>)
    ensures |b| == k
  {
    seq(k, i requires 0 <= i < k => Digit(n, k - 1 - i))
  }

  function FromBE(b: seq<byte>): (n: nat)
    ensures n < Pow256(|b|)
  {
    if b == [] then 0 else 256 * FromBE(b[..|b| - 1]) + b[|b| - 1]
  }

  lemma {:induction false} BERoundTrip(n: nat, k: nat)
    requires n < Pow256(k)
    ensures FromBE(BE(n, k)) == n
    decreases k
  {
    if k > 0 {
      BERoundTrip(n / 256, k - 1);
      forall i | 0 <= i < k - 1 ensures BE(n, k)[i] == BE(n / 256, k - 1)[i] {
        assert Digit(n, k - 1 - i) == Digit(n / 256, k - 2 - i);
      }
      assert BE(n, k)[..k - 1] == BE(n / 256, k - 1);
      assert BE(n, k)[k - 1] == Digit(n, 0) == n % 256;
    }
  }

  lemma Word32()
    ensures Pow256(4) == TWO_32
  {
    assert Pow256(1) == 256 && Pow256(2) == 0x1_0000 && Pow256(3) == 0x100_0000;
  }

  /** A 32-bit word read as a two's complement integer. */
  function Int32(n: nat): (i: int)
    requires n < TWO_32
    ensures -TWO_31 <= i < TWO_31
  {
    if n < TWO_31 then n else n - TWO_32
  }

  function Zeros(n: nat): seq<byte> {
    seq(n, _ => 0)
  }

  /** An address in its 16-byte form. */
  type IP = b: seq<byte> | |b| == 16 witness [0, 0, 0, 0, 0, 0, 0, 0, 0, 0, 0, 0, 0, 0, 0, 0]

  const V4_PREFIX: seq<byte> := [0, 0, 0, 0, 0, 0, 0, 0, 0, 0, 0xFF, 0xFF]

  predicate IsV4(ip: IP) {
    ip[..12] == V4_PREFIX
  }

  function Min(a: nat, b: nat): nat {
    if a <= b then a else b
  }

  function Concat(chunks: seq<seq<byte>>): seq<byte> {
    if chunks == [] then [] else chunks[0] + Concat(chunks[1..])
  }

  lemma {:induction false} ConcatAppend(a: seq<seq<byte>>, b: seq<seq<byte>>)
    ensures Concat(a + b) == Concat(a) + Concat(b)
  {
    if a == [] {
      assert a + b == b;
    } else {
      assert (a + b)[1..] == a[1..] + b;
      ConcatAppend(a[1..], b);
    }
  }
}
