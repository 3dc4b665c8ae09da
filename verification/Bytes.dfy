/** Bytes, machine words and their little-endian encodings. */
module Bytes {
  datatype Option<+T> = None | Some(value: T)

  type u8 = b: int | 0 <= b < 256
  type u32 = n: int | 0 <= n < TWO_32
  type u64 = n: int | 0 <= n < TWO_64

  const TWO_32: nat := 0x1_0000_0000
  const TWO_64: nat := 0x1_0000_0000_0000_0000
  const TWO_256: nat :=
    0x1_0000_0000_0000_0000_0000_0000_0000_0000_0000_0000_0000_0000_0000_0000_0000_0000

  /** A 32-byte public key, named by the number its bytes spell. */
  type Key = n: int | 0 <= n < TWO_256

  function Pow256(n: nat): nat {
    if n == 0 then 1 else 256 * Pow256(n - 1)
  }

  lemma {:induction false} PowAdd(m: nat, n: nat)
    ensures Pow256(m + n) == Pow256(m) * Pow256(n)
  {
    if m > 0 {
      PowAdd(m - 1, n);
    }
  }

  lemma WordSizes()
    ensures Pow256(4) == TWO_32 && Pow256(8) == TWO_64 && Pow256(32) == TWO_256
  {
    PowAdd(4, 4);
    PowAdd(8, 8);
    PowAdd(16, 16);
  }

  function ToLE(v: nat, n: nat): (b: seq<u8>)
    ensures |b| == n
  {
    if n == 0 then [] else [v % 256] + ToLE(v / 256, n - 1)
  }

  function FromLE(b: seq<u8>): (v: nat)
    ensures v < Pow256(|b|)
  {
    if b == [] then 0 else b[0] + 256 * FromLE(b[1..])
  }

  /** Reading back an encoded word gives the word, whenever it fits. */
  lemma {:induction false} FromToLE(v: nat, n: nat)
    requires v < Pow256(n)
    ensures FromLE(ToLE(v, n)) == v
  {
    if n > 0 {
      FromToLE(v / 256, n - 1);
      assert ToLE(v, n)[1..] == ToLE(v / 256, n - 1);
    }
  }

  /** Every byte string is the encoding of the word it spells. */
  lemma {:induction false} ToFromLE(b: seq<u8>)
    ensures ToLE(FromLE(b), |b|) == b
  {
    if b != [] {
      ToFromLE(b[1..]);
      assert FromLE(b) / 256 == FromLE(b[1..]) && FromLE(b) % 256 == b[0];
    }
  }

  function WordOf(b: seq<u8>): (v: u64)
    requires |b| == 8
  {
    WordSizes();
    FromLE(b)
  }

  function KeyOf(b: seq<u8>): (k: Key)
    requires |b| == 32
  {
    WordSizes();
    FromLE(b)
  }

  lemma KeyRoundTrip(k: Key)
    ensures KeyOf(ToLE(k, 32)) == k
  {
    WordSizes();
    FromToLE(k, 32);
  }

  lemma WordRoundTrip(w: u64)
    ensures WordOf(ToLE(w, 8)) == w
  {
    WordSizes();
    FromToLE(w, 8);
  }

  lemma Cut(a: seq<u8>, b: seq<u8>)
    ensures (a + b)[..|a|] == a && (a + b)[|a|..] == b
  {
  }

  lemma Regroup(a: seq<u8>, b: seq<u8>, c: seq<u8>)
    ensures a + b + c == a + (b + c)
  {
  }

  function Zeros(n: nat): (b: seq<u8>)
    ensures |b| == n
    ensures forall i :: 0 <= i < n ==> b[i] == 0
  {
    seq(n, _ => 0)
  }

  predicate AllZero(b: seq<u8>) {
    forall i :: 0 <= i < |b| ==> b[i] == 0
  }

  /** `whole` is `part` followed only by zero bytes. */
  predicate ZeroExtends(whole: seq<u8>, part: seq<u8>) {
    |part| <= |whole| && whole == part + Zeros(|whole| - |part|)
  }

  /** Overwrite the bytes of `d` from `off` on by `b`. */
  function Splice(d: seq<u8>, off: nat, b: seq<u8>): (r: seq<u8>)
    requires off + |b| <= |d|
    ensures |r| == |d|
    ensures forall i :: 0 <= i < |d| ==> r[i] == if off <= i < off + |b| then b[i - off] else d[i]
  {
    d[..off] + b + d[off + |b|..]
  }
}
