/** Byte strings and the little-endian integers stored in them. */
module Bytes {

  newtype Byte = b: int | 0 <= b < 256

  /** `256^k`, the number of values a `k`-byte integer can take. */
  function Pow256(k: nat): (n: nat)
    ensures n >= 1
  {
    if k == 0 then 1 else 256 * Pow256(k - 1)
  }

  /** The value of a little-endian integer. */
  function FromLe(bs: seq<Byte>): (n: nat)
    ensures n < Pow256(|bs|)
  {
    if bs == [] then 0 else bs[0] as nat + 256 * FromLe(bs[1..])
  }

  /** The byte behind `k` others weighs 256 to the power of `k`: the first is the least significant. */
  lemma {:induction false} ByteWeighs(bs: seq<Byte>, b: Byte)
    ensures FromLe(bs + [b]) == FromLe(bs) + b as nat * Pow256(|bs|)
    ensures Pow256(0) == 1 && Pow256(|bs| + 1) == 256 * Pow256(|bs|)
  {
    if bs == [] {
      assert [] + [b] == [b] && [b][1..] == [];
    } else {
      assert (bs + [b])[1..] == bs[1..] + [b];
      ByteWeighs(bs[1..], b);
      assert Pow256(|bs|) == 256 * Pow256(|bs| - 1);
    }
  }

  /** The `k`-byte little-endian form of `n`. */
  function ToLe(n: nat, k: nat): (bs: seq<Byte>)
    ensures |bs| == k
  {
    if k == 0 then [] else [(n % 256) as Byte] + ToLe(n / 256, k - 1)
  }

  lemma {:induction false} LeRoundTrip(n: nat, k: nat)
    requires n < Pow256(k)
    ensures FromLe(ToLe(n, k)) == n
  {
    if k > 0 {
      LeRoundTrip(n / 256, k - 1);
      assert ToLe(n, k)[1..] == ToLe(n / 256, k - 1);
    }
  }

  lemma {:induction false} LeInverse(bs: seq<Byte>)
    ensures ToLe(FromLe(bs), |bs|) == bs
  {
    if bs != [] {
      LeInverse(bs[1..]);
      assert FromLe(bs) % 256 == bs[0] as nat && FromLe(bs) / 256 == FromLe(bs[1..]);
      assert bs == [bs[0]] + bs[1..];
    }
  }

  function Zeros(n: nat): (bs: seq<Byte>)
    ensures |bs| == n && forall i :: 0 <= i < n ==> bs[i] == 0
  {
    seq(n, i => 0)
  }
}
