/** Facts about sequences that several proofs lean on. */
module Seqs {

  lemma AppendAssoc<T>(a: seq<T>, b: seq<T>, c: seq<T>)
    ensures (a + b) + c == a + (b + c)
  {
  }

  /** `n` copies of `x`. */
  function Repeat<T>(x: T, n: nat): (r: seq<T>)
    ensures |r| == n
    ensures forall k :: 0 <= k < n ==> r[k] == x
  {
    seq(n, k => x)
  }

  /** Copies of `x` one after the other are copies of `x`. */
  lemma RepeatConcat<T>(x: T, m: nat, n: nat)
    ensures Repeat(x, m) + Repeat(x, n) == Repeat(x, m + n)
  {
    var both := Repeat(x, m) + Repeat(x, n);
    assert forall k :: 0 <= k < m + n ==> both[k] == x;
  }

  /** The elements of a prefix are unchanged in any extension of it. */
  lemma SliceOfPrefix<T>(a: seq<T>, b: seq<T>, i: nat, j: nat)
    requires a <= b && i <= j <= |a|
    ensures b[i..j] == a[i..j]
  {
    assert b[..|a|] == a;
  }
}
