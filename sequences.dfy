/** Lists built by pushing one element per position, as the rule loops do. */
module Sequences {

  /** `f` applied to each of the first `k` elements of `xs` with its index, in order: what the
      first `k` pushes of a loop over `xs` produce. */
  function MapIndexed<A, B>(xs: seq<A>, f: (nat, A) -> B, k: nat): (ys: seq<B>)
    requires k <= |xs|
    ensures |ys| == k
  {
    if k == 0 then [] else MapIndexed(xs, f, k - 1) + [f(k - 1, xs[k - 1])]
  }

  /** Position `i` holds the value pushed for `xs[i]`. */
  lemma {:induction false} MapIndexedAt<A, B>(xs: seq<A>, f: (nat, A) -> B, k: nat, i: nat)
    requires i < k <= |xs|
    ensures MapIndexed(xs, f, k)[i] == f(i, xs[i])
  {
    if i < k - 1 {
      MapIndexedAt(xs, f, k - 1, i);
    }
  }
}
