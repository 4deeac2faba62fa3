/** Order-preserving filtering of sequences, the shape of the stream
    `filter` / `filter_map` stages in the command-line binary. */
module Seqs {

  /** The elements of `s` that satisfy `p`, in their original order. */
  function Filter<T>(p: T -> bool, s: seq<T>): (r: seq<T>)
    ensures |r| <= |s|
    ensures forall i :: 0 <= i < |r| ==> p(r[i])
  {
    if |s| == 0 then []
    else if p(s[0]) then [s[0]] + Filter(p, s[1..])
    else Filter(p, s[1..])
  }

  /** The filter keeps only elements of its input. */
  lemma {:induction false} FilterSubset<T>(p: T -> bool, s: seq<T>, x: T)
    requires x in Filter(p, s)
    ensures x in s && p(x)
  {
    if s[0] != x {
      FilterSubset(p, s[1..], x);
    }
  }

  /** When every element passes, the filter is the identity. */
  lemma {:induction false} FilterAllPass<T>(p: T -> bool, s: seq<T>)
    requires forall i :: 0 <= i < |s| ==> p(s[i])
    ensures Filter(p, s) == s
  {
    if |s| > 0 {
      FilterAllPass(p, s[1..]);
    }
  }

  /** Every element of `s` that satisfies `p` survives the filter. */
  lemma {:induction false} FilterKeeps<T>(p: T -> bool, s: seq<T>, i: int)
    requires 0 <= i < |s| && p(s[i])
    ensures s[i] in Filter(p, s)
  {
    if i > 0 {
      FilterKeeps(p, s[1..], i - 1);
    }
  }

  /** Filtering distributes over concatenation: what comes first in the
      input comes first in the output. */
  lemma {:induction false} FilterConcat<T>(p: T -> bool, a: seq<T>, b: seq<T>)
    ensures Filter(p, a + b) == Filter(p, a) + Filter(p, b)
  {
    if |a| == 0 {
      assert a + b == b;
    } else {
      assert (a + b)[1..] == a[1..] + b;
      FilterConcat(p, a[1..], b);
    }
  }

  /** Filtering one more element at the end appends it exactly when it passes. */
  lemma FilterSnoc<T>(p: T -> bool, s: seq<T>, x: T)
    ensures Filter(p, s + [x]) == Filter(p, s) + (if p(x) then [x] else [])
  {
    FilterConcat(p, s, [x]);
    assert [x][1..] == [];
  }

  /** `ys` is `xs` with `f` applied to each element. */
  ghost predicate Mapped<A, B>(f: A -> B, xs: seq<A>, ys: seq<B>)
  {
    |xs| == |ys| && forall k :: 0 <= k < |xs| ==> ys[k] == f(xs[k])
  }

  lemma MappedSnoc<A, B>(f: A -> B, xs: seq<A>, ys: seq<B>, x: A)
    requires Mapped(f, xs, ys)
    ensures Mapped(f, xs + [x], ys + [f(x)])
  {
  }
}
