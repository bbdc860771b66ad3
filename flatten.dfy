/** Flattening nested per-face lists into one stream of floats, in the order the
    plugins' nested `forEach` loops write them, and the layout facts the host relies on
    when it reads the stream back with a fixed stride per element. */
module Flatten {

  /** The floats of `f(xs[0])`, then of `f(xs[1])`, ... in order. */
  function ConcatMap<T>(xs: seq<T>, f: T -> seq<real>): seq<real>
  {
    if xs == [] then [] else ConcatMap(xs[..|xs| - 1], f) + f(xs[|xs| - 1])
  }

  /** Appending one element appends its floats. */
  lemma ConcatMapSnoc<T>(xs: seq<T>, x: T, f: T -> seq<real>)
    ensures ConcatMap(xs + [x], f) == ConcatMap(xs, f) + f(x)
  {
    assert (xs + [x])[..|xs + [x]| - 1] == xs;
  }

  /** Taking one more element of `xs` extends the flattened prefix by that element's floats. */
  lemma ConcatMapTake<T>(xs: seq<T>, k: nat, f: T -> seq<real>)
    requires k < |xs|
    ensures ConcatMap(xs[..k + 1], f) == ConcatMap(xs[..k], f) + f(xs[k])
  {
    assert xs[..k + 1] == xs[..k] + [xs[k]];
    ConcatMapSnoc(xs[..k], xs[k], f);
  }

  /** The flattened stream of a prefix is a prefix of the flattened stream. */
  lemma {:induction false} ConcatMapPrefix<T>(xs: seq<T>, k: nat, f: T -> seq<real>)
    requires k <= |xs|
    ensures ConcatMap(xs[..k], f) <= ConcatMap(xs, f)
    decreases |xs| - k
  {
    if k < |xs| {
      ConcatMapTake(xs, k, f);
      ConcatMapPrefix(xs, k + 1, f);
    } else {
      assert xs[..k] == xs;
    }
  }

  /** When every element contributes at most `w` floats, the stream holds at most `|xs| * w`. */
  lemma {:induction false} ConcatMapBound<T>(xs: seq<T>, f: T -> seq<real>, w: nat)
    requires forall i :: 0 <= i < |xs| ==> |f(xs[i])| <= w
    ensures |ConcatMap(xs, f)| <= |xs| * w
  {
    if xs != [] {
      var init := xs[..|xs| - 1];
      assert forall i :: 0 <= i < |init| ==> init[i] == xs[i];
      ConcatMapBound(init, f, w);
      MulSucc(|init|, w);
    }
  }

  /** When every element contributes exactly `w` floats, the stream holds `|xs| * w`. */
  lemma {:induction false} ConcatMapLength<T>(xs: seq<T>, f: T -> seq<real>, w: nat)
    requires forall i :: 0 <= i < |xs| ==> |f(xs[i])| == w
    ensures |ConcatMap(xs, f)| == |xs| * w
  {
    if xs != [] {
      var init := xs[..|xs| - 1];
      assert forall i :: 0 <= i < |init| ==> init[i] == xs[i];
      ConcatMapLength(init, f, w);
      MulSucc(|init|, w);
    }
  }

  /** The `j`-th float of element `i` sits at `i * w + j` when every element has width `w`. */
  lemma {:induction false} ConcatMapAt<T>(xs: seq<T>, f: T -> seq<real>, w: nat, i: nat, j: nat)
    requires forall k :: 0 <= k < |xs| ==> |f(xs[k])| == w
    requires i < |xs| && j < w
    ensures i * w + j < |ConcatMap(xs, f)|
    ensures ConcatMap(xs, f)[i * w + j] == f(xs[i])[j]
  {
    var n := |xs| - 1;
    var init := xs[..n];
    assert forall k :: 0 <= k < |init| ==> init[k] == xs[k];
    ConcatMapLength(init, f, w);
    ConcatMapLength(xs, f, w);
    var s := ConcatMap(xs, f);
    assert s == ConcatMap(init, f) + f(xs[n]);
    var off := i * w + j;
    if i < n {
      MulStep(i, n, w, j);
      ConcatMapAt(init, f, w, i, j);
      assert s[off] == ConcatMap(init, f)[off];
    } else {
      assert off - n * w == j;
      assert s[off] == f(xs[n])[j];
    }
  }

  /** Indexing a concatenation. */
  lemma AppendAt<T>(a: seq<T>, b: seq<T>, k: nat)
    requires k < |a| + |b|
    ensures (a + b)[k] == if k < |a| then a[k] else b[k - |a|]
  {
  }

  lemma MulSucc(n: nat, w: nat)
    ensures (n + 1) * w == n * w + w
  {
  }

  /** Arithmetic step for the layout proof: an offset inside row `i < n` is below `n * w`. */
  lemma MulStep(i: nat, n: nat, w: nat, j: nat)
    requires i < n && j < w
    ensures i * w + j < n * w
  {
    assert n * w == (n - 1 - i) * w + i * w + w;
  }
}
