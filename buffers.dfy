/** The direct `ByteBuffer`s the plugins share with the host, seen as buffers of floats
    (every buffer is allocated as a whole number of 4-byte floats and only ever
    written with `putFloat`), and the nested-loop writer the `onResults` variants use. */
module Buffers {
  import opened Common
  import opened Flatten

  /** Contents `d` after relative writes of `xs`, one float at a time, from position `p`:
      each write lands at the position and advances it, and the first write at the end of
      the buffer overflows, losing it and the rest. */
  function Written(d: seq<real>, p: nat, xs: seq<real>): (r: seq<real>)
    requires p <= |d|
    ensures |r| == |d|
    decreases |xs|
  {
    if xs == [] || p == |d| then d else Written(d[p := xs[0]], p + 1, xs[1..])
  }

  /** Position by position: before `p` nothing changes; from `p` on, `xs` as far as it reaches. */
  lemma {:induction false} WrittenAt(d: seq<real>, p: nat, xs: seq<real>)
    requires p <= |d|
    ensures forall i :: 0 <= i < p ==> Written(d, p, xs)[i] == d[i]
    ensures forall i :: p <= i < |d| ==> Written(d, p, xs)[i] == (if i - p < |xs| then xs[i - p] else d[i])
    decreases |xs|
  {
    if xs != [] && p < |d| {
      WrittenAt(d[p := xs[0]], p + 1, xs[1..]);
    }
  }

  /** Two runs of writes that both fit compose into one run. */
  lemma {:induction false} WrittenAppend(d: seq<real>, p: nat, xs: seq<real>, ys: seq<real>)
    requires p + |xs| <= |d|
    ensures Written(Written(d, p, xs), p + |xs|, ys) == Written(d, p, xs + ys)
    decreases |xs|
  {
    if xs == [] {
      assert xs + ys == ys;
    } else {
      assert (xs + ys)[0] == xs[0] && (xs + ys)[1..] == xs[1..] + ys;
      WrittenAppend(d[p := xs[0]], p + 1, xs[1..], ys);
    }
  }

  /** Once a run of writes overflows, whatever would have followed it changes nothing. */
  lemma {:induction false} WrittenOverflow(d: seq<real>, p: nat, xs: seq<real>, ws: seq<real>)
    requires p <= |d| && p + |xs| > |d| && xs <= ws
    ensures Written(d, p, xs) == Written(d, p, ws)
    decreases |xs|
  {
    if p < |d| {
      assert ws[0] == xs[0] && xs[1..] <= ws[1..];
      WrittenOverflow(d[p := xs[0]], p + 1, xs[1..], ws[1..]);
    }
  }

  lemma TakeSnoc<T>(xs: seq<T>, k: nat)
    requires k < |xs|
    ensures xs[..k] + [xs[k]] == xs[..k + 1] && xs[..k + 1] <= xs
  {
  }

  /** One `putFloat` of `xs[k]` after `xs[..k]` went in from `p`: if it fit, `xs[..k + 1]`
      went in; if it overflowed, the buffer holds what the whole of `xs` leaves behind. */
  lemma PutStep(d: seq<real>, p: nat, xs: seq<real>, k: nat, before: seq<real>, after: seq<real>)
    requires k < |xs| && p + k <= |d|
    requires before == Written(d, p, xs[..k])
    requires after == Written(before, p + k, [xs[k]])
    ensures after == Written(d, p, xs[..k + 1])
    ensures p + k == |d| ==> after == Written(d, p, xs)
  {
    WrittenAppend(d, p, xs[..k], [xs[k]]);
    TakeSnoc(xs, k);
    if p + k == |d| {
      WrittenOverflow(d, p, xs[..k + 1], xs);
    }
  }

  /** A direct buffer of `data.Length` floats with its position. */
  class FloatBuffer {
    const data: array<real>
    var pos: nat

    ghost predicate Valid()
      reads this
    {
      pos <= data.Length
    }

    /** `ByteBuffer.allocateDirect`: a fresh zero-filled buffer at position 0. */
    constructor AllocateDirect(floats: nat)
      ensures Valid() && fresh(data)
      ensures data.Length == floats && pos == 0
      ensures forall i :: 0 <= i < floats ==> data[i] == 0.0
    {
      data := new real[floats](_ => 0.0);
      pos := 0;
    }

    /** `buffer.position(0)`. */
    method Rewind()
      modifies this
      ensures Valid() && pos == 0
    {
      pos := 0;
    }

    /** `putFloat`: writes at the position and advances, or throws when full. */
    method PutFloat(x: real) returns (ok: bool)
      requires Valid()
      modifies this, data
      ensures Valid()
      ensures ok == (old(pos) < data.Length)
      ensures data[..] == Written(old(data[..]), old(pos), [x])
      ensures pos == if ok then old(pos) + 1 else old(pos)
    {
      ok := pos < data.Length;
      if ok {
        data[pos] := x;
        pos := pos + 1;
      }
    }

  }

  /** The objects a buffer field refers to, if any. */
  function Footprint(b: FloatBuffer?): set<object>
  {
    if b == null then {} else {b, b.data}
  }

  /** What the host can observe of a buffer field: its capacity in floats (absent when the
      field is null), its floats and its position. */
  datatype View = View(capacity: Option<nat>, contents: seq<real>, pos: nat)

  function ViewOf(b: FloatBuffer?): View
    reads b, if b == null then {} else {b.data}
  {
    if b == null then View(None, [], 0) else View(Some(b.data.Length), b.data[..], b.pos)
  }

  /** Consecutive `putFloat` calls for `xs`, stopping at the first overflow. */
  method PutFloats(buf: FloatBuffer, xs: seq<real>) returns (ok: bool)
    requires buf.Valid()
    modifies buf, buf.data
    ensures buf.Valid()
    ensures ok == (old(buf.pos) + |xs| <= buf.data.Length)
    ensures buf.data[..] == Written(old(buf.data[..]), old(buf.pos), xs)
    ensures buf.pos == if ok then old(buf.pos) + |xs| else buf.data.Length
  {
    ghost var d0, p0 := buf.data[..], buf.pos;
    var k := 0;
    while k < |xs|
      invariant 0 <= k <= |xs|
      invariant buf.Valid() && buf.pos == p0 + k
      invariant buf.data[..] == Written(d0, p0, xs[..k])
    {
      ghost var before := buf.data[..];
      ok := buf.PutFloat(xs[k]);
      PutStep(d0, p0, xs, k, before, buf.data[..]);
      if !ok {
        return;
      }
      k := k + 1;
    }
    assert xs[..k] == xs;
    ok := true;
  }

  /** The floats of every element of every inner list, inner lists in order. */
  function Flat2<T>(xss: seq<seq<T>>, f: T -> seq<real>): seq<real>
  {
    if xss == [] then [] else Flat2(xss[..|xss| - 1], f) + ConcatMap(xss[|xss| - 1], f)
  }

  /** Flattening one more inner list: the stream grows by its floats and stays a prefix. */
  lemma {:induction false} Flat2Step<T>(xss: seq<seq<T>>, i: nat, f: T -> seq<real>)
    requires i < |xss|
    ensures Flat2(xss[..i], f) + ConcatMap(xss[i], f) == Flat2(xss[..i + 1], f)
    ensures Flat2(xss[..i + 1], f) <= Flat2(xss, f)
    decreases |xss| - i
  {
    assert xss[..i + 1][..i] == xss[..i];
    if i + 1 < |xss| {
      Flat2Step(xss, i + 1, f);
    } else {
      assert xss[..i + 1] == xss;
    }
  }

  /** A run of writes `piece` right after `done`, both from `p`, where `done + piece` starts
      the stream `whole`: together they are one run, and if it overflowed, it leaves what
      the whole stream would. */
  lemma AppendStep(d: seq<real>, p: nat, done: seq<real>, piece: seq<real>, whole: seq<real>,
                   before: seq<real>, after: seq<real>)
    requires p + |done| <= |d|
    requires before == Written(d, p, done)
    requires after == Written(before, p + |done|, piece)
    requires done + piece <= whole
    ensures after == Written(d, p, done + piece)
    ensures p + |done + piece| > |d| ==> after == Written(d, p, whole)
  {
    WrittenAppend(d, p, done, piece);
    if p + |done + piece| > |d| {
      WrittenOverflow(d, p, done + piece, whole);
    }
  }

  /** Flattening one more element: the stream grows by its floats and stays a prefix. */
  lemma ConcatMapStep<T>(xs: seq<T>, j: nat, f: T -> seq<real>)
    requires j < |xs|
    ensures ConcatMap(xs[..j], f) + f(xs[j]) == ConcatMap(xs[..j + 1], f)
    ensures ConcatMap(xs[..j + 1], f) <= ConcatMap(xs, f)
  {
    ConcatMapTake(xs, j, f);
    ConcatMapPrefix(xs, j + 1, f);
  }

  /** The inner `forEach`: for every element of `xs`, write its floats; stops at the first overflow. */
  method PutList<T>(buf: FloatBuffer, xs: seq<T>, f: T -> seq<real>) returns (ok: bool)
    requires buf.Valid()
    modifies buf, buf.data
    ensures buf.Valid()
    ensures ok == (old(buf.pos) + |ConcatMap(xs, f)| <= buf.data.Length)
    ensures buf.data[..] == Written(old(buf.data[..]), old(buf.pos), ConcatMap(xs, f))
    ensures buf.pos == if ok then old(buf.pos) + |ConcatMap(xs, f)| else buf.data.Length
  {
    ghost var d0, p0 := buf.data[..], buf.pos;
    var j := 0;
    while j < |xs|
      invariant 0 <= j <= |xs|
      invariant buf.Valid()
      invariant buf.pos == p0 + |ConcatMap(xs[..j], f)|
      invariant buf.data[..] == Written(d0, p0, ConcatMap(xs[..j], f))
    {
      ghost var before := buf.data[..];
      ok := PutFloats(buf, f(xs[j]));
      ConcatMapStep(xs, j, f);
      AppendStep(d0, p0, ConcatMap(xs[..j], f), f(xs[j]), ConcatMap(xs, f), before, buf.data[..]);
      if !ok {
        return;
      }
      j := j + 1;
    }
    assert xs[..j] == xs;
    ok := true;
  }

  /** The two nested `forEach` loops of `onResults`: for every list, for every element,
      write its floats; stops at the first overflow. */
  method PutNested<T>(buf: FloatBuffer, xss: seq<seq<T>>, f: T -> seq<real>) returns (ok: bool)
    requires buf.Valid()
    modifies buf, buf.data
    ensures buf.Valid()
    ensures ok == (old(buf.pos) + |Flat2(xss, f)| <= buf.data.Length)
    ensures buf.data[..] == Written(old(buf.data[..]), old(buf.pos), Flat2(xss, f))
    ensures buf.pos == if ok then old(buf.pos) + |Flat2(xss, f)| else buf.data.Length
  {
    ghost var d0, p0 := buf.data[..], buf.pos;
    var i := 0;
    while i < |xss|
      invariant 0 <= i <= |xss|
      invariant buf.Valid()
      invariant buf.pos == p0 + |Flat2(xss[..i], f)|
      invariant buf.data[..] == Written(d0, p0, Flat2(xss[..i], f))
    {
      ghost var before := buf.data[..];
      ok := PutList(buf, xss[i], f);
      Flat2Step(xss, i, f);
      AppendStep(d0, p0, Flat2(xss[..i], f), ConcatMap(xss[i], f), Flat2(xss, f), before, buf.data[..]);
      if !ok {
        return;
      }
      i := i + 1;
    }
    assert xss[..i] == xss;
    ok := true;
  }
}
