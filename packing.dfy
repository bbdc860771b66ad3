/** How the `onResults` variants lay a face-landmarker result out in the shared buffers:
    the float stream of each section, the buffer capacities `initBuffers` allocates from
    `maxFacesDetectedCount` (with Kotlin's 32-bit `Int` arithmetic), the positions at which the
    host finds each value, and how one guarded section of `onResults` ends. */
module Packing {
  import opened Common
  import opened Flatten
  import opened Buffers

  const LandmarkFloatElementsSize: nat := 5
  const LandmarkArrayLength: nat := 478
  const BlendshapeArrayLength: nat := 52
  const MatrixArrayLength: nat := 16
  const FloatSizeBytes: nat := 4

  const TwoTo31: int := 0x8000_0000
  const TwoTo32: int := 0x1_0000_0000

  /** Kotlin's `Int`. */
  type Int32 = x: int | -0x8000_0000 <= x < 0x8000_0000

  /** Two's-complement wrap-around of a mathematical integer to an `Int`. */
  function Wrap32(x: int): (r: Int32)
    ensures (x - r) % TwoTo32 == 0
    ensures -TwoTo31 <= x < TwoTo31 ==> r == x
  {
    (x + TwoTo31) % TwoTo32 - TwoTo31
  }

  /** The bytes requested for the landmark buffer: `max * 478 * 5 * 4`, each product an `Int`. */
  function LandmarksBytes(max: Int32): Int32
  {
    Wrap32(Wrap32(Wrap32(max * LandmarkArrayLength) * LandmarkFloatElementsSize) * FloatSizeBytes)
  }

  /** The bytes requested for the blendshape buffer: `max * 52 * 4`. */
  function BlendshapesBytes(max: Int32): Int32
  {
    Wrap32(Wrap32(max * BlendshapeArrayLength) * FloatSizeBytes)
  }

  /** The bytes requested for the matrix buffer: `max * 16 * 4`. */
  function MatricesBytes(max: Int32): Int32
  {
    Wrap32(Wrap32(max * MatrixArrayLength) * FloatSizeBytes)
  }

  /** The largest face count for which the landmark buffer size does not overflow an `Int`. */
  const MaxFacesWithoutWrap: nat := 224632

  /** Up to `MaxFacesWithoutWrap` faces, the three sizes are the exact products, so the buffers
      hold `max * 478 * 5`, `max * 52` and `max * 16` floats. */
  lemma CapacitiesExact(max: Int32)
    requires 0 <= max <= MaxFacesWithoutWrap
    ensures LandmarksBytes(max) == max * LandmarkArrayLength * LandmarkFloatElementsSize * FloatSizeBytes
    ensures BlendshapesBytes(max) == max * BlendshapeArrayLength * FloatSizeBytes
    ensures MatricesBytes(max) == max * MatrixArrayLength * FloatSizeBytes
    ensures LandmarksBytes(max) / FloatSizeBytes == max * LandmarkArrayLength * LandmarkFloatElementsSize
    ensures BlendshapesBytes(max) / FloatSizeBytes == max * BlendshapeArrayLength
    ensures MatricesBytes(max) / FloatSizeBytes == max * MatrixArrayLength
  {
    assert max * LandmarkArrayLength < TwoTo31;
    assert max * LandmarkArrayLength * LandmarkFloatElementsSize < TwoTo31;
    assert max * LandmarkArrayLength * LandmarkFloatElementsSize * FloatSizeBytes < TwoTo31;
  }

  /** One face more and the landmark size wraps to a negative `Int`, which `allocateDirect` rejects. */
  lemma LandmarksBytesWrap()
    ensures LandmarksBytes(MaxFacesWithoutWrap + 1) < 0
  {
    var m := MaxFacesWithoutWrap + 1;
    assert Wrap32(m * LandmarkArrayLength) == m * LandmarkArrayLength;
    assert Wrap32(m * LandmarkArrayLength * LandmarkFloatElementsSize) == m * LandmarkArrayLength * LandmarkFloatElementsSize;
    assert Wrap32(m * 9560) == m * 9560 - TwoTo32;
  }

  /** `ByteBuffer.allocateDirect(bytes)`: the capacity in floats, or the exception for a negative size. */
  function AllocateFloats(bytes: Int32): (r: Allocation)
    ensures bytes < 0 <==> r.Failed?
    ensures r.Allocated? ==> r.floats * FloatSizeBytes <= bytes < (r.floats + 1) * FloatSizeBytes
  {
    if bytes < 0 then Failed(IllegalArgument(NegativeCapacity)) else Allocated(bytes / FloatSizeBytes)
  }

  const NegativeCapacity: string := "capacity < 0"

  datatype Allocation = Allocated(floats: nat) | Failed(exception: Exception)

  /** `faceDetectionSetup`, telling the host the face count and the per-face array lengths. */
  function SetupEffect(max: Int32): Effect
  {
    FaceDetectionSetup(max, LandmarkArrayLength, BlendshapeArrayLength, MatrixArrayLength)
  }

  /** `floats` zeros. */
  function Zeros(floats: nat): (r: seq<real>)
    ensures |r| == floats && forall i :: 0 <= i < floats ==> r[i] == 0.0
  {
    if floats == 0 then [] else Zeros(floats - 1) + [0.0]
  }

  /** A buffer from `allocateDirect`: `floats` zeros at position 0. */
  function Zeroed(floats: nat): View
  {
    View(Some(floats), Zeros(floats), 0)
  }

  /** `initBuffers` for `max` faces on the buffer fields seen as `lv`, `bv`, `xv`: the three
      allocations run in order until one throws; each that succeeds replaces its field with a
      fresh zero-filled buffer, and the fields from the failing one on keep their buffers.
      It completes exactly when none of the three sizes wrapped to a negative `Int`, and
      otherwise throws `allocateDirect`'s exception. */
  function Init(max: Int32, lv: View, bv: View, xv: View): (r: Packing3)
    ensures r.outcome.Completed? <==> LandmarksBytes(max) >= 0 && BlendshapesBytes(max) >= 0 && MatricesBytes(max) >= 0
    ensures r.outcome.Threw? ==> r.outcome.exception == IllegalArgument(NegativeCapacity)
    ensures r.outcome.Completed? ==> WellFormed(r.landmarks) && WellFormed(r.blendshapes) && WellFormed(r.matrices)
  {
    var a, b, c := AllocateFloats(LandmarksBytes(max)), AllocateFloats(BlendshapesBytes(max)), AllocateFloats(MatricesBytes(max));
    if a.Failed? then Packing3(Threw(a.exception), lv, bv, xv)
    else if b.Failed? then Packing3(Threw(b.exception), Zeroed(a.floats), bv, xv)
    else if c.Failed? then Packing3(Threw(c.exception), Zeroed(a.floats), Zeroed(b.floats), xv)
    else Packing3(Completed, Zeroed(a.floats), Zeroed(b.floats), Zeroed(c.floats))
  }

  /** Up to `MaxFacesWithoutWrap` faces, `initBuffers` completes with zero-filled buffers of
      `max * 478 * 5`, `max * 52` and `max * 16` floats. */
  lemma InitExact(max: Int32, lv: View, bv: View, xv: View)
    requires 0 <= max <= MaxFacesWithoutWrap
    ensures Init(max, lv, bv, xv) == Packing3(Completed, Zeroed(max * LandmarkArrayLength * LandmarkFloatElementsSize),
                                              Zeroed(max * BlendshapeArrayLength), Zeroed(max * MatrixArrayLength))
  {
    CapacitiesExact(max);
  }

  /** The three `allocateDirect` calls of `initBuffers`, stopping at the first that throws. */
  method AllocateBuffers(max: Int32, lm0: FloatBuffer?, bs0: FloatBuffer?, mx0: FloatBuffer?)
    returns (outcome: Outcome, lm: FloatBuffer?, bs: FloatBuffer?, mx: FloatBuffer?)
    requires Disjoint(lm0, bs0, mx0)
    ensures Packing3(outcome, ViewOf(lm), ViewOf(bs), ViewOf(mx)) == Init(max, old(ViewOf(lm0)), old(ViewOf(bs0)), old(ViewOf(mx0)))
    ensures Disjoint(lm, bs, mx)
    ensures lm != lm0 ==> fresh(lm) && fresh(lm.data)
    ensures bs != bs0 ==> fresh(bs) && fresh(bs.data)
    ensures mx != mx0 ==> fresh(mx) && fresh(mx.data)
  {
    lm, bs, mx := lm0, bs0, mx0;
    var a := AllocateFloats(LandmarksBytes(max));
    if a.Failed? {
      return Threw(a.exception), lm, bs, mx;
    }
    lm := new FloatBuffer.AllocateDirect(a.floats);
    assert lm.data[..] == Zeros(a.floats);
    var b := AllocateFloats(BlendshapesBytes(max));
    if b.Failed? {
      return Threw(b.exception), lm, bs, mx;
    }
    bs := new FloatBuffer.AllocateDirect(b.floats);
    assert bs.data[..] == Zeros(b.floats);
    var c := AllocateFloats(MatricesBytes(max));
    if c.Failed? {
      return Threw(c.exception), lm, bs, mx;
    }
    mx := new FloatBuffer.AllocateDirect(c.floats);
    assert mx.data[..] == Zeros(c.floats);
    outcome := Completed;
  }

  /** The five floats of one landmark: `x`, `y`, `z`, then presence and visibility, each 0 when absent. */
  function LandmarkFloats(l: Landmark): (r: seq<real>)
    ensures |r| == LandmarkFloatElementsSize
  {
    [l.x, l.y, l.z, l.presence.GetOr(0.0), l.visibility.GetOr(0.0)]
  }

  /** The one float of a blendshape category: its score. */
  function CategoryFloats(c: Category): (r: seq<real>)
    ensures |r| == 1
  {
    [c.score]
  }

  /** The one float of a matrix entry: the entry itself. */
  function EntryFloats(x: real): (r: seq<real>)
    ensures |r| == 1
  {
    [x]
  }

  /** Flattened streams of the three sections. */
  function LandmarkStream(faces: seq<seq<Landmark>>): seq<real>
  {
    Flat2(faces, LandmarkFloats)
  }

  function BlendshapeStream(faces: seq<seq<Category>>): seq<real>
  {
    Flat2(faces, CategoryFloats)
  }

  function MatrixStream(matrices: seq<seq<real>>): seq<real>
  {
    Flat2(matrices, EntryFloats)
  }

  /** Inner lists of at most `m` floats each flatten to at most `|xss| * m` floats. */
  lemma {:induction false} Flat2Bound<T>(xss: seq<seq<T>>, f: T -> seq<real>, m: nat)
    requires forall i :: 0 <= i < |xss| ==> |ConcatMap(xss[i], f)| <= m
    ensures |Flat2(xss, f)| <= |xss| * m
  {
    if xss != [] {
      var init := xss[..|xss| - 1];
      assert forall i :: 0 <= i < |init| ==> init[i] == xss[i];
      Flat2Bound(init, f, m);
      MulSucc(|init|, m);
    }
  }

  /** Inner lists of exactly `m` floats each flatten to `|xss| * m` floats. */
  lemma {:induction false} Flat2Length<T>(xss: seq<seq<T>>, f: T -> seq<real>, m: nat)
    requires forall i :: 0 <= i < |xss| ==> |ConcatMap(xss[i], f)| == m
    ensures |Flat2(xss, f)| == |xss| * m
  {
    if xss != [] {
      var init := xss[..|xss| - 1];
      assert forall i :: 0 <= i < |init| ==> init[i] == xss[i];
      Flat2Length(init, f, m);
      MulSucc(|init|, m);
    }
  }

  /** With `m` floats per inner list, float `o` of list `i` sits at `i * m + o`. */
  lemma {:induction false} Flat2At<T>(xss: seq<seq<T>>, f: T -> seq<real>, m: nat, i: nat, o: nat)
    requires forall j :: 0 <= j < |xss| ==> |ConcatMap(xss[j], f)| == m
    requires i < |xss| && o < m
    ensures i * m + o < |Flat2(xss, f)|
    ensures Flat2(xss, f)[i * m + o] == ConcatMap(xss[i], f)[o]
  {
    var n := |xss| - 1;
    var init := xss[..n];
    assert forall j :: 0 <= j < |init| ==> init[j] == xss[j];
    Flat2Length(init, f, m);
    var front, last := Flat2(init, f), ConcatMap(xss[n], f);
    assert Flat2(xss, f) == front + last;
    if i < n {
      Flat2At(init, f, m, i, o);
      AppendAt(front, last, i * m + o);
    } else {
      AppendAt(front, last, i * m + o);
    }
  }

  lemma MulMono(a: nat, b: nat, w: nat)
    requires a <= b
    ensures a * w <= b * w
  {
  }

  /** Float `c` of element `k` of list `i` sits at `(i * n + k) * w + c` when every list has
      `n` elements of `w` floats. */
  lemma Flat2Grid<T>(xss: seq<seq<T>>, f: T -> seq<real>, n: nat, w: nat, i: nat, k: nat, c: nat)
    requires forall j :: 0 <= j < |xss| ==> |xss[j]| == n
    requires forall x :: |f(x)| == w
    requires i < |xss| && k < n && c < w
    ensures |Flat2(xss, f)| == |xss| * (n * w)
    ensures (i * n + k) * w + c < |Flat2(xss, f)|
    ensures Flat2(xss, f)[(i * n + k) * w + c] == f(xss[i][k])[c]
  {
    forall j | 0 <= j < |xss|
      ensures |ConcatMap(xss[j], f)| == n * w
    {
      ConcatMapLength(xss[j], f, w);
    }
    Flat2Length(xss, f, n * w);
    MulStep(k, n, w, c);
    Flat2At(xss, f, n * w, i, k * w + c);
    ConcatMapAt(xss[i], f, w, k, c);
    GridIndex(i, n, k, w, c);
  }

  lemma GridIndex(i: nat, n: nat, k: nat, w: nat, c: nat)
    ensures (i * n + k) * w + c == i * (n * w) + (k * w + c)
  {
    calc {
      (i * n + k) * w + c;
      (i * n) * w + k * w + c;
      i * (n * w) + (k * w + c);
    }
  }

  /** Where the host finds landmark `k` of face `f` when every face has `n` landmarks:
      five floats from `(f * n + k) * 5`, in the order x, y, z, presence, visibility. */
  lemma LandmarkLayout(faces: seq<seq<Landmark>>, n: nat, f: nat, k: nat)
    requires forall j :: 0 <= j < |faces| ==> |faces[j]| == n
    requires f < |faces| && k < n
    ensures |LandmarkStream(faces)| == |faces| * (n * LandmarkFloatElementsSize)
    ensures var s, base, l := LandmarkStream(faces), (f * n + k) * LandmarkFloatElementsSize, faces[f][k];
      && base + 4 < |s|
      && s[base] == l.x && s[base + 1] == l.y && s[base + 2] == l.z
      && s[base + 3] == (if l.presence.Some? then l.presence.value else 0.0)
      && s[base + 4] == (if l.visibility.Some? then l.visibility.value else 0.0)
  {
    Flat2Grid(faces, LandmarkFloats, n, LandmarkFloatElementsSize, f, k, 0);
    Flat2Grid(faces, LandmarkFloats, n, LandmarkFloatElementsSize, f, k, 1);
    Flat2Grid(faces, LandmarkFloats, n, LandmarkFloatElementsSize, f, k, 2);
    Flat2Grid(faces, LandmarkFloats, n, LandmarkFloatElementsSize, f, k, 3);
    Flat2Grid(faces, LandmarkFloats, n, LandmarkFloatElementsSize, f, k, 4);
  }

  /** Where the host finds blendshape `k` of face `f` when every face has `n` categories: at `f * n + k`. */
  lemma BlendshapeLayout(faces: seq<seq<Category>>, n: nat, f: nat, k: nat)
    requires forall j :: 0 <= j < |faces| ==> |faces[j]| == n
    requires f < |faces| && k < n
    ensures |BlendshapeStream(faces)| == |faces| * n
    ensures f * n + k < |BlendshapeStream(faces)| && BlendshapeStream(faces)[f * n + k] == faces[f][k].score
  {
    Flat2Grid(faces, CategoryFloats, n, 1, f, k, 0);
  }

  /** Where the host finds entry `j` of matrix `f` when every matrix has 16 entries: at `f * 16 + j`. */
  lemma MatrixLayout(matrices: seq<seq<real>>, f: nat, j: nat)
    requires forall i :: 0 <= i < |matrices| ==> |matrices[i]| == MatrixArrayLength
    requires f < |matrices| && j < MatrixArrayLength
    ensures |MatrixStream(matrices)| == |matrices| * MatrixArrayLength
    ensures f * MatrixArrayLength + j < |MatrixStream(matrices)|
    ensures MatrixStream(matrices)[f * MatrixArrayLength + j] == matrices[f][j]
  {
    Flat2Grid(matrices, EntryFloats, MatrixArrayLength, 1, f, j, 0);
  }

  /** At most `max` faces of at most 478 landmarks fit the landmark buffer of `max` faces. */
  lemma LandmarksFit(faces: seq<seq<Landmark>>, max: nat)
    requires |faces| <= max
    requires forall i :: 0 <= i < |faces| ==> |faces[i]| <= LandmarkArrayLength
    ensures |LandmarkStream(faces)| <= max * LandmarkArrayLength * LandmarkFloatElementsSize
  {
    var m := LandmarkArrayLength * LandmarkFloatElementsSize;
    forall i | 0 <= i < |faces|
      ensures |ConcatMap(faces[i], LandmarkFloats)| <= m
    {
      ConcatMapLength(faces[i], LandmarkFloats, LandmarkFloatElementsSize);
      MulMono(|faces[i]|, LandmarkArrayLength, LandmarkFloatElementsSize);
    }
    Flat2Bound(faces, LandmarkFloats, m);
    MulMono(|faces|, max, m);
  }

  /** At most `max` faces of at most 52 categories fit the blendshape buffer of `max` faces. */
  lemma BlendshapesFit(faces: seq<seq<Category>>, max: nat)
    requires |faces| <= max
    requires forall i :: 0 <= i < |faces| ==> |faces[i]| <= BlendshapeArrayLength
    ensures |BlendshapeStream(faces)| <= max * BlendshapeArrayLength
  {
    forall i | 0 <= i < |faces|
      ensures |ConcatMap(faces[i], CategoryFloats)| <= BlendshapeArrayLength
    {
      ConcatMapLength(faces[i], CategoryFloats, 1);
    }
    Flat2Bound(faces, CategoryFloats, BlendshapeArrayLength);
    MulMono(|faces|, max, BlendshapeArrayLength);
  }

  /** At most `max` matrices of 16 entries fit the matrix buffer of `max` faces. */
  lemma MatricesFit(matrices: seq<seq<real>>, max: nat)
    requires |matrices| <= max
    requires forall i :: 0 <= i < |matrices| ==> |matrices[i]| == MatrixArrayLength
    ensures |MatrixStream(matrices)| <= max * MatrixArrayLength
  {
    forall i | 0 <= i < |matrices|
      ensures |ConcatMap(matrices[i], EntryFloats)| == MatrixArrayLength
    {
      ConcatMapLength(matrices[i], EntryFloats, 1);
    }
    Flat2Length(matrices, EntryFloats, MatrixArrayLength);
    MulMono(|matrices|, max, MatrixArrayLength);
  }

  /** One guarded section of `onResults` that runs: the floats it writes from position 0,
      and how it ends once they all fit. */
  datatype Section = Section(stream: seq<real>, after: Outcome)

  /** How a section ends on a buffer of capacity `cap`: `!!` on an absent buffer throws first;
      then every float goes in unless the buffer overflows; then whatever stopped the stream
      (if anything). */
  function SectionOutcome(cap: Option<nat>, s: Section): (r: Outcome)
    ensures cap.None? ==> r == Threw(NullPointer)
    ensures cap.Some? && |s.stream| > cap.value ==> r == Threw(BufferOverflow)
    ensures cap.Some? && |s.stream| <= cap.value ==> r == s.after
  {
    match cap
    case None => Threw(NullPointer)
    case Some(c) => if |s.stream| > c then Threw(BufferOverflow) else s.after
  }

  /** A buffer's contents after a section that writes `stream` from position 0. */
  function Packed(d: seq<real>, stream: seq<real>): (r: seq<real>)
    ensures |r| == |d|
  {
    Written(d, 0, stream)
  }

  /** What the host reads back after a section ran: the stream as far as it fits, and past
      its end the buffer's earlier contents. */
  lemma PackedAt(d: seq<real>, stream: seq<real>, i: nat)
    requires i < |d|
    ensures i < |stream| ==> Packed(d, stream)[i] == stream[i]
    ensures i >= |stream| ==> Packed(d, stream)[i] == d[i]
  {
    WrittenAt(d, 0, stream);
  }

  /** How a section ended and the buffer it left. */
  datatype Step = Step(outcome: Outcome, view: View)

  /** A section on a buffer field: an absent buffer throws before anything changes; otherwise the
      buffer is rewound and written with the stream as far as it fits. */
  function RunSection(s: Section, v: View): Step
  {
    if v.capacity.None? then Step(Threw(NullPointer), v)
    else Step(SectionOutcome(v.capacity, s),
              v.(contents := Packed(v.contents, s.stream), pos := Min(|s.stream|, |v.contents|)))
  }

  /** A section whose guard may be off (`None`): a skipped section completes and changes nothing. */
  function RunIf(s: Option<Section>, v: View): Step
  {
    match s
    case None => Step(Completed, v)
    case Some(sec) => RunSection(sec, v)
  }

  /** How `onResults` ends and the three buffers it leaves. */
  datatype Packing3 = Packing3(outcome: Outcome, landmarks: View, blendshapes: View, matrices: View)

  /** `onResults` after the frame is closed: with no faces nothing runs; otherwise the landmark,
      blendshape and matrix sections run in order on their buffers until one throws. */
  function PackResults(numFaces: nat, lm: Option<Section>, bs: Option<Section>, mx: Option<Section>,
                       lv: View, bv: View, xv: View): Packing3
  {
    if numFaces == 0 then Packing3(Completed, lv, bv, xv)
    else
      var a := RunIf(lm, lv);
      if a.outcome.Threw? then Packing3(a.outcome, a.view, bv, xv)
      else PackRest(a.view, bs, mx, bv, xv)
  }

  /** The blendshape and matrix sections once the landmark section, which left `lv`, completed. */
  function PackRest(lv: View, bs: Option<Section>, mx: Option<Section>, bv: View, xv: View): Packing3
  {
    var b := RunIf(bs, bv);
    if b.outcome.Threw? then Packing3(b.outcome, lv, b.view, xv)
    else
      var c := RunIf(mx, xv);
      Packing3(c.outcome, lv, b.view, c.view)
  }

  /** Sections in order: the first that throws ends the callback. */
  function Then(first: Outcome, rest: Outcome): (r: Outcome)
    ensures first.Threw? ==> r == first
    ensures first.Completed? ==> r == rest
  {
    if first.Completed? then rest else first
  }

  /** The capacity a buffer field has: absent exactly for a null field, otherwise the number of
      floats it holds. */
  predicate WellFormed(v: View)
  {
    match v.capacity
    case None => v.contents == [] && v.pos == 0
    case Some(c) => |v.contents| == c && v.pos <= c
  }

  /** How `onResults` ends is decided by the buffers' capacities alone: the outcome of the first
      enabled section that throws — on a null buffer, on overflow, or (matrices) on a matrix that
      is not 4x4 — or completion. */
  lemma PackResultsOutcome(numFaces: nat, lm: Option<Section>, bs: Option<Section>, mx: Option<Section>,
                           lv: View, bv: View, xv: View)
    ensures PackResults(numFaces, lm, bs, mx, lv, bv, xv).outcome ==
      if numFaces == 0 then Completed
      else Then(RunIf(lm, lv).outcome, Then(RunIf(bs, bv).outcome, RunIf(mx, xv).outcome))
    ensures numFaces > 0 && lm.Some? && lv.capacity.None? ==>
      PackResults(numFaces, lm, bs, mx, lv, bv, xv).outcome == Threw(NullPointer)
    ensures numFaces > 0 && lm.Some? && lv.capacity.Some? && |lm.value.stream| > lv.capacity.value ==>
      PackResults(numFaces, lm, bs, mx, lv, bv, xv).outcome == Threw(BufferOverflow)
  {
  }

  /** A section that runs rewinds its buffer and writes its stream from position 0: the host finds
      the stream's floats at the front, and the position after the last one that fit; when the
      stream overflowed the buffer, the buffer holds its first `capacity` floats. */
  lemma RunSectionWrites(s: Section, v: View)
    requires WellFormed(v)
    ensures WellFormed(RunSection(s, v).view)
    ensures RunSection(s, v).view.capacity == v.capacity
    ensures v.capacity.Some? && |s.stream| <= v.capacity.value ==>
      && RunSection(s, v).view.pos == |s.stream|
      && RunSection(s, v).view.contents[..|s.stream|] == s.stream
      && RunSection(s, v).view.contents[|s.stream|..] == v.contents[|s.stream|..]
    ensures v.capacity.Some? && |s.stream| > v.capacity.value ==>
      && RunSection(s, v).view.pos == v.capacity.value
      && RunSection(s, v).view.contents == s.stream[..v.capacity.value]
  {
    if v.capacity.Some? {
      var d := RunSection(s, v).view.contents;
      WrittenAt(v.contents, 0, s.stream);
      if |s.stream| <= |v.contents| {
        assert d[..|s.stream|] == s.stream;
        assert d[|s.stream|..] == v.contents[|s.stream|..];
      } else {
        assert d == s.stream[..|v.contents|];
      }
    }
  }

  /** Each buffer after `onResults`: written by its section if that section ran (there are faces,
      its guard is on and every earlier section completed), otherwise as it was. In particular a
      section that throws leaves every later buffer untouched. */
  lemma PackResultsBuffers(numFaces: nat, lm: Option<Section>, bs: Option<Section>, mx: Option<Section>,
                           lv: View, bv: View, xv: View)
    ensures var r := PackResults(numFaces, lm, bs, mx, lv, bv, xv);
      && r.landmarks == (if numFaces > 0 && lm.Some? then RunSection(lm.value, lv).view else lv)
      && r.blendshapes == (if numFaces > 0 && RunIf(lm, lv).outcome.Completed? && bs.Some?
                           then RunSection(bs.value, bv).view else bv)
      && r.matrices == (if numFaces > 0 && RunIf(lm, lv).outcome.Completed? && RunIf(bs, bv).outcome.Completed? && mx.Some?
                        then RunSection(mx.value, xv).view else xv)
  {
  }

  /** One nested-list section of `onResults` on a buffer field: `!!`, `position(0)`, then the
      two nested `forEach` loops of `putFloat`. */
  method PackNested<T>(buf: FloatBuffer?, xss: seq<seq<T>>, f: T -> seq<real>) returns (outcome: Outcome)
    requires buf != null ==> buf.Valid()
    modifies Footprint(buf)
    ensures buf != null ==> buf.Valid()
    ensures Step(outcome, ViewOf(buf)) == RunSection(Section(Flat2(xss, f), Completed), old(ViewOf(buf)))
  {
    if buf == null {
      return Threw(NullPointer);
    }
    buf.Rewind();
    var ok := PutNested(buf, xss, f);
    outcome := if ok then Completed else Threw(BufferOverflow);
  }

  /** The sections the `onResults` variants share, `None` where their guard is off: the
      landmark section, the blendshape section (which also needs blendshapes in the result) and
      the matrix section writing every matrix verbatim (which needs matrices in the result). */
  function LandmarkSection(on: bool, r: FaceLandmarkerResult): Option<Section>
  {
    if on then Some(Section(LandmarkStream(r.faceLandmarks), Completed)) else None
  }

  function BlendshapeSection(on: bool, r: FaceLandmarkerResult): Option<Section>
  {
    if on && r.faceBlendshapes.Some? then Some(Section(BlendshapeStream(r.faceBlendshapes.value), Completed)) else None
  }

  function MatrixSection(on: bool, r: FaceLandmarkerResult): Option<Section>
  {
    if on && r.facialTransformationMatrixes.Some?
    then Some(Section(MatrixStream(r.facialTransformationMatrixes.value), Completed))
    else None
  }

  /** Each present buffer is valid and no two of them share their array. */
  ghost predicate Disjoint(lm: FloatBuffer?, bs: FloatBuffer?, mx: FloatBuffer?)
    reads lm, bs, mx
  {
    && (lm != null ==> lm.Valid())
    && (bs != null ==> bs.Valid())
    && (mx != null ==> mx.Valid())
    && (lm != null && bs != null ==> lm.data != bs.data)
    && (lm != null && mx != null ==> lm.data != mx.data)
    && (bs != null && mx != null ==> bs.data != mx.data)
  }

  /** The landmark section of `onResults` (`if (outputLandmarks) { ... }`). */
  method PackLandmarks(on: bool, r: FaceLandmarkerResult, buf: FloatBuffer?) returns (outcome: Outcome)
    requires buf != null ==> buf.Valid()
    modifies Footprint(buf)
    ensures buf != null ==> buf.Valid()
    ensures Step(outcome, ViewOf(buf)) == RunIf(LandmarkSection(on, r), old(ViewOf(buf)))
  {
    outcome := Completed;
    if on {
      outcome := PackNested(buf, r.faceLandmarks, LandmarkFloats);
    }
  }

  /** The blendshape section of `onResults`. */
  method PackBlendshapes(on: bool, r: FaceLandmarkerResult, buf: FloatBuffer?) returns (outcome: Outcome)
    requires buf != null ==> buf.Valid()
    modifies Footprint(buf)
    ensures buf != null ==> buf.Valid()
    ensures Step(outcome, ViewOf(buf)) == RunIf(BlendshapeSection(on, r), old(ViewOf(buf)))
  {
    outcome := Completed;
    if on && r.faceBlendshapes.Some? {
      outcome := PackNested(buf, r.faceBlendshapes.value, CategoryFloats);
    }
  }

  /** The matrix section of `onResults` that writes every matrix as it is. */
  method PackMatrices(on: bool, r: FaceLandmarkerResult, buf: FloatBuffer?) returns (outcome: Outcome)
    requires buf != null ==> buf.Valid()
    modifies Footprint(buf)
    ensures buf != null ==> buf.Valid()
    ensures Step(outcome, ViewOf(buf)) == RunIf(MatrixSection(on, r), old(ViewOf(buf)))
  {
    outcome := Completed;
    if on && r.facialTransformationMatrixes.Some? {
      outcome := PackNested(buf, r.facialTransformationMatrixes.value, EntryFloats);
    }
  }

  function Min(a: nat, b: nat): nat
  {
    if a <= b then a else b
  }
}
