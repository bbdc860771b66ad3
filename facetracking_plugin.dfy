/** The face-tracking plugin (`com.visionsnap.facetracking.MLFaceLandmarksPlugin`): it throttles
    camera frames to a frame-rate limit, forwards them to the landmarker, and packs every result
    into three direct buffers the host reads, rotating each transformation matrix about Z to
    undo the camera's rotation relative to the display. */
module FaceTrackingPlugin {
  import opened Common
  import opened Flatten
  import opened Buffers
  import opened Packing
  import opened Rotation

  /** What `setupDetector` records. */
  datatype Settings = Settings(
    maxFacesDetectedCount: Int32,
    outputLandmarks: bool,
    outputBlendshapes: bool,
    outputTransformMatrices: bool,
    detectionFramerateLimit: Int32)

  /** The default of `setupDetector`'s `detectionFpsLimit` parameter. */
  const DefaultDetectionFpsLimit: Int32 := 20

  const DefaultSettings := Settings(1, false, false, false, 20)

  /** Every field of the plugin that its methods reassign. */
  datatype Fields = Fields(
    settings: Settings,
    cameraSensorRotation: int,
    displayRotation: int,
    landmarksBuffer: FloatBuffer?,
    blendshapesBuffer: FloatBuffer?,
    transformationMatricesBuffer: FloatBuffer?,
    hasHelper: bool,
    analyzedImage: Option<FrameId>,
    isDetecting: bool,
    lastUsedFrameTime: int,
    effects: seq<Effect>)

  /** Kotlin's `a / b` on `Int`: rounds toward zero; `b == 0` throws. */
  function KotlinDiv(a: int, b: int): (r: Option<int>)
    ensures b == 0 <==> r.None?
  {
    if b == 0 then None
    else if (a >= 0) == (b > 0) then Some(Abs(a) / Abs(b))
    else Some(-(Abs(a) / Abs(b)))
  }

  function Abs(x: int): nat
  {
    if x < 0 then -x else x
  }

  /** `1000 / detectionFramerateLimit`: the shortest gap, in ms, between two analysed frames. */
  function FrameLimit(detectionFramerateLimit: Int32): (r: Option<int>)
    ensures r.None? <==> detectionFramerateLimit == 0
    ensures detectionFramerateLimit > 0 ==>
      r.Some? && r.value * detectionFramerateLimit <= 1000 < (r.value + 1) * detectionFramerateLimit
    ensures detectionFramerateLimit < 0 ==> r.Some? && r.value <= 0
  {
    KotlinDiv(1000, detectionFramerateLimit)
  }

  /** Whether `detectFace` drops a frame seen at `now`: it does when the frame comes sooner than
      `frameLimit` ms after the last analysed one, so never under a non-positive limit on a clock
      that does not run backwards, and at the very same instant exactly under a positive one. */
  predicate Throttled(frameLimit: int, lastUsedFrameTime: int, now: int): (b: bool)
    ensures b <==> now < lastUsedFrameTime + frameLimit
    ensures frameLimit <= 0 && lastUsedFrameTime <= now ==> !b
    ensures now == lastUsedFrameTime ==> (b <==> frameLimit > 0)
  {
    now - lastUsedFrameTime < frameLimit
  }

  /** For a positive limit `fps` a frame is dropped exactly when fewer than `1000 / fps` whole
      ms (rounded down) have passed since the last analysed one. */
  lemma ThrottleWindow(fps: Int32, last: int, now: int)
    requires fps > 0
    ensures FrameLimit(fps).Some?
    ensures Throttled(FrameLimit(fps).value, last, now) <==> now - last < 1000 / fps
    ensures fps <= 1000 ==> FrameLimit(fps).value >= 1
  {
  }

  /** A limit above 1000 frames per second, or a negative one, gives a limit of at most
      zero ms: with a clock that never runs backwards, no frame is dropped. */
  lemma ThrottleDisabled(fps: Int32, last: int, now: int)
    requires fps > 1000 || fps < 0
    requires last <= now
    ensures FrameLimit(fps).Some? && FrameLimit(fps).value <= 0
    ensures !Throttled(FrameLimit(fps).value, last, now)
  {
    if fps < 0 {
      var nf: int := -(fps as int);
      assert FrameLimit(fps).value == -(1000 / nf);
    }
  }

  /** Index of the first matrix that is not 4x4, or `|ms|` when all are. */
  function FirstNot4x4(ms: seq<seq<real>>): (b: nat)
    ensures b <= |ms|
    ensures forall j :: 0 <= j < b ==> Is4x4(ms[j])
    ensures b < |ms| ==> !Is4x4(ms[b])
  {
    if ms == [] then 0 else if !Is4x4(ms[0]) then 0 else 1 + FirstNot4x4(ms[1..])
  }

  function Rotator(rot: seq<real>): seq<real> -> seq<real>
  {
    m => RotateWith(rot, m)
  }

  /** The floats the matrix section writes: each matrix times `rot`, up to the first matrix
      that `rotateZ` rejects. */
  function RotatedStream(ms: seq<seq<real>>, rot: seq<real>): seq<real>
  {
    ConcatMap(ms[..FirstNot4x4(ms)], Rotator(rot))
  }

  /** How the matrix section ends once its floats fit: `require` in `rotateZ` throws on the first
      matrix that is not 4x4. */
  function RotationFailure(ms: seq<seq<real>>): (r: Outcome)
    ensures r.Completed? <==> forall j :: 0 <= j < |ms| ==> Is4x4(ms[j])
  {
    if FirstNot4x4(ms) < |ms| then Threw(IllegalArgument(MatrixMessage)) else Completed
  }

  /** With 4x4 matrices the section writes, for each matrix in order, its 16 rotated entries. */
  lemma RotatedLayout(ms: seq<seq<real>>, rot: seq<real>, f: nat, j: nat)
    requires forall i :: 0 <= i < |ms| ==> Is4x4(ms[i])
    requires Is4x4(rot) && f < |ms| && j < 16
    ensures |RotatedStream(ms, rot)| == |ms| * 16
    ensures f * 16 + j < |RotatedStream(ms, rot)| && RotatedStream(ms, rot)[f * 16 + j] == MatMul(ms[f], rot)[j]
  {
    RotatedStreamAll(ms, rot);
    RotatorWidth(ms, rot);
    ConcatMapLength(ms, Rotator(rot), 16);
    ConcatMapAt(ms, Rotator(rot), 16, f, j);
    assert Rotator(rot)(ms[f]) == MatMul(ms[f], rot);
  }

  lemma RotatedStreamAll(ms: seq<seq<real>>, rot: seq<real>)
    requires forall i :: 0 <= i < |ms| ==> Is4x4(ms[i])
    ensures RotatedStream(ms, rot) == ConcatMap(ms, Rotator(rot))
  {
    assert ms[..FirstNot4x4(ms)] == ms;
  }

  lemma RotatorWidth(ms: seq<seq<real>>, rot: seq<real>)
    requires forall i :: 0 <= i < |ms| ==> Is4x4(ms[i])
    requires Is4x4(rot)
    ensures forall i :: 0 <= i < |ms| ==> |Rotator(rot)(ms[i])| == 16
  {
  }

  /** The matrix section of this plugin: every matrix times `rot`, up to the first matrix
      `rotateZ` rejects; `None` when the guard is off or the result has no matrices. */
  function RotatedMatrixSection(on: bool, r: FaceLandmarkerResult, rot: seq<real>): Option<Section>
  {
    if on && r.facialTransformationMatrixes.Some?
    then Some(Section(RotatedStream(r.facialTransformationMatrixes.value, rot),
                      RotationFailure(r.facialTransformationMatrixes.value)))
    else None
  }

  /** `onResults` of this plugin: the three sections on the result, on the buffers `lv`, `bv`, `xv`. */
  function Results(s: Settings, r: FaceLandmarkerResult, rot: seq<real>, lv: View, bv: View, xv: View): Packing3
  {
    PackResults(|r.faceLandmarks|, LandmarkSection(s.outputLandmarks, r), BlendshapeSection(s.outputBlendshapes, r),
                RotatedMatrixSection(s.outputTransformMatrices, r, rot), lv, bv, xv)
  }

  /** A result within what the detector was set up for — at most `max` faces of at most 478
      landmarks, at most `max` blendshape lists of at most 52 categories, at most `max` 4x4
      matrices — fits buffers of the sizes `initBuffers` allocates, so `onResults` completes. */
  lemma ResultsFit(s: Settings, r: FaceLandmarkerResult, rot: seq<real>, lv: View, bv: View, xv: View)
    requires 0 <= s.maxFacesDetectedCount
    requires |r.faceLandmarks| <= s.maxFacesDetectedCount
    requires forall i :: 0 <= i < |r.faceLandmarks| ==> |r.faceLandmarks[i]| <= LandmarkArrayLength
    requires r.faceBlendshapes.Some? ==> |r.faceBlendshapes.value| <= s.maxFacesDetectedCount
    requires r.faceBlendshapes.Some? ==> forall i :: 0 <= i < |r.faceBlendshapes.value| ==> |r.faceBlendshapes.value[i]| <= BlendshapeArrayLength
    requires r.facialTransformationMatrixes.Some? ==> |r.facialTransformationMatrixes.value| <= s.maxFacesDetectedCount
    requires r.facialTransformationMatrixes.Some? ==> forall i :: 0 <= i < |r.facialTransformationMatrixes.value| ==> Is4x4(r.facialTransformationMatrixes.value[i])
    requires Is4x4(rot)
    requires lv.capacity == Some(s.maxFacesDetectedCount * LandmarkArrayLength * LandmarkFloatElementsSize)
    requires bv.capacity == Some(s.maxFacesDetectedCount * BlendshapeArrayLength)
    requires xv.capacity == Some(s.maxFacesDetectedCount * MatrixArrayLength)
    ensures Results(s, r, rot, lv, bv, xv).outcome == Completed
  {
    var max: nat := s.maxFacesDetectedCount;
    LandmarksFit(r.faceLandmarks, max);
    if r.faceBlendshapes.Some? {
      BlendshapesFit(r.faceBlendshapes.value, max);
    }
    if r.facialTransformationMatrixes.Some? {
      var ms := r.facialTransformationMatrixes.value;
      RotatedStreamAll(ms, rot);
      RotatorWidth(ms, rot);
      ConcatMapLength(ms, Rotator(rot), 16);
      MulMono(|ms|, max, 16);
    }
    PackResultsOutcome(|r.faceLandmarks|, LandmarkSection(s.outputLandmarks, r), BlendshapeSection(s.outputBlendshapes, r),
                       RotatedMatrixSection(s.outputTransformMatrices, r, rot), lv, bv, xv);
  }

  /** Each present buffer is valid, and the three buffers' arrays and the scratch array `m`
      are four different arrays. */
  ghost predicate BuffersValid(lm: FloatBuffer?, bs: FloatBuffer?, mx: FloatBuffer?, m: array<real>)
    reads lm, bs, mx
  {
    && m.Length == 16
    && Disjoint(lm, bs, mx)
    && Apart(lm, bs, mx, m)
  }

  /** None of the buffers' arrays is the scratch array `m`. */
  predicate Apart(lm: FloatBuffer?, bs: FloatBuffer?, mx: FloatBuffer?, m: array<real>)
  {
    && (lm != null ==> lm.data != m)
    && (bs != null ==> bs.data != m)
    && (mx != null ==> mx.data != m)
  }

  /** `AllocateBuffers`, keeping the buffers apart from the scratch array `m`. */
  method AllocateApart(max: Int32, lm0: FloatBuffer?, bs0: FloatBuffer?, mx0: FloatBuffer?, m: array<real>)
    returns (outcome: Outcome, lm: FloatBuffer?, bs: FloatBuffer?, mx: FloatBuffer?)
    requires Disjoint(lm0, bs0, mx0) && Apart(lm0, bs0, mx0, m)
    ensures Packing3(outcome, ViewOf(lm), ViewOf(bs), ViewOf(mx)) == Init(max, old(ViewOf(lm0)), old(ViewOf(bs0)), old(ViewOf(mx0)))
    ensures Disjoint(lm, bs, mx) && Apart(lm, bs, mx, m)
  {
    outcome, lm, bs, mx := AllocateBuffers(max, lm0, bs0, mx0);
  }

  /** The angle, in degrees, every matrix is rotated by: minus the camera rotation. */
  function CorrectionAngle(cameraSensorRotation: int, displayRotation: int): real
  {
    -(CalculateCameraRotation(cameraSensorRotation, displayRotation) as real)
  }

  /** The matrix section of `onResults`: for every matrix, `rotateZ` into the scratch array `m`,
      then `putFloat` of its 16 entries; stops at the first matrix `rotateZ` rejects or the
      first overflow. */
  method PutRotatedMatrices(buf: FloatBuffer, ms: seq<seq<real>>, m: array<real>, angle: real,
                            cosDeg: real -> real, sinDeg: real -> real) returns (outcome: Outcome)
    requires buf.Valid() && buf.data != m && m.Length == 16
    modifies buf, buf.data, m
    ensures buf.Valid()
    ensures Step(outcome, ViewOf(buf)) ==
      RunSection(Section(RotatedStream(ms, RotationZ(cosDeg(angle), sinDeg(angle))), RotationFailure(ms)), old(ViewOf(buf)))
  {
    ghost var rot := RotationZ(cosDeg(angle), sinDeg(angle));
    ghost var b := FirstNot4x4(ms);
    ghost var good := ms[..b];
    ghost var g := Rotator(rot);
    ghost var whole := ConcatMap(good, g);
    buf.Rewind();
    ghost var d0 := buf.data[..];
    var i := 0;
    while i < |ms|
      invariant 0 <= i <= b
      invariant buf.Valid() && buf.pos == |ConcatMap(good[..i], g)|
      invariant buf.data[..] == Written(d0, 0, ConcatMap(good[..i], g))
    {
      outcome := RotateZ(ms[i], m, angle, cosDeg, sinDeg);
      if outcome.Threw? {
        assert i == b && good[..i] == good;
        return;
      }
      assert good[i] == ms[i];
      ghost var before := buf.data[..];
      var ok := PutFloats(buf, m[..]);
      ConcatMapStep(good, i, g);
      AppendStep(d0, 0, ConcatMap(good[..i], g), g(good[i]), whole, before, buf.data[..]);
      if !ok {
        return Threw(BufferOverflow);
      }
      i := i + 1;
    }
    assert b == |ms| && good[..i] == good;
    return Completed;
  }

  /** The matrix section of `onResults`, rotating by `angle` degrees. */
  method PackRotatedMatrices(on: bool, r: FaceLandmarkerResult, buf: FloatBuffer?, m: array<real>, angle: real,
                      cosDeg: real -> real, sinDeg: real -> real) returns (outcome: Outcome)
    requires buf != null ==> buf.Valid() && buf.data != m
    requires m.Length == 16
    modifies Footprint(buf), m
    ensures buf != null ==> buf.Valid()
    ensures Step(outcome, ViewOf(buf)) == RunIf(RotatedMatrixSection(on, r, RotationZ(cosDeg(angle), sinDeg(angle))), old(ViewOf(buf)))
  {
    outcome := Completed;
    if on && r.facialTransformationMatrixes.Some? {
      if buf == null {
        return Threw(NullPointer);
      }
      outcome := PutRotatedMatrices(buf, r.facialTransformationMatrixes.value, m, angle, cosDeg, sinDeg);
    }
  }

  /** The three sections of `onResults` in turn, each only if every earlier one completed. */
  method RunSections(s: Settings, r: FaceLandmarkerResult, lb: FloatBuffer?, bb: FloatBuffer?, xb: FloatBuffer?,
                     m: array<real>, angle: real, cosDeg: real -> real, sinDeg: real -> real)
    returns (outcome: Outcome)
    requires |r.faceLandmarks| > 0
    requires BuffersValid(lb, bb, xb, m)
    modifies Footprint(lb), Footprint(bb), Footprint(xb), m
    ensures BuffersValid(lb, bb, xb, m)
    ensures Packing3(outcome, ViewOf(lb), ViewOf(bb), ViewOf(xb)) ==
      Results(s, r, RotationZ(cosDeg(angle), sinDeg(angle)), old(ViewOf(lb)), old(ViewOf(bb)), old(ViewOf(xb)))
  {
    ghost var bv, xv := ViewOf(bb), ViewOf(xb);
    outcome := PackLandmarks(s.outputLandmarks, r, lb);
    assert ViewOf(bb) == bv && ViewOf(xb) == xv;
    if outcome.Completed? {
      outcome := RunRest(s, r, lb, bb, xb, m, angle, cosDeg, sinDeg);
    }
  }

  /** The blendshape and matrix sections of `onResults`, once the landmark section completed. */
  method RunRest(s: Settings, r: FaceLandmarkerResult, lb: FloatBuffer?, bb: FloatBuffer?, xb: FloatBuffer?,
                 m: array<real>, angle: real, cosDeg: real -> real, sinDeg: real -> real)
    returns (outcome: Outcome)
    requires BuffersValid(lb, bb, xb, m)
    modifies Footprint(bb), Footprint(xb), m
    ensures BuffersValid(lb, bb, xb, m)
    ensures Packing3(outcome, ViewOf(lb), ViewOf(bb), ViewOf(xb)) ==
      PackRest(ViewOf(lb), BlendshapeSection(s.outputBlendshapes, r),
               RotatedMatrixSection(s.outputTransformMatrices, r, RotationZ(cosDeg(angle), sinDeg(angle))),
               old(ViewOf(bb)), old(ViewOf(xb)))
  {
    ghost var lv, xv := ViewOf(lb), ViewOf(xb);
    outcome := PackBlendshapes(s.outputBlendshapes, r, bb);
    assert ViewOf(lb) == lv && ViewOf(xb) == xv;
    ghost var bv := ViewOf(bb);
    if outcome.Completed? {
      outcome := PackRotatedMatrices(s.outputTransformMatrices, r, xb, m, angle, cosDeg, sinDeg);
      assert ViewOf(lb) == lv && ViewOf(bb) == bv;
    }
  }

  class Plugin {
    var settings: Settings
    var cameraSensorRotation: int
    /** `deviceOrientationListener.orientationDegrees`. */
    var displayRotation: int
    var landmarksBuffer: FloatBuffer?
    var blendshapesBuffer: FloatBuffer?
    var transformationMatricesBuffer: FloatBuffer?
    /** Whether `faceLandmarkerHelper` is non-null. */
    var hasHelper: bool
    var analyzedImage: Option<FrameId>
    var isDetecting: bool
    var lastUsedFrameTime: int
    /** The 16-float scratch array each matrix is rotated into. */
    const matrixBuffer: array<real>
    var effects: seq<Effect>

    function State(): Fields
      reads this
    {
      Fields(settings, cameraSensorRotation, displayRotation, landmarksBuffer, blendshapesBuffer,
             transformationMatricesBuffer, hasHelper, analyzedImage, isDetecting, lastUsedFrameTime, effects)
    }

    /** The buffers are valid and no two of the four float arrays are the same. */
    ghost predicate Valid()
      reads `landmarksBuffer, `blendshapesBuffer, `transformationMatricesBuffer
      reads landmarksBuffer, blendshapesBuffer, transformationMatricesBuffer
    {
      BuffersValid(landmarksBuffer, blendshapesBuffer, transformationMatricesBuffer, matrixBuffer)
    }

    /** A fresh plugin: the field initialisers of the class. */
    constructor()
      ensures Valid() && fresh(matrixBuffer)
      ensures State() == Fields(DefaultSettings, 0, 0, null, null, null, false, None, false, 0, [])
    {
      settings := DefaultSettings;
      cameraSensorRotation := 0;
      displayRotation := 0;
      landmarksBuffer := null;
      blendshapesBuffer := null;
      transformationMatricesBuffer := null;
      hasHelper := false;
      analyzedImage := None;
      isDetecting := false;
      lastUsedFrameTime := 0;
      matrixBuffer := new real[16](_ => 0.0);
      effects := [];
    }

    /** `MyOrientationListener.onOrientationChanged`. */
    method OnOrientationChanged(orientation: int)
      modifies this
      ensures State() == old(State()).(displayRotation := orientation)
    {
      displayRotation := orientation;
    }

    /** `bindCamera`, once a camera is bound: records the sensor's mounting rotation. */
    method BindCamera(sensorRotationDegrees: int)
      modifies this
      ensures State() == old(State()).(cameraSensorRotation := sensorRotationDegrees,
                                       effects := old(effects) + [Effect.BindCamera])
    {
      effects := effects + [Effect.BindCamera];
      cameraSensorRotation := sensorRotationDegrees;
    }

    /** `setupDetector`: records the settings, replaces the landmarker helper (closing the old
        one) and allocates the buffers. */
    method SetupDetector(facesCount: Int32, outputLandmarks: bool, outputBlendshapes: bool,
                         outputTransformationMatrices: bool, detectionFpsLimit: Int32)
      returns (outcome: Outcome)
      requires Valid()
      modifies `settings, `hasHelper, `landmarksBuffer, `blendshapesBuffer, `transformationMatricesBuffer, `effects
      ensures Valid()
      ensures settings == Settings(facesCount, outputLandmarks, outputBlendshapes, outputTransformationMatrices, detectionFpsLimit)
      ensures hasHelper
      ensures Packing3(outcome, ViewOf(landmarksBuffer), ViewOf(blendshapesBuffer), ViewOf(transformationMatricesBuffer)) ==
              Init(facesCount, old(ViewOf(landmarksBuffer)), old(ViewOf(blendshapesBuffer)), old(ViewOf(transformationMatricesBuffer)))
      ensures effects == old(effects) + (if old(hasHelper) then [ClearLandmarker] else [])
                         + (if outcome.Completed? then [SetupEffect(facesCount)] else [])
    {
      settings := Settings(facesCount, outputLandmarks, outputBlendshapes, outputTransformationMatrices, detectionFpsLimit);
      if hasHelper {
        effects := effects + [ClearLandmarker];
      }
      hasHelper := true;
      outcome := InitBuffers();
    }

    /** `setupDetector` called without `detectionFpsLimit`: Kotlin passes the default, 20 frames
        per second. */
    method SetupDetectorDefaultLimit(facesCount: Int32, outputLandmarks: bool, outputBlendshapes: bool,
                                     outputTransformationMatrices: bool)
      returns (outcome: Outcome)
      requires Valid()
      modifies `settings, `hasHelper, `landmarksBuffer, `blendshapesBuffer, `transformationMatricesBuffer, `effects
      ensures Valid()
      ensures settings == Settings(facesCount, outputLandmarks, outputBlendshapes, outputTransformationMatrices, 20)
      ensures FrameLimit(settings.detectionFramerateLimit) == Some(50)
      ensures hasHelper
      ensures Packing3(outcome, ViewOf(landmarksBuffer), ViewOf(blendshapesBuffer), ViewOf(transformationMatricesBuffer)) ==
              Init(facesCount, old(ViewOf(landmarksBuffer)), old(ViewOf(blendshapesBuffer)), old(ViewOf(transformationMatricesBuffer)))
      ensures effects == old(effects) + (if old(hasHelper) then [ClearLandmarker] else [])
                         + (if outcome.Completed? then [SetupEffect(facesCount)] else [])
    {
      outcome := SetupDetector(facesCount, outputLandmarks, outputBlendshapes, outputTransformationMatrices,
                               DefaultDetectionFpsLimit);
    }

    /** `initBuffers`: allocates the three buffers for the current face count and tells the
        host about them; an allocation that throws ends it. */
    method InitBuffers() returns (outcome: Outcome)
      requires Valid()
      modifies `landmarksBuffer, `blendshapesBuffer, `transformationMatricesBuffer, `effects
      ensures Valid()
      ensures Packing3(outcome, ViewOf(landmarksBuffer), ViewOf(blendshapesBuffer), ViewOf(transformationMatricesBuffer)) ==
              Init(old(settings.maxFacesDetectedCount), old(ViewOf(landmarksBuffer)), old(ViewOf(blendshapesBuffer)),
                   old(ViewOf(transformationMatricesBuffer)))
      ensures effects == old(effects) + if outcome.Completed? then [SetupEffect(old(settings.maxFacesDetectedCount))] else []
    {
      outcome, landmarksBuffer, blendshapesBuffer, transformationMatricesBuffer :=
        AllocateApart(settings.maxFacesDetectedCount, landmarksBuffer, blendshapesBuffer, transformationMatricesBuffer, matrixBuffer);
      if outcome.Completed? {
        effects := effects + [SetupEffect(settings.maxFacesDetectedCount)];
      }
    }

    /** `detectFace`, `t0` and `t1` being the two clock readings it takes: `1000 / limit` throws
        for a zero limit; a frame that comes sooner than the limit after the last accepted one is
        closed and dropped; any other frame records `t1`, becomes the analysed frame, sets the
        flag and goes to the helper, if there is one. */
    method DetectFace(frame: FrameId, t0: int, t1: int) returns (outcome: Outcome)
      modifies this
      ensures var limit := FrameLimit(old(settings.detectionFramerateLimit));
        if limit.None? then
          outcome == Threw(Arithmetic) && State() == old(State())
        else if Throttled(limit.value, old(lastUsedFrameTime), t0) then
          outcome == Completed && State() == old(State()).(effects := old(effects) + [CloseImage(frame)])
        else
          outcome == Completed
          && State() == old(State()).(lastUsedFrameTime := t1, analyzedImage := Some(frame), isDetecting := true,
                                      effects := old(effects) + (if old(hasHelper) then [DetectLiveStream(frame)] else []))
    {
      var frameLimit := FrameLimit(settings.detectionFramerateLimit);
      if frameLimit.None? {
        return Threw(Arithmetic);
      }
      var timeSinceLastDetect := t0 - lastUsedFrameTime;
      if timeSinceLastDetect < frameLimit.value {
        effects := effects + [CloseImage(frame)];
        return Completed;
      }
      lastUsedFrameTime := t1;
      analyzedImage := Some(frame);
      isDetecting := true;
      if hasHelper {
        effects := effects + [DetectLiveStream(frame)];
      }
      return Completed;
    }

    /** `dispose`: closes and drops the helper, unbinds the camera, clears the flag and drops the buffers. */
    method Dispose()
      requires Valid()
      modifies this
      ensures State() == old(State()).(hasHelper := false, isDetecting := false,
                                       landmarksBuffer := null, blendshapesBuffer := null, transformationMatricesBuffer := null,
                                       effects := old(effects) + (if old(hasHelper) then [ClearLandmarker] else []) + [UnbindCamera])
      ensures Valid()
    {
      if hasHelper {
        effects := effects + [ClearLandmarker];
      }
      hasHelper := false;
      effects := effects + [UnbindCamera];
      isDetecting := false;
      landmarksBuffer := null;
      blendshapesBuffer := null;
      transformationMatricesBuffer := null;
    }

    /** `onError`: closes the analysed frame, clears the flag and reports the message. */
    method OnError(error: string, errorCode: int)
      modifies this
      ensures State() == old(State()).(isDetecting := false,
                                       effects := old(effects) + CloseIfPresent(old(analyzedImage)) + [FaceDetectionError(error)])
    {
      effects := effects + CloseIfPresent(analyzedImage);
      isDetecting := false;
      effects := effects + [FaceDetectionError(error)];
    }

    /** `onEmpty`: closes the analysed frame and clears the flag. */
    method OnEmpty()
      modifies this
      ensures State() == old(State()).(isDetecting := false, effects := old(effects) + CloseIfPresent(old(analyzedImage)))
    {
      effects := effects + CloseIfPresent(analyzedImage);
      isDetecting := false;
    }

    /** The rotation every matrix is multiplied by: about Z by `-calculateCameraRotation()` degrees. */
    function CameraCorrection(cosDeg: real -> real, sinDeg: real -> real): (rot: seq<real>)
      reads `cameraSensorRotation, `displayRotation
      ensures Is4x4(rot)
    {
      var angle := CorrectionAngle(cameraSensorRotation, displayRotation);
      RotationZ(cosDeg(angle), sinDeg(angle))
    }

    /** `onResults`: closes the analysed frame and clears the flag; with faces, runs the landmark,
        blendshape and matrix sections in turn (each rewinds its buffer and writes its stream),
        and, if none of them threw, reports the face count and inference time. The scratch array
        `matrixBuffer` is used by the matrix section; what it holds afterwards is not specified. */
    method OnResults(bundle: ResultBundle, cosDeg: real -> real, sinDeg: real -> real) returns (outcome: Outcome)
      requires Valid()
      modifies `isDetecting, `effects, matrixBuffer
      modifies Footprint(landmarksBuffer), Footprint(blendshapesBuffer), Footprint(transformationMatricesBuffer)
      ensures Valid()
      ensures Packing3(outcome, ViewOf(landmarksBuffer), ViewOf(blendshapesBuffer), ViewOf(transformationMatricesBuffer)) ==
        Results(old(settings), bundle.result, old(CameraCorrection(cosDeg, sinDeg)),
                old(ViewOf(landmarksBuffer)), old(ViewOf(blendshapesBuffer)), old(ViewOf(transformationMatricesBuffer)))
      ensures !isDetecting
      ensures var n := |bundle.result.faceLandmarks|;
        effects == old(effects) + CloseIfPresent(analyzedImage)
                   + (if n > 0 && outcome.Completed? then [FaceDetectionResult(n, bundle.inferenceTime)] else [])
    {
      effects := effects + CloseIfPresent(analyzedImage);
      isDetecting := false;
      var numFaces := |bundle.result.faceLandmarks|;
      if numFaces == 0 {
        return Completed;
      }
      var angle := CorrectionAngle(cameraSensorRotation, displayRotation);
      outcome := RunSections(settings, bundle.result, landmarksBuffer, blendshapesBuffer, transformationMatricesBuffer,
                             matrixBuffer, angle, cosDeg, sinDeg);
      if outcome.Completed? {
        effects := effects + [FaceDetectionResult(numFaces, bundle.inferenceTime)];
      }
    }
  }
}
