/** The landmark plugin (`com.neatyassets.mediapipeFaceLandmarkPlugin.MLFaceLandmarksPlugin`): it
    forwards every camera frame to the landmarker and packs every result into three direct
    buffers the host reads, writing each transformation matrix as it is. */
module LandmarksPlugin {
  import opened Common
  import opened Buffers
  import opened Packing

  /** What `setupDetector` records. */
  datatype Settings = Settings(
    maxFacesDetectedCount: Int32,
    outputLandmarks: bool,
    outputBlendshapes: bool,
    outputTransformMatrices: bool)

  const DefaultSettings := Settings(1, false, false, false)

  /** Every field of the plugin that its methods reassign. */
  datatype Fields = Fields(
    settings: Settings,
    landmarksBuffer: FloatBuffer?,
    blendshapesBuffer: FloatBuffer?,
    transformationMatricesBuffer: FloatBuffer?,
    hasHelper: bool,
    analyzedImage: Option<FrameId>,
    isDetecting: bool,
    effects: seq<Effect>)

  /** `onResults` of this plugin: the three sections on the result, on the buffers `lv`, `bv`, `xv`. */
  function Results(s: Settings, r: FaceLandmarkerResult, lv: View, bv: View, xv: View): Packing3
  {
    PackResults(|r.faceLandmarks|, LandmarkSection(s.outputLandmarks, r), BlendshapeSection(s.outputBlendshapes, r),
                MatrixSection(s.outputTransformMatrices, r), lv, bv, xv)
  }

  /** A result within what the detector was set up for — at most `max` faces of at most 478
      landmarks, at most `max` blendshape lists of at most 52 categories, at most `max`
      16-float matrices — fits buffers of the sizes `initBuffers` allocates, so `onResults`
      completes. */
  lemma ResultsFit(s: Settings, r: FaceLandmarkerResult, lv: View, bv: View, xv: View)
    requires 0 <= s.maxFacesDetectedCount
    requires |r.faceLandmarks| <= s.maxFacesDetectedCount
    requires forall i :: 0 <= i < |r.faceLandmarks| ==> |r.faceLandmarks[i]| <= LandmarkArrayLength
    requires r.faceBlendshapes.Some? ==> |r.faceBlendshapes.value| <= s.maxFacesDetectedCount
    requires r.faceBlendshapes.Some? ==> forall i :: 0 <= i < |r.faceBlendshapes.value| ==> |r.faceBlendshapes.value[i]| <= BlendshapeArrayLength
    requires r.facialTransformationMatrixes.Some? ==> |r.facialTransformationMatrixes.value| <= s.maxFacesDetectedCount
    requires r.facialTransformationMatrixes.Some? ==> forall i :: 0 <= i < |r.facialTransformationMatrixes.value| ==> |r.facialTransformationMatrixes.value[i]| == MatrixArrayLength
    requires lv.capacity == Some(s.maxFacesDetectedCount * LandmarkArrayLength * LandmarkFloatElementsSize)
    requires bv.capacity == Some(s.maxFacesDetectedCount * BlendshapeArrayLength)
    requires xv.capacity == Some(s.maxFacesDetectedCount * MatrixArrayLength)
    ensures Results(s, r, lv, bv, xv).outcome == Completed
  {
    var max: nat := s.maxFacesDetectedCount;
    LandmarksFit(r.faceLandmarks, max);
    if r.faceBlendshapes.Some? {
      BlendshapesFit(r.faceBlendshapes.value, max);
    }
    if r.facialTransformationMatrixes.Some? {
      MatricesFit(r.facialTransformationMatrixes.value, max);
    }
    PackResultsOutcome(|r.faceLandmarks|, LandmarkSection(s.outputLandmarks, r), BlendshapeSection(s.outputBlendshapes, r),
                       MatrixSection(s.outputTransformMatrices, r), lv, bv, xv);
  }

  /** The three sections of `onResults` in turn, each only if every earlier one completed. */
  method RunSections(s: Settings, r: FaceLandmarkerResult, lb: FloatBuffer?, bb: FloatBuffer?, xb: FloatBuffer?)
    returns (outcome: Outcome)
    requires |r.faceLandmarks| > 0
    requires Disjoint(lb, bb, xb)
    modifies Footprint(lb), Footprint(bb), Footprint(xb)
    ensures Disjoint(lb, bb, xb)
    ensures Packing3(outcome, ViewOf(lb), ViewOf(bb), ViewOf(xb)) ==
      Results(s, r, old(ViewOf(lb)), old(ViewOf(bb)), old(ViewOf(xb)))
  {
    ghost var bv, xv := ViewOf(bb), ViewOf(xb);
    outcome := PackLandmarks(s.outputLandmarks, r, lb);
    assert ViewOf(bb) == bv && ViewOf(xb) == xv;
    if outcome.Completed? {
      outcome := RunRest(s, r, lb, bb, xb);
    }
  }

  /** The blendshape and matrix sections of `onResults`, once the landmark section completed. */
  method RunRest(s: Settings, r: FaceLandmarkerResult, lb: FloatBuffer?, bb: FloatBuffer?, xb: FloatBuffer?)
    returns (outcome: Outcome)
    requires Disjoint(lb, bb, xb)
    modifies Footprint(bb), Footprint(xb)
    ensures Disjoint(lb, bb, xb)
    ensures Packing3(outcome, ViewOf(lb), ViewOf(bb), ViewOf(xb)) ==
      PackRest(ViewOf(lb), BlendshapeSection(s.outputBlendshapes, r), MatrixSection(s.outputTransformMatrices, r),
               old(ViewOf(bb)), old(ViewOf(xb)))
  {
    ghost var lv, xv := ViewOf(lb), ViewOf(xb);
    outcome := PackBlendshapes(s.outputBlendshapes, r, bb);
    assert ViewOf(lb) == lv && ViewOf(xb) == xv;
    ghost var bv := ViewOf(bb);
    if outcome.Completed? {
      outcome := PackMatrices(s.outputTransformMatrices, r, xb);
      assert ViewOf(lb) == lv && ViewOf(bb) == bv;
    }
  }

  class Plugin {
    var settings: Settings
    var landmarksBuffer: FloatBuffer?
    var blendshapesBuffer: FloatBuffer?
    var transformationMatricesBuffer: FloatBuffer?
    /** Whether `faceLandmarkerHelper` is non-null. */
    var hasHelper: bool
    var analyzedImage: Option<FrameId>
    var isDetecting: bool
    var effects: seq<Effect>

    function State(): Fields
      reads this
    {
      Fields(settings, landmarksBuffer, blendshapesBuffer, transformationMatricesBuffer,
             hasHelper, analyzedImage, isDetecting, effects)
    }

    /** The buffers are valid and no two of them share their array. */
    ghost predicate Valid()
      reads `landmarksBuffer, `blendshapesBuffer, `transformationMatricesBuffer
      reads landmarksBuffer, blendshapesBuffer, transformationMatricesBuffer
    {
      Disjoint(landmarksBuffer, blendshapesBuffer, transformationMatricesBuffer)
    }

    /** A fresh plugin: the field initialisers of the class. */
    constructor()
      ensures Valid()
      ensures State() == Fields(DefaultSettings, null, null, null, false, None, false, [])
    {
      settings := DefaultSettings;
      landmarksBuffer := null;
      blendshapesBuffer := null;
      transformationMatricesBuffer := null;
      hasHelper := false;
      analyzedImage := None;
      isDetecting := false;
      effects := [];
    }

    /** `setupDetector`: records the settings, replaces the landmarker helper (closing the old
        one) and allocates the buffers. */
    method SetupDetector(facesCount: Int32, outputLandmarks: bool, outputBlendshapes: bool,
                         outputTransformationMatrices: bool)
      returns (outcome: Outcome)
      requires Valid()
      modifies `settings, `hasHelper, `landmarksBuffer, `blendshapesBuffer, `transformationMatricesBuffer, `effects
      ensures Valid()
      ensures settings == Settings(facesCount, outputLandmarks, outputBlendshapes, outputTransformationMatrices)
      ensures hasHelper
      ensures Packing3(outcome, ViewOf(landmarksBuffer), ViewOf(blendshapesBuffer), ViewOf(transformationMatricesBuffer)) ==
              Init(facesCount, old(ViewOf(landmarksBuffer)), old(ViewOf(blendshapesBuffer)), old(ViewOf(transformationMatricesBuffer)))
      ensures effects == old(effects) + (if old(hasHelper) then [ClearLandmarker] else [])
                         + (if outcome.Completed? then [SetupEffect(facesCount)] else [])
    {
      settings := Settings(facesCount, outputLandmarks, outputBlendshapes, outputTransformationMatrices);
      if hasHelper {
        effects := effects + [ClearLandmarker];
      }
      hasHelper := true;
      outcome := InitBuffers();
    }

    /** `initBuffers`: allocates the three buffers for the current face count and tells the
        host about them; an allocation that throws ends it. */
    method InitBuffers() returns (outcome: Outcome)
      requires Valid()
      modifies `landmarksBuffer, `blendshapesBuffer, `transformationMatricesBuffer, `effects
      ensures Valid()
      ensures Packing3(outcome, ViewOf(landmarksBuffer), ViewOf(blendshapesBuffer), ViewOf(transformationMatricesBuffer)) ==
              Init(old(settings.maxFacesDetectedCount), old(ViewOf(landmarksBuffer)), old(ViewOf(blendshapesBuffer)),
                   old(ViewOf(transformationMatricesBuffer)))
      ensures effects == old(effects) + if outcome.Completed? then [SetupEffect(old(settings.maxFacesDetectedCount))] else []
    {
      outcome, landmarksBuffer, blendshapesBuffer, transformationMatricesBuffer :=
        AllocateBuffers(settings.maxFacesDetectedCount, landmarksBuffer, blendshapesBuffer, transformationMatricesBuffer);
      if outcome.Completed? {
        effects := effects + [SetupEffect(settings.maxFacesDetectedCount)];
      }
    }

    /** `detectFace`: no throttle; every frame becomes the analysed one, sets the flag (even if it
        was already set) and goes to the helper, if there is one. */
    method DetectFace(frame: FrameId)
      modifies this
      ensures State() == old(State()).(analyzedImage := Some(frame), isDetecting := true,
                                       effects := old(effects) + (if old(hasHelper) then [DetectLiveStream(frame)] else []))
    {
      analyzedImage := Some(frame);
      isDetecting := true;
      if hasHelper {
        effects := effects + [DetectLiveStream(frame)];
      }
    }

    /** `dispose`: closes and drops the helper, unbinds the camera, clears the flag and drops the buffers. */
    method Dispose()
      requires Valid()
      modifies this
      ensures State() == old(State()).(hasHelper := false, isDetecting := false,
                                       landmarksBuffer := null, blendshapesBuffer := null, transformationMatricesBuffer := null,
                                       effects := old(effects) + (if old(hasHelper) then [ClearLandmarker] else []) + [UnbindCamera])
      ensures Valid()
    {
      if hasHelper {
        effects := effects + [ClearLandmarker];
      }
      hasHelper := false;
      effects := effects + [UnbindCamera];
      isDetecting := false;
      landmarksBuffer := null;
      blendshapesBuffer := null;
      transformationMatricesBuffer := null;
    }

    /** `onError`: closes the analysed frame, clears the flag and reports the message. */
    method OnError(error: string, errorCode: int)
      modifies this
      ensures State() == old(State()).(isDetecting := false,
                                       effects := old(effects) + CloseIfPresent(old(analyzedImage)) + [FaceDetectionError(error)])
    {
      effects := effects + CloseIfPresent(analyzedImage);
      isDetecting := false;
      effects := effects + [FaceDetectionError(error)];
    }

    /** `onEmpty`: closes the analysed frame and clears the flag. */
    method OnEmpty()
      modifies this
      ensures State() == old(State()).(isDetecting := false, effects := old(effects) + CloseIfPresent(old(analyzedImage)))
    {
      effects := effects + CloseIfPresent(analyzedImage);
      isDetecting := false;
    }

    /** `onResults`: closes the analysed frame and clears the flag; with faces, runs the landmark,
        blendshape and matrix sections in turn (each rewinds its buffer and writes its stream),
        and, if none of them threw, reports the face count and inference time. */
    method OnResults(bundle: ResultBundle) returns (outcome: Outcome)
      requires Valid()
      modifies `isDetecting, `effects
      modifies Footprint(landmarksBuffer), Footprint(blendshapesBuffer), Footprint(transformationMatricesBuffer)
      ensures Valid()
      ensures Packing3(outcome, ViewOf(landmarksBuffer), ViewOf(blendshapesBuffer), ViewOf(transformationMatricesBuffer)) ==
        Results(old(settings), bundle.result,
                old(ViewOf(landmarksBuffer)), old(ViewOf(blendshapesBuffer)), old(ViewOf(transformationMatricesBuffer)))
      ensures !isDetecting
      ensures var n := |bundle.result.faceLandmarks|;
        effects == old(effects) + CloseIfPresent(analyzedImage)
                   + (if n > 0 && outcome.Completed? then [FaceDetectionResult(n, bundle.inferenceTime)] else [])
    {
      effects := effects + CloseIfPresent(analyzedImage);
      isDetecting := false;
      var numFaces := |bundle.result.faceLandmarks|;
      if numFaces == 0 {
        return Completed;
      }
      outcome := RunSections(settings, bundle.result, landmarksBuffer, blendshapesBuffer, transformationMatricesBuffer);
      if outcome.Completed? {
        effects := effects + [FaceDetectionResult(numFaces, bundle.inferenceTime)];
      }
    }
  }
}
