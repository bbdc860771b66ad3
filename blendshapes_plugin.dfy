/** The blendshape plugin (`com.test.mlfacelandmarkplugin.MLFaceLandmarksPlugin`): it forwards
    every camera frame to a single-face landmarker and copies the first face's blendshape scores
    into a fixed array of 53 floats that it hands to the host with every result. */
module BlendshapesPlugin {
  import opened Common
  import opened Buffers

  /** `FloatArray(53)`: the number of slots of the score array. */
  const ScoreSlots: nat := 53

  /** Every field of the plugin that its methods reassign. */
  datatype Fields = Fields(
    hasHelper: bool,
    hasCameraProvider: bool,
    executorShutDown: bool,
    imProxy: Option<FrameId>,
    isDetecting: bool,
    effects: seq<Effect>)

  /** The scores of a blendshape list, in order. */
  function Scores(cs: seq<Category>): (r: seq<real>)
    ensures |r| == |cs|
    ensures forall i :: 0 <= i < |cs| ==> r[i] == cs[i].score
  {
    seq(|cs|, i requires 0 <= i < |cs| => cs[i].score)
  }

  /** How `onResults` ends, the array it leaves, and whether it calls the host back. */
  datatype Reply = Reply(outcome: Outcome, buffer: seq<real>, report: bool)

  /** `onResults` on the array contents `d`: without blendshapes it returns at once; `get()[0]` on an
      empty list throws; otherwise the first face's scores go in from slot 0 until the array
      ends, where the next store throws. */
  function ScoresReply(r: FaceLandmarkerResult, d: seq<real>): Reply
  {
    if r.faceBlendshapes.None? then Reply(Completed, d, false)
    else if r.faceBlendshapes.value == [] then Reply(Threw(IndexOutOfBounds), d, false)
    else
      var xs := Scores(r.faceBlendshapes.value[0]);
      if |xs| <= |d| then Reply(Completed, Written(d, 0, xs), true)
      else Reply(Threw(IndexOutOfBounds), Written(d, 0, xs), false)
  }

  /** Without blendshapes nothing is written and the host is not called; with them, the array holds
      the first face's scores in order from slot 0 and, past them, what it held before; the
      callback happens exactly when they all fit. */
  lemma ScoresCopied(r: FaceLandmarkerResult, d: seq<real>)
    ensures r.faceBlendshapes.None? ==> ScoresReply(r, d) == Reply(Completed, d, false)
    ensures r.faceBlendshapes.Some? && r.faceBlendshapes.value == [] ==>
      ScoresReply(r, d) == Reply(Threw(IndexOutOfBounds), d, false)
    ensures r.faceBlendshapes.Some? && r.faceBlendshapes.value != [] ==>
      var first := r.faceBlendshapes.value[0];
      && |ScoresReply(r, d).buffer| == |d|
      && (ScoresReply(r, d).report <==> |first| <= |d|)
      && (ScoresReply(r, d).outcome.Completed? <==> |first| <= |d|)
      && (forall i :: 0 <= i < |d| ==>
            ScoresReply(r, d).buffer[i] == if i < |first| then first[i].score else d[i])
  {
    if r.faceBlendshapes.Some? && r.faceBlendshapes.value != [] {
      WrittenAt(d, 0, Scores(r.faceBlendshapes.value[0]));
    }
  }

  /** One store `floatBuffer[j] = x`, in bounds, is a one-float run of writes from `j`. */
  lemma StoreStep(before: seq<real>, j: nat, x: real)
    requires j < |before|
    ensures before[j := x] == Written(before, j, [x])
  {
    assert [x][1..] == [];
  }

  /** The `forEach` of `onResults`: `floatBuffer[i++] = it.score()` for every category; the store
      past the end of the array throws. */
  method CopyScores(a: array<real>, cs: seq<Category>) returns (outcome: Outcome)
    modifies a
    ensures a[..] == Written(old(a[..]), 0, Scores(cs))
    ensures outcome == if |cs| <= a.Length then Completed else Threw(IndexOutOfBounds)
  {
    ghost var d0, xs := a[..], Scores(cs);
    var i := 0;
    while i < |cs|
      invariant 0 <= i <= |cs| && i <= a.Length
      invariant a[..] == Written(d0, 0, xs[..i])
    {
      ghost var before := a[..];
      if i >= a.Length {
        assert Written(before, i, [xs[i]]) == before;
        PutStep(d0, 0, xs, i, before, before);
        return Threw(IndexOutOfBounds);
      }
      a[i] := cs[i].score;
      StoreStep(before, i, xs[i]);
      PutStep(d0, 0, xs, i, before, a[..]);
      i := i + 1;
    }
    assert xs[..i] == xs;
    return Completed;
  }

  class Plugin {
    /** Whether `faceLandmarkerHelper` is non-null. */
    var hasHelper: bool
    /** Whether `cameraProvider` is non-null. */
    var hasCameraProvider: bool
    /** Whether `backgroundExecutor.shutdown()` has run. */
    var executorShutDown: bool
    var imProxy: Option<FrameId>
    var isDetecting: bool
    const floatBuffer: array<real>
    var effects: seq<Effect>

    function State(): Fields
      reads this
    {
      Fields(hasHelper, hasCameraProvider, executorShutDown, imProxy, isDetecting, effects)
    }

    ghost predicate Valid()
    {
      floatBuffer.Length == ScoreSlots
    }

    /** A fresh plugin: the field initialisers of the class, with a zero-filled score array. */
    constructor()
      ensures Valid() && fresh(floatBuffer)
      ensures forall i :: 0 <= i < ScoreSlots ==> floatBuffer[i] == 0.0
      ensures State() == Fields(false, false, false, None, false, [])
    {
      hasHelper := false;
      hasCameraProvider := false;
      executorShutDown := false;
      imProxy := None;
      isDetecting := false;
      floatBuffer := new real[ScoreSlots](_ => 0.0);
      effects := [];
    }

    /** `setupDetector`: posts to the background executor a block that closes the old landmarker
        helper, if any, and creates a new one; once `dispose` has shut the executor down, posting
        throws and nothing changes. */
    method SetupDetector() returns (outcome: Outcome)
      modifies this
      ensures outcome == if old(executorShutDown) then Threw(RejectedExecution) else Completed
      ensures old(executorShutDown) ==> State() == old(State())
      ensures !old(executorShutDown) ==>
        State() == old(State()).(hasHelper := true,
                                 effects := old(effects) + if old(hasHelper) then [ClearLandmarker] else [])
    {
      if executorShutDown {
        return Threw(RejectedExecution);
      }
      outcome := Completed;
      if hasHelper {
        effects := effects + [ClearLandmarker];
      }
      hasHelper := true;
    }

    /** The listener `setUpCamera` registers: records the camera provider, then binds the camera. */
    method CameraProviderReady()
      modifies this
      ensures State() == old(State()).(hasCameraProvider := true, effects := old(effects) + [Effect.BindCamera])
    {
      hasCameraProvider := true;
      effects := effects + [Effect.BindCamera];
    }

    /** `detectFace`: the frame becomes the analysed one and the flag is set, even when it was
        already set (that only logs); then the frame goes to the helper, if there is one. */
    method DetectFace(frame: FrameId)
      modifies this
      ensures State() == old(State()).(imProxy := Some(frame), isDetecting := true,
                                       effects := old(effects) + if old(hasHelper) then [DetectLiveStream(frame)] else [])
    {
      imProxy := Some(frame);
      isDetecting := true;
      if hasHelper {
        effects := effects + [DetectLiveStream(frame)];
      }
    }

    /** `resume`: does nothing without a camera provider; otherwise binds the camera. */
    method Resume()
      modifies this
      ensures State() == old(State()).(effects := old(effects) + if old(hasCameraProvider) then [Effect.BindCamera] else [])
    {
      if !hasCameraProvider {
        return;
      }
      effects := effects + [Effect.BindCamera];
    }

    /** `pause`: does nothing without a camera provider; otherwise unbinds the camera. */
    method Pause()
      modifies this
      ensures State() == old(State()).(effects := old(effects) + if old(hasCameraProvider) then [UnbindCamera] else [])
    {
      if !hasCameraProvider {
        return;
      }
      effects := effects + [UnbindCamera];
    }

    /** `dispose`: closes and drops the helper, unbinds the camera (through the provider, if any),
        drops the provider, shuts the background executor down and clears the flag. */
    method Dispose()
      modifies this
      ensures State() == old(State()).(hasHelper := false, hasCameraProvider := false, executorShutDown := true,
                                       isDetecting := false,
                                       effects := old(effects) + (if old(hasHelper) then [ClearLandmarker] else [])
                                                  + (if old(hasCameraProvider) then [UnbindCamera] else []))
    {
      if hasHelper {
        effects := effects + [ClearLandmarker];
      }
      hasHelper := false;
      if hasCameraProvider {
        effects := effects + [UnbindCamera];
      }
      hasCameraProvider := false;
      executorShutDown := true;
      isDetecting := false;
    }

    /** `onError`: closes the analysed frame, clears the flag and reports the message. */
    method OnError(error: string, errorCode: int)
      modifies this
      ensures State() == old(State()).(isDetecting := false,
                                       effects := old(effects) + CloseIfPresent(old(imProxy)) + [FaceDetectionError(error)])
    {
      effects := effects + CloseIfPresent(imProxy);
      isDetecting := false;
      effects := effects + [FaceDetectionError(error)];
    }

    /** `onEmpty`: closes the analysed frame, clears the flag and tells the host the face is lost. */
    method OnEmpty()
      modifies this
      ensures State() == old(State()).(isDetecting := false,
                                       effects := old(effects) + CloseIfPresent(old(imProxy)) + [FaceLost])
    {
      effects := effects + CloseIfPresent(imProxy);
      isDetecting := false;
      effects := effects + [FaceLost];
    }

    /** `onResults`: closes the analysed frame and clears the flag; with blendshapes, copies the first
        face's scores into the score array and hands the whole array to the host. */
    method OnResults(bundle: ResultBundle) returns (outcome: Outcome)
      requires Valid()
      modifies `isDetecting, `effects, floatBuffer
      ensures var reply := ScoresReply(bundle.result, old(floatBuffer[..]));
        && outcome == reply.outcome
        && floatBuffer[..] == reply.buffer
        && !isDetecting
        && effects == old(effects) + CloseIfPresent(imProxy)
                      + if reply.report then [FaceDetectionScores(floatBuffer[..], bundle.inferenceTime)] else []
    {
      effects := effects + CloseIfPresent(imProxy);
      isDetecting := false;
      if bundle.result.faceBlendshapes.None? {
        return Completed;
      }
      if bundle.result.faceBlendshapes.value == [] {
        return Threw(IndexOutOfBounds);
      }
      var list := bundle.result.faceBlendshapes.value[0];
      outcome := CopyScores(floatBuffer, list);
      if outcome.Completed? {
        effects := effects + [FaceDetectionScores(floatBuffer[..], bundle.inferenceTime)];
      }
    }
  }
}
