/** The landmarker helper (`FaceLandmarkerHelper`): it owns the MediaPipe face landmarker, picks
    its hardware delegate, feeds it camera frames and routes each live-stream result or error to
    the plugin listening to it. */
module LandmarkerHelper {
  import opened Common

  /** `DELEGATE_CPU`, `DELEGATE_GPU`. */
  const DelegateCpu: int := 0
  const DelegateGpu: int := 1

  /** `OTHER_ERROR`, `GPU_ERROR`. */
  const OtherError: int := 0
  const GpuError: int := 1

  const ModelAssetPath: string := "face_landmarker.task"
  const InitFailedMessage: string := "Face Landmarker failed to initialize."
  const GpuFailedMessage: string := "Face Landmarker failed to initialize. See error logs for details"
  const UnknownErrorMessage: string := "An unknown error has occurred"

  datatype Delegate = CPU | GPU

  /** The `when (currentDelegate)` of `setupFaceLandmarker`: the delegate set on the base options,
      if any. */
  function DelegateFor(currentDelegate: int): (d: Option<Delegate>)
    ensures d == Some(CPU) <==> currentDelegate == DelegateCpu
    ensures d == Some(GPU) <==> currentDelegate == DelegateGpu
    ensures d.None? <==> currentDelegate != DelegateCpu && currentDelegate != DelegateGpu
  {
    if currentDelegate == DelegateCpu then Some(CPU)
    else if currentDelegate == DelegateGpu then Some(GPU)
    else None
  }

  /** The options `setupFaceLandmarker` builds (the confidences are passed through and left out). */
  datatype LandmarkerOptions = LandmarkerOptions(
    delegate: Option<Delegate>,
    modelAssetPath: string,
    numFaces: int,
    outputFacialTransformationMatrixes: bool,
    outputFaceBlendshapes: bool,
    liveStream: bool)

  /** How `FaceLandmarker.createFromOptions` ends: a landmarker, or a thrown exception with its
      (possibly null) message. */
  datatype Creation =
    | Created
    | IllegalState(message: Option<string>)
    | OtherRuntime(message: Option<string>)

  /** Kotlin's string template of a nullable message: `null` prints as "null". */
  function MessageText(message: Option<string>): (r: string)
    ensures message.Some? ==> r == message.value
    ensures message.None? ==> r == "null"
  {
    match message
    case Some(m) => m
    case None => "null"
  }

  /** What the helper does to the world: calls to its listener, and calls to its landmarker and
      the images it is given. */
  datatype Event =
    | ListenerError(message: string, errorCode: int)
    | ListenerResults(bundle: ResultBundle)
    | ListenerEmpty
    | CloseLandmarker
    | DetectAsync(frame: FrameId, frameTimeMs: int)
    | CloseInput

  /** The listener calls of a failed setup: `IllegalStateException` reports its message with the
      default code; any other runtime exception reports the GPU message with `GPU_ERROR`. */
  function SetupFailure(c: Creation): (r: seq<Event>)
    ensures c.Created? <==> r == []
    ensures c.IllegalState? ==> r == [ListenerError(InitFailedMessage + MessageText(c.message), OtherError)]
    ensures c.OtherRuntime? ==> r == [ListenerError(GpuFailedMessage, GpuError)]
  {
    match c
    case Created => []
    case IllegalState(m) => [ListenerError(InitFailedMessage + MessageText(m), OtherError)]
    case OtherRuntime(_) => [ListenerError(GpuFailedMessage, GpuError)]
  }

  /** What `returnLivestreamResult` does: the events it causes and how it ends. */
  datatype Routing = Routing(events: seq<Event>, outcome: Outcome)

  /** `returnLivestreamResult`, `listenerOutcome` being how the listener's callback ends: no faces
      go to `onEmpty`; otherwise `onResults` gets the result with the time since its timestamp and
      the input's height and width, and then the input image is closed. A listener that throws
      ends the call there, so the input stays open; without a listener, `?.` calls nothing. */
  function LivestreamResult(listening: bool, listenerOutcome: Outcome, result: FaceLandmarkerResult,
                            inputHeight: int, inputWidth: int, finishTimeMs: int): Routing
  {
    if |result.faceLandmarks| == 0 then
      if listening then Routing([ListenerEmpty], listenerOutcome) else Routing([], Completed)
    else if !listening then Routing([CloseInput], Completed)
    else
      var call := [ListenerResults(ResultBundle(result, finishTimeMs - result.timestampMs, inputHeight, inputWidth))];
      if listenerOutcome.Completed? then Routing(call + [CloseInput], Completed)
      else Routing(call, listenerOutcome)
  }

  /** A result with no faces reaches the listener only as `onEmpty`, never as `onResults`, and its
      input is not closed; any other result reaches it exactly once as `onResults`, carrying the
      elapsed time since its timestamp, then height, then width. The input is closed, as the last
      event, exactly when the listener returned (or there is none), and the call throws exactly
      what the listener threw. */
  lemma LivestreamRouting(listening: bool, listenerOutcome: Outcome, result: FaceLandmarkerResult,
                          inputHeight: int, inputWidth: int, finishTimeMs: int)
    ensures var r := LivestreamResult(listening, listenerOutcome, result, inputHeight, inputWidth, finishTimeMs);
      var es := r.events;
      && r.outcome == (if listening then listenerOutcome else Completed)
      && (|result.faceLandmarks| == 0 ==>
            && (forall i :: 0 <= i < |es| ==> es[i] == ListenerEmpty)
            && (ListenerEmpty in es <==> listening))
      && (|result.faceLandmarks| > 0 ==>
            && ListenerEmpty !in es
            && (CloseInput in es <==> !listening || listenerOutcome.Completed?)
            && (CloseInput in es ==> es[|es| - 1] == CloseInput)
            && (listening <==> |es| > 0 && es[0].ListenerResults?)
            && (listening ==> && es[0].bundle.result == result
                              && es[0].bundle.inferenceTime == finishTimeMs - result.timestampMs
                              && es[0].bundle.inputImageHeight == inputHeight
                              && es[0].bundle.inputImageWidth == inputWidth))
  {
  }

  /** `returnLivestreamError`: the exception's message, or a fixed text when it has none. */
  function ErrorMessage(message: Option<string>): (r: string)
    ensures message.Some? ==> r == message.value
    ensures message.None? ==> r == UnknownErrorMessage
  {
    message.GetOr(UnknownErrorMessage)
  }

  class FaceLandmarkerHelper {
    const maxNumFaces: int
    const currentDelegate: int
    const outputBlendshapes: bool
    const outputTransformationMatrices: bool
    /** Whether `faceLandmarkerHelperListener` is non-null. */
    const listening: bool
    /** Whether `faceLandmarker` is non-null. */
    var hasLandmarker: bool
    /** The options of the last `createFromOptions` call. */
    var lastOptions: Option<LandmarkerOptions>
    var events: seq<Event>

    /** The options `setupFaceLandmarker` passes to `createFromOptions`. */
    function Options(): (o: LandmarkerOptions)
      ensures o.delegate == DelegateFor(currentDelegate) && o.modelAssetPath == ModelAssetPath
      ensures o.numFaces == maxNumFaces && o.liveStream
      ensures o.outputFaceBlendshapes == outputBlendshapes && o.outputFacialTransformationMatrixes == outputTransformationMatrices
    {
      LandmarkerOptions(DelegateFor(currentDelegate), ModelAssetPath, maxNumFaces,
                        outputTransformationMatrices, outputBlendshapes, true)
    }

    /** `isClose()`. */
    predicate IsClose()
      reads this
    {
      !hasLandmarker
    }

    /** The constructor runs `setupFaceLandmarker`; `creation` is how `createFromOptions` ends. */
    constructor(maxNumFaces: int, currentDelegate: int, outputBlendshapes: bool, outputTransformationMatrices: bool,
                listening: bool, creation: Creation)
      ensures this.maxNumFaces == maxNumFaces && this.currentDelegate == currentDelegate
      ensures this.outputBlendshapes == outputBlendshapes && this.outputTransformationMatrices == outputTransformationMatrices
      ensures this.listening == listening
      ensures lastOptions == Some(Options())
      ensures hasLandmarker <==> creation.Created?
      ensures events == if listening then SetupFailure(creation) else []
    {
      this.maxNumFaces := maxNumFaces;
      this.currentDelegate := currentDelegate;
      this.outputBlendshapes := outputBlendshapes;
      this.outputTransformationMatrices := outputTransformationMatrices;
      this.listening := listening;
      hasLandmarker := false;
      lastOptions := None;
      events := [];
      new;
      SetupFaceLandmarker(creation);
    }

    /** `setupFaceLandmarker`: builds the options and creates the landmarker; a failure leaves the
        landmarker field as it was and reports the error to the listener, if any. */
    method SetupFaceLandmarker(creation: Creation)
      modifies `hasLandmarker, `lastOptions, `events
      ensures lastOptions == Some(Options())
      ensures hasLandmarker == (creation.Created? || old(hasLandmarker))
      ensures events == old(events) + if listening then SetupFailure(creation) else []
    {
      var options := Options();
      lastOptions := Some(options);
      match creation {
        case Created =>
          hasLandmarker := true;
        case IllegalState(message) =>
          if listening {
            events := events + [ListenerError(InitFailedMessage + MessageText(message), OtherError)];
          }
        case OtherRuntime(_) =>
          if listening {
            events := events + [ListenerError(GpuFailedMessage, GpuError)];
          }
      }
    }

    /** `clearFaceLandmarker`: closes the landmarker, if any, and drops it. */
    method ClearFaceLandmarker()
      modifies `hasLandmarker, `events
      ensures IsClose()
      ensures events == old(events) + if old(hasLandmarker) then [CloseLandmarker] else []
    {
      if hasLandmarker {
        events := events + [CloseLandmarker];
      }
      hasLandmarker := false;
    }

    /** `detectLiveStream`, `frameTimeMs` being the clock it reads: `imageProxy.image!!` throws
        for a frame without an image; otherwise the frame goes to `detectAsync`. */
    method DetectLiveStream(frame: FrameId, hasImage: bool, frameTimeMs: int) returns (outcome: Outcome)
      modifies `events
      ensures outcome == if hasImage then Completed else Threw(NullPointer)
      ensures events == old(events) + if hasImage && hasLandmarker then [DetectAsync(frame, frameTimeMs)] else []
    {
      if !hasImage {
        return Threw(NullPointer);
      }
      DetectAsyncFrame(frame, frameTimeMs);
      return Completed;
    }

    /** `detectAsync`: hands the frame to the landmarker, if there is one. */
    method DetectAsyncFrame(frame: FrameId, frameTimeMs: int)
      modifies `events
      ensures events == old(events) + if hasLandmarker then [DetectAsync(frame, frameTimeMs)] else []
    {
      if hasLandmarker {
        events := events + [DetectAsync(frame, frameTimeMs)];
      }
    }

    /** `returnLivestreamResult`, `finishTimeMs` being the clock it reads and `listenerOutcome` how
        the listener's callback ends. */
    method ReturnLivestreamResult(result: FaceLandmarkerResult, inputHeight: int, inputWidth: int, finishTimeMs: int,
                                  listenerOutcome: Outcome)
      returns (outcome: Outcome)
      modifies `events
      ensures var r := LivestreamResult(listening, listenerOutcome, result, inputHeight, inputWidth, finishTimeMs);
        events == old(events) + r.events && outcome == r.outcome
    {
      if |result.faceLandmarks| == 0 {
        if listening {
          events := events + [ListenerEmpty];
          return listenerOutcome;
        }
        return Completed;
      }
      var inferenceTime := finishTimeMs - result.timestampMs;
      if listening {
        events := events + [ListenerResults(ResultBundle(result, inferenceTime, inputHeight, inputWidth))];
        if listenerOutcome.Threw? {
          return listenerOutcome;
        }
      }
      events := events + [CloseInput];
      return Completed;
    }

    /** `returnLivestreamError`: reports the message, or the fixed text, with the default code. */
    method ReturnLivestreamError(message: Option<string>)
      modifies `events
      ensures events == old(events) + if listening then [ListenerError(ErrorMessage(message), OtherError)] else []
    {
      if listening {
        events := events + [ListenerError(message.GetOr(UnknownErrorMessage), OtherError)];
      }
    }
  }
}
