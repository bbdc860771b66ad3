/** Values shared by the three plugin variants, the landmarker wrapper and its helper:
    the face-landmarker result as the plugins see it, the exceptions the plugins can
    throw, and the effects (callbacks, image closes) they have on the outside world. */
module Common {

  datatype Option<T> = None | Some(value: T) {
    /** Kotlin's `Optional.getOrDefault` / Java's `Optional.orElse`. */
    function GetOr(default: T): T {
      match this
      case Some(v) => v
      case None => default
    }
  }

  /** Identity of a camera frame (an `ImageProxy`); only opened and closed, never looked into. */
  type FrameId = int

  /** A normalized landmark: three coordinates and two optional confidences. */
  datatype Landmark = Landmark(x: real, y: real, z: real, visibility: Option<real>, presence: Option<real>)

  /** One blendshape category; the plugins only read its score. */
  datatype Category = Category(index: int, score: real, categoryName: string)

  /** The face-landmarker result: one landmark list per face, and, when requested,
      one blendshape list and one 16-float transformation matrix per face. */
  datatype FaceLandmarkerResult = FaceLandmarkerResult(
    faceLandmarks: seq<seq<Landmark>>,
    faceBlendshapes: Option<seq<seq<Category>>>,
    facialTransformationMatrixes: Option<seq<seq<real>>>,
    timestampMs: int)

  /** `FaceLandmarkerHelper.ResultBundle`. */
  datatype ResultBundle = ResultBundle(
    result: FaceLandmarkerResult,
    inferenceTime: int,
    inputImageHeight: int,
    inputImageWidth: int)

  /** The run-time exceptions the modelled code can raise. */
  datatype Exception =
    | NullPointer                     // `x!!` on a null reference
    | BufferOverflow                  // `ByteBuffer.putFloat` with fewer than 4 bytes remaining
    | IllegalArgument(message: string) // Kotlin `require`, `allocateDirect` of a negative size
    | IndexOutOfBounds                // `List.get` / array index past the end
    | Arithmetic                      // integer division by zero
    | RejectedExecution               // `ExecutorService.execute` after `shutdown()`

  /** How a plugin callback ended: normally, or by throwing. */
  datatype Outcome = Completed | Threw(exception: Exception)

  /** What the plugins do to the world outside their own fields: close camera frames,
      forward frames to the landmarker, and call the host through its `ManagedBridge`. */
  datatype Effect =
    | CloseImage(frame: FrameId)
    | DetectLiveStream(frame: FrameId)
    | FaceDetectionSetup(facesCount: int, landmarksArrayLength: int,
                         blendshapesArrayLength: int, transformationMatricesArrayLength: int)
    | FaceDetectionResult(facesCount: int, inferenceTime: int)
    | FaceDetectionScores(scores: seq<real>, inferenceTime: int)
    | FaceDetectionError(message: string)
    | FaceLost
    | BindCamera
    | UnbindCamera
    | ClearLandmarker

  /** `analyzedImage?.close()`: the effect of closing an optional frame. */
  function CloseIfPresent(image: Option<FrameId>): (r: seq<Effect>)
    ensures image.None? <==> r == []
    ensures image.Some? ==> r == [CloseImage(image.value)]
  {
    match image
    case None => []
    case Some(f) => [CloseImage(f)]
  }
}
