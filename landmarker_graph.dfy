/** The face-landmarker task wrapper (`FaceLandmarkerCustom`): the output streams it asks the
    MediaPipe graph for, the indices under which it later looks their packets up, the conversion
    of one set of output packets into a result, and the region-of-interest check the detection
    entry points make before they hand an image to the graph. */
module LandmarkerGraph {
  import opened Common

  /** The output stream tags `createFromOptions` requests, in the order it may append them. */
  const LandmarksStream: string := "NORM_LANDMARKS:face_landmarks"
  const ImageStream: string := "IMAGE:image_out"
  const BlendshapesStream: string := "BLENDSHAPES:face_blendshapes"
  const FaceGeometryStream: string := "FACE_GEOMETRY:face_geometry"

  /** `LANDMARKS_OUT_STREAM_INDEX` and `IMAGE_OUT_STREAM_INDEX`. */
  const LandmarksOutStreamIndex: nat := 0
  const ImageOutStreamIndex: nat := 1

  const InputStreams: seq<string> := ["IMAGE:image_in", "NORM_RECT:norm_rect_in"]

  const RegionOfInterestMessage: string := "FaceLandmarker doesn't support region-of-interest."

  datatype RunningMode = Image | Video | LiveStream

  /** The options `createFromOptions` and the converter read. */
  datatype Options = Options(runningMode: RunningMode, outputFaceBlendshapes: bool, outputFacialTransformationMatrixes: bool)

  /** What the task hands to `TaskRunner.create`. */
  datatype TaskInfo = TaskInfo(inputStreams: seq<string>, outputStreams: seq<string>, enableFlowLimiting: bool)

  /** The values of the two index fields. */
  datatype Indices = Indices(blendshapes: int, faceGeometry: int)

  /** Both index fields start at -1. */
  const UnsetIndices := Indices(-1, -1)

  /** One face's geometry; the converter keeps only its pose matrix. */
  datatype FaceGeometry = FaceGeometry(poseTransformMatrix: seq<real>)

  /** An output packet, with what each `PacketGetter.getProtoVector` parser reads out of it. */
  datatype Packet = Packet(
    isEmpty: bool,
    landmarkLists: seq<seq<Landmark>>,
    classificationLists: seq<seq<Category>>,
    faceGeometries: seq<FaceGeometry>)

  /** The output streams of `createFromOptions`: landmarks and image, then blendshapes and face
      geometry when their options are on. */
  function OutputStreams(o: Options): seq<string>
  {
    [LandmarksStream, ImageStream]
    + (if o.outputFaceBlendshapes then [BlendshapesStream] else [])
    + (if o.outputFacialTransformationMatrixes then [FaceGeometryStream] else [])
  }

  /** The index fields after `createFromOptions` with `o`: an enabled option's index becomes the
      position its stream was appended at; a disabled option's index keeps its earlier value. */
  function IndicesAfter(s: Indices, o: Options): Indices
  {
    Indices(if o.outputFaceBlendshapes then 2 else s.blendshapes,
            if o.outputFacialTransformationMatrixes then (if o.outputFaceBlendshapes then 3 else 2) else s.faceGeometry)
  }

  /** The layout the converter relies on: landmarks at 0, image at 1, two more streams than
      enabled options, and each enabled option's index naming that option's stream. */
  lemma StreamLayout(s: Indices, o: Options)
    ensures var streams, idx := OutputStreams(o), IndicesAfter(s, o);
      && |streams| == 2 + (if o.outputFaceBlendshapes then 1 else 0) + (if o.outputFacialTransformationMatrixes then 1 else 0)
      && streams[LandmarksOutStreamIndex] == LandmarksStream
      && streams[ImageOutStreamIndex] == ImageStream
      && (o.outputFaceBlendshapes ==> idx.blendshapes == 2 && streams[idx.blendshapes] == BlendshapesStream)
      && (o.outputFacialTransformationMatrixes ==>
            idx.faceGeometry == (if o.outputFaceBlendshapes then 3 else 2)
            && 0 <= idx.faceGeometry < |streams| && streams[idx.faceGeometry] == FaceGeometryStream)
      && (!o.outputFaceBlendshapes ==> idx.blendshapes == s.blendshapes)
      && (!o.outputFacialTransformationMatrixes ==> idx.faceGeometry == s.faceGeometry)
  {
  }

  /** The pose matrices of a geometry list, one per geometry, in order. */
  function PoseMatrices(gs: seq<FaceGeometry>): (ms: seq<seq<real>>)
    ensures |ms| == |gs|
    ensures forall i :: 0 <= i < |gs| ==> ms[i] == gs[i].poseTransformMatrix
  {
    seq(|gs|, i requires 0 <= i < |gs| => gs[i].poseTransformMatrix)
  }

  /** How the converter ends: a result, or the exception `List.get` throws. */
  datatype Conversion = Converted(result: FaceLandmarkerResult) | ConversionFailed(exception: Exception)

  /** `packets.get(i)`: throws for an index outside the list, including -1. */
  predicate InRange(packets: seq<Packet>, i: int)
  {
    0 <= i < |packets|
  }

  /** `convertToTaskResult`, reading the optional streams at `idx`; `timestampMs` is what
      `generateResultTimestampMs` gives for the landmark packet. An empty landmark packet gives
      an empty result; otherwise each enabled option's list is read from its packet. */
  function Convert(o: Options, idx: Indices, packets: seq<Packet>, timestampMs: int): Conversion
  {
    if !InRange(packets, LandmarksOutStreamIndex) then ConversionFailed(IndexOutOfBounds)
    else if packets[LandmarksOutStreamIndex].isEmpty then Converted(FaceLandmarkerResult([], None, None, timestampMs))
    else if o.outputFaceBlendshapes && !InRange(packets, idx.blendshapes) then ConversionFailed(IndexOutOfBounds)
    else if o.outputFacialTransformationMatrixes && !InRange(packets, idx.faceGeometry) then ConversionFailed(IndexOutOfBounds)
    else
      Converted(FaceLandmarkerResult(
        packets[LandmarksOutStreamIndex].landmarkLists,
        if o.outputFaceBlendshapes then Some(packets[idx.blendshapes].classificationLists) else None,
        if o.outputFacialTransformationMatrixes then Some(PoseMatrices(packets[idx.faceGeometry].faceGeometries)) else None,
        timestampMs))
  }

  /** The indices a task created with `o` should read: the positions its own streams were
      appended at. */
  function OwnIndices(o: Options): (idx: Indices)
    ensures o.outputFaceBlendshapes ==>
      0 <= idx.blendshapes < |OutputStreams(o)| && OutputStreams(o)[idx.blendshapes] == BlendshapesStream
    ensures o.outputFacialTransformationMatrixes ==>
      0 <= idx.faceGeometry < |OutputStreams(o)| && OutputStreams(o)[idx.faceGeometry] == FaceGeometryStream
  {
    IndicesAfter(UnsetIndices, o)
  }

  /** Right after its own `createFromOptions`, a task's enabled options read the index fields at
      its own positions: for a task that is alone, the shared fields do no harm. */
  lemma OwnIndicesRightAfterCreation(s: Indices, o: Options, packets: seq<Packet>, timestampMs: int)
    ensures Convert(o, IndicesAfter(s, o), packets, timestampMs) == Convert(o, OwnIndices(o), packets, timestampMs)
  {
  }

  /** The shape of a converted result, packets one per requested stream: with an empty landmark
      packet, no faces and neither optional list; otherwise the landmark lists, blendshapes
      present exactly when requested and read from the blendshape stream, and matrices present
      exactly when requested, one pose matrix per geometry of the face-geometry stream, in order. */
  lemma ConvertShape(o: Options, packets: seq<Packet>, timestampMs: int)
    requires |packets| == |OutputStreams(o)|
    ensures Convert(o, OwnIndices(o), packets, timestampMs).Converted?
    ensures var r := Convert(o, OwnIndices(o), packets, timestampMs).result;
      && r.timestampMs == timestampMs
      && (packets[0].isEmpty ==> r == FaceLandmarkerResult([], None, None, timestampMs))
      && (!packets[0].isEmpty ==>
            && r.faceLandmarks == packets[0].landmarkLists
            && (r.faceBlendshapes.Some? <==> o.outputFaceBlendshapes)
            && (o.outputFaceBlendshapes ==> r.faceBlendshapes.value == packets[2].classificationLists)
            && (r.facialTransformationMatrixes.Some? <==> o.outputFacialTransformationMatrixes)
            && (o.outputFacialTransformationMatrixes ==>
                  var gs := packets[if o.outputFaceBlendshapes then 3 else 2].faceGeometries;
                  && |r.facialTransformationMatrixes.value| == |gs|
                  && forall i :: 0 <= i < |gs| ==> r.facialTransformationMatrixes.value[i] == gs[i].poseTransformMatrix))
  {
  }

  /** As written, the two index fields are shared by every task. A task `a` created with both
      options on reads face geometry at 3; once a second task `b` is created with blendshapes off
      and matrices on, the shared field says 2, and `a`'s converter takes its matrices from its
      blendshape packet, while at its own index they come from its face-geometry packet. */
  lemma SharedIndicesMisread(packets: seq<Packet>, timestampMs: int)
    requires |packets| == 4 && !packets[0].isEmpty
    requires packets[2].faceGeometries != packets[3].faceGeometries
    ensures var a, b := Options(LiveStream, true, true), Options(LiveStream, false, true);
      var shared := IndicesAfter(IndicesAfter(UnsetIndices, a), b);
      && OutputStreams(a)[shared.faceGeometry] == BlendshapesStream
      && Convert(a, shared, packets, timestampMs).result.facialTransformationMatrixes == Some(PoseMatrices(packets[2].faceGeometries))
      && Convert(a, OwnIndices(a), packets, timestampMs).result.facialTransformationMatrixes == Some(PoseMatrices(packets[3].faceGeometries))
      && Convert(a, shared, packets, timestampMs) != Convert(a, OwnIndices(a), packets, timestampMs)
  {
  }

  /** `validateImageProcessingOptions`: a region of interest is refused. */
  function ValidateImageProcessingOptions(opts: ImageProcessingOptions): (r: Outcome)
    ensures r.Threw? <==> opts.regionOfInterest.Some?
    ensures r.Threw? ==> r.exception == IllegalArgument(RegionOfInterestMessage)
  {
    if opts.regionOfInterest.Some? then Threw(IllegalArgument(RegionOfInterestMessage)) else Completed
  }

  /** A normalized rectangle. */
  datatype RectF = RectF(left: real, top: real, right: real, bottom: real)

  datatype ImageProcessingOptions = ImageProcessingOptions(regionOfInterest: Option<RectF>, rotationDegrees: int)

  /** `ImageProcessingOptions.builder().build()`, which the one-argument entry points pass. */
  const DefaultImageProcessingOptions := ImageProcessingOptions(None, 0)

  /** An image handed to the graph, with what `processImageData`, `processVideoData` or
      `sendLiveStreamData` was asked to do with it. */
  datatype Request =
    | ProcessImage(image: int, opts: ImageProcessingOptions)
    | ProcessVideo(image: int, opts: ImageProcessingOptions, timestampMs: int)
    | SendLiveStream(image: int, opts: ImageProcessingOptions, timestampMs: int)

  /** The two static index fields. */
  class StaticIndices {
    var blendshapesOutStreamIndex: int
    var faceGeometryOutStreamIndex: int

    function Values(): Indices
      reads this
    {
      Indices(blendshapesOutStreamIndex, faceGeometryOutStreamIndex)
    }

    constructor()
      ensures Values() == UnsetIndices
    {
      blendshapesOutStreamIndex := -1;
      faceGeometryOutStreamIndex := -1;
    }
  }

  /** A task created by `createFromOptions`. */
  class FaceLandmarkerCustom {
    const options: Options
    const taskInfo: TaskInfo
    /** The images handed to the graph so far. */
    var requests: seq<Request>

    constructor(o: Options, info: TaskInfo)
      ensures options == o && taskInfo == info && requests == []
    {
      options := o;
      taskInfo := info;
      requests := [];
    }

    /** `detect`: validates the options, then processes the image. */
    method Detect(image: int, opts: ImageProcessingOptions) returns (outcome: Outcome)
      modifies `requests
      ensures outcome == ValidateImageProcessingOptions(opts)
      ensures requests == old(requests) + if outcome.Completed? then [ProcessImage(image, opts)] else []
    {
      outcome := ValidateImageProcessingOptions(opts);
      if outcome.Threw? {
        return;
      }
      requests := requests + [ProcessImage(image, opts)];
    }

    /** `detectForVideo`: validates the options, then processes the frame. */
    method DetectForVideo(image: int, opts: ImageProcessingOptions, timestampMs: int) returns (outcome: Outcome)
      modifies `requests
      ensures outcome == ValidateImageProcessingOptions(opts)
      ensures requests == old(requests) + if outcome.Completed? then [ProcessVideo(image, opts, timestampMs)] else []
    {
      outcome := ValidateImageProcessingOptions(opts);
      if outcome.Threw? {
        return;
      }
      requests := requests + [ProcessVideo(image, opts, timestampMs)];
    }

    /** `detectAsync`: validates the options, then sends the frame to the live stream. */
    method DetectAsync(image: int, opts: ImageProcessingOptions, timestampMs: int) returns (outcome: Outcome)
      modifies `requests
      ensures outcome == ValidateImageProcessingOptions(opts)
      ensures requests == old(requests) + if outcome.Completed? then [SendLiveStream(image, opts, timestampMs)] else []
    {
      outcome := ValidateImageProcessingOptions(opts);
      if outcome.Threw? {
        return;
      }
      requests := requests + [SendLiveStream(image, opts, timestampMs)];
    }

    /** The converter of this task, reading the optional streams at the positions this task
        appended them at. */
    method ConvertToTaskResult(packets: seq<Packet>, timestampMs: int) returns (c: Conversion)
      ensures c == Convert(options, OwnIndices(options), packets, timestampMs)
    {
      var idx := OwnIndices(options);
      if |packets| <= LandmarksOutStreamIndex {
        return ConversionFailed(IndexOutOfBounds);
      }
      var landmarks := packets[LandmarksOutStreamIndex];
      if landmarks.isEmpty {
        return Converted(FaceLandmarkerResult([], None, None, timestampMs));
      }
      var blendshapes: Option<seq<seq<Category>>> := None;
      if options.outputFaceBlendshapes {
        if !(0 <= idx.blendshapes < |packets|) {
          return ConversionFailed(IndexOutOfBounds);
        }
        blendshapes := Some(packets[idx.blendshapes].classificationLists);
      }
      var matrices: Option<seq<seq<real>>> := None;
      if options.outputFacialTransformationMatrixes {
        if !(0 <= idx.faceGeometry < |packets|) {
          return ConversionFailed(IndexOutOfBounds);
        }
        var ms := CollectPoseMatrices(packets[idx.faceGeometry].faceGeometries);
        matrices := Some(ms);
      }
      return Converted(FaceLandmarkerResult(landmarks.landmarkLists, blendshapes, matrices, timestampMs));
    }
  }

  /** The `for` loop of the converter: one pose matrix per face geometry, appended in order. */
  method CollectPoseMatrices(gs: seq<FaceGeometry>) returns (ms: seq<seq<real>>)
    ensures ms == PoseMatrices(gs)
  {
    ms := [];
    var i := 0;
    while i < |gs|
      invariant 0 <= i <= |gs|
      invariant ms == PoseMatrices(gs[..i])
    {
      ms := ms + [gs[i].poseTransformMatrix];
      i := i + 1;
    }
    assert gs[..i] == gs;
  }

  /** `createFromOptions`: appends the enabled output streams after landmarks and image, sets an
      enabled option's static index to the position its stream went in at, and builds a task whose
      runner limits the flow of frames exactly in live-stream mode. */
  method CreateFromOptions(statics: StaticIndices, o: Options) returns (task: FaceLandmarkerCustom)
    modifies statics
    ensures fresh(task) && task.options == o && task.requests == []
    ensures task.taskInfo == TaskInfo(InputStreams, OutputStreams(o), o.runningMode == LiveStream)
    ensures statics.Values() == IndicesAfter(old(statics.Values()), o)
  {
    var outputStreams: seq<string> := [];
    outputStreams := outputStreams + [LandmarksStream];
    outputStreams := outputStreams + [ImageStream];
    if o.outputFaceBlendshapes {
      outputStreams := outputStreams + [BlendshapesStream];
      statics.blendshapesOutStreamIndex := |outputStreams| - 1;
    }
    if o.outputFacialTransformationMatrixes {
      outputStreams := outputStreams + [FaceGeometryStream];
      statics.faceGeometryOutStreamIndex := |outputStreams| - 1;
    }
    task := new FaceLandmarkerCustom(o, TaskInfo(InputStreams, outputStreams, o.runningMode == LiveStream));
  }
}
