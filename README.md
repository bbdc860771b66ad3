# Face-landmark plugin bookkeeping, in Dafny

This project models the bookkeeping that the Android face-landmark plugins in this repository do
around CameraX, the MediaPipe face landmarker and the host application. It covers the following pieces:

- **Buffer packing.** Three variants of `MLFaceLandmarksPlugin.onResults` flatten nested per-face results into buffers:
  - the face-tracking plugin (`com.visionsnap.facetracking`);
  - the landmark plugin (`com.neatyassets.mediapipeFaceLandmarkPlugin`);
  - the blendshape plugin (`com.test.mlfacelandmarkplugin`).

  The first two write into three direct `ByteBuffer`s through `putFloat`. The third writes into a fixed 53-float array.
- **Buffer sizing.** `initBuffers` allocates the buffers from `maxFacesDetectedCount`, using 32-bit `Int` arithmetic.
- **Frame handling.** Each variant has a detection flag and closes the analysed frame. The face-tracking plugin also throttles frames to a frame-rate limit.
- **Matrix rotation.** The face-tracking plugin rotates each transformation matrix about Z, through `rotateZ`, `matrixMultiply` and `calculateCameraRotation`.
- **The task wrapper `FaceLandmarkerCustom`.** This covers:
  - the output-stream list and the stream indices;
  - the packet-to-result converter;
  - the region-of-interest check;
  - flow limiting.
- **The helper `FaceLandmarkerHelper`.** This covers:
  - delegate selection;
  - `clearFaceLandmarker`/`isClose`;
  - setup-failure reporting;
  - result routing to `onEmpty`/`onResults`;
  - error-message defaulting.

Modules:

- **State and effects.** Each plugin and helper object is a Dafny `class`. Its fields are the Kotlin/Java fields that its methods reassign.
  - A `ByteBuffer` becomes a `Buffers.FloatBuffer`: a `data` array of floats plus a `pos` position. `putFloat` writes at the position and fails when the buffer is full.
  - What a method does to the outside world becomes an `effects` (or `events`/`requests`) trace that the method appends to. This covers closing a frame, calling the host bridge, calling the listener, and handing a frame to the landmarker.
  - An exception that a method throws is returned as an `Outcome`. The state that was changed before the throw is kept.
- **`Flatten`, `Buffers`, `Packing`.** These say, as functions on values, what the nested `forEach` loops write:
  - `Written` takes the contents, a position and a stream of floats, and gives the contents after consecutive `putFloat`s that stop at the first overflow;
  - `RunSection`/`PackResults` give how `onResults` ends and the buffers it leaves;
  - `Init` gives what `initBuffers` leaves.

  The methods are proved against these functions. The lemmas state what the host then finds, and where.
- **`Rotation`.** The matrix code, over exact reals.
- **One module per variant.** `FaceTrackingPlugin`, `LandmarksPlugin` and `BlendshapesPlugin`.
- **`LandmarkerGraph` and `LandmarkerHelper`.** The task wrapper and the helper.

Integer arithmetic:

- Kotlin `Int` products in `initBuffers` are wrapped to 32 bits explicitly (`Packing.Wrap32`).
- Kotlin `/` truncates toward zero (`FaceTrackingPlugin.KotlinDiv`).
- `%` on `Float` takes the sign of the dividend (`Rotation.TruncMod`).

## Model

| member | source | states |
|---|---|---|
| `Common.CloseIfPresent` | app/src/main/java/com/neatyassets/mediapipeFaceLandmarkPlugin/MLFaceLandmarksPlugin.kt:324 | `analyzedImage?.close()` closes exactly the frame that is present, and nothing when there is none |
| `Buffers.Written` | app/src/main/java/com/neatyassets/mediapipeFaceLandmarkPlugin/MLFaceLandmarksPlugin.kt:341-351 | consecutive relative `putFloat`s never change the buffer's size |
| `Buffers.WrittenAt` | app/src/main/java/com/neatyassets/mediapipeFaceLandmarkPlugin/MLFaceLandmarksPlugin.kt:341-351 | after writes from position `p`, slots before `p` are unchanged, and slot `p + i` holds float `i` of the stream while the stream reaches, else its old value |
| `Buffers.WrittenAppend` | app/src/main/java/com/neatyassets/mediapipeFaceLandmarkPlugin/MLFaceLandmarksPlugin.kt:341-351 | two runs of writes that fit compose into one run of the concatenated stream |
| `Buffers.WrittenOverflow` | app/src/main/java/com/neatyassets/mediapipeFaceLandmarkPlugin/MLFaceLandmarksPlugin.kt:341-351 | once a run overflows, whatever would follow it changes nothing |
| `Buffers.FloatBuffer.PutFloat` | app/src/main/java/com/neatyassets/mediapipeFaceLandmarkPlugin/MLFaceLandmarksPlugin.kt:346 | `putFloat` succeeds exactly when the position is below capacity; it then stores at the position and advances it, else it changes nothing |
| `Buffers.PutFloats` | app/src/main/java/com/neatyassets/mediapipeFaceLandmarkPlugin/MLFaceLandmarksPlugin.kt:345-349 | the five `putFloat`s of one landmark: succeed iff they fit; the contents become `Written(old, pos, xs)` and the position advances by `|xs|` or ends at capacity |
| `Buffers.PutList` | app/src/main/java/com/neatyassets/mediapipeFaceLandmarkPlugin/MLFaceLandmarksPlugin.kt:344-350 | the inner `forEach`: the contents become `Written` of the flattened list, and it stops at the first overflow |
| `Buffers.PutNested` | app/src/main/java/com/neatyassets/mediapipeFaceLandmarkPlugin/MLFaceLandmarksPlugin.kt:343-351 | the two nested `forEach` loops write the face-then-element stream `Flat2`, and succeed iff it fits from the old position |
| `Buffers.Flat2Step` | app/src/main/java/com/neatyassets/mediapipeFaceLandmarkPlugin/MLFaceLandmarksPlugin.kt:343-351 | flattening one more face extends the stream by that face's floats and stays a prefix of the whole stream |
| `Buffers.AppendStep` | app/src/main/java/com/neatyassets/mediapipeFaceLandmarkPlugin/MLFaceLandmarksPlugin.kt:343-351 | a piece written after a prefix of the stream is one run, and an overflow leaves what the whole stream would |
| `Flatten.ConcatMapPrefix` | app/src/main/java/com/neatyassets/mediapipeFaceLandmarkPlugin/MLFaceLandmarksPlugin.kt:344-350 | the floats of a prefix of a list are a prefix of the list's floats |
| `Flatten.ConcatMapBound` | app/src/main/java/com/neatyassets/mediapipeFaceLandmarkPlugin/MLFaceLandmarksPlugin.kt:344-350 | elements of at most `w` floats give at most `n * w` floats |
| `Flatten.ConcatMapLength` | app/src/main/java/com/neatyassets/mediapipeFaceLandmarkPlugin/MLFaceLandmarksPlugin.kt:344-350 | elements of exactly `w` floats give exactly `n * w` floats |
| `Flatten.ConcatMapAt` | app/src/main/java/com/neatyassets/mediapipeFaceLandmarkPlugin/MLFaceLandmarksPlugin.kt:344-350 | with width `w`, float `j` of element `i` is at `i * w + j` |
| `Packing.Wrap32` | facetracking/src/main/java/com/visionsnap/facetracking/MLFaceLandmarksPlugin.kt:360-368 | Kotlin `Int` arithmetic: the result is congruent to the exact value modulo 2^32 and equals it when it fits |
| `Packing.CapacitiesExact` | facetracking/src/main/java/com/visionsnap/facetracking/MLFaceLandmarksPlugin.kt:360-368 | up to 224632 faces the requested sizes are the exact products, so the buffers hold max×478×5, max×52 and max×16 floats |
| `Packing.LandmarksBytesWrap` | facetracking/src/main/java/com/visionsnap/facetracking/MLFaceLandmarksPlugin.kt:360-361 | at 224633 faces the landmark size wraps to a negative `Int` |
| `Packing.AllocateFloats` | facetracking/src/main/java/com/visionsnap/facetracking/MLFaceLandmarksPlugin.kt:360-368 | `allocateDirect` throws exactly for a negative size, and otherwise gives a buffer of `bytes / 4` floats |
| `Packing.Init` | facetracking/src/main/java/com/visionsnap/facetracking/MLFaceLandmarksPlugin.kt:355-383 | `initBuffers` completes iff none of the three sizes is negative; otherwise it throws the `allocateDirect` exception; on completion all three views are well formed |
| `Packing.InitExact` | app/src/main/java/com/neatyassets/mediapipeFaceLandmarkPlugin/MLFaceLandmarksPlugin.kt:300-308 | for 0..224632 faces, `initBuffers` completes with zero-filled buffers of max×478×5, max×52 and max×16 floats at position 0 |
| `Packing.AllocateBuffers` | app/src/main/java/com/neatyassets/mediapipeFaceLandmarkPlugin/MLFaceLandmarksPlugin.kt:300-308 | the three allocations leave exactly the buffers `Init` describes; they stay valid and pairwise distinct; each replaced buffer is fresh |
| `Packing.LandmarkFloats` | app/src/main/java/com/neatyassets/mediapipeFaceLandmarkPlugin/MLFaceLandmarksPlugin.kt:345-349 | each landmark contributes exactly five floats |
| `Packing.Flat2Bound` | app/src/main/java/com/neatyassets/mediapipeFaceLandmarkPlugin/MLFaceLandmarksPlugin.kt:343-351 | faces of at most `m` floats flatten to at most `faces * m` floats |
| `Packing.Flat2Length` | app/src/main/java/com/neatyassets/mediapipeFaceLandmarkPlugin/MLFaceLandmarksPlugin.kt:343-351 | faces of exactly `m` floats flatten to exactly `faces * m` floats |
| `Packing.Flat2At` | app/src/main/java/com/neatyassets/mediapipeFaceLandmarkPlugin/MLFaceLandmarksPlugin.kt:343-351 | with `m` floats per face, float `o` of face `i` is at `i * m + o` |
| `Packing.Flat2Grid` | app/src/main/java/com/neatyassets/mediapipeFaceLandmarkPlugin/MLFaceLandmarksPlugin.kt:343-351 | with `n` elements of `w` floats per face, float `c` of element `k` of face `i` is at `(i * n + k) * w + c` |
| `Packing.LandmarkLayout` | app/src/main/java/com/neatyassets/mediapipeFaceLandmarkPlugin/MLFaceLandmarksPlugin.kt:338-352 | landmark `k` of face `f` is at `(f * n + k) * 5` as x, y, z, presence-or-0, visibility-or-0 |
| `Packing.BlendshapeLayout` | app/src/main/java/com/neatyassets/mediapipeFaceLandmarkPlugin/MLFaceLandmarksPlugin.kt:354-362 | score `k` of face `f` is at `f * n + k` |
| `Packing.MatrixLayout` | app/src/main/java/com/neatyassets/mediapipeFaceLandmarkPlugin/MLFaceLandmarksPlugin.kt:364-373 | matrices are copied verbatim: entry `j` of matrix `f` is at `f * 16 + j` |
| `Packing.LandmarksFit` | facetracking/src/main/java/com/visionsnap/facetracking/MLFaceLandmarksPlugin.kt:402-416 | at most max faces of at most 478 landmarks give at most max×478×5 floats |
| `Packing.BlendshapesFit` | facetracking/src/main/java/com/visionsnap/facetracking/MLFaceLandmarksPlugin.kt:418-426 | at most max lists of at most 52 scores give at most max×52 floats |
| `Packing.MatricesFit` | app/src/main/java/com/neatyassets/mediapipeFaceLandmarkPlugin/MLFaceLandmarksPlugin.kt:364-373 | at most max 16-entry matrices give at most max×16 floats |
| `Packing.SectionOutcome` | app/src/main/java/com/neatyassets/mediapipeFaceLandmarkPlugin/MLFaceLandmarksPlugin.kt:338-373 | a section throws on a null buffer (`!!`), then on overflow, and otherwise ends as its stream does |
| `Packing.PackedAt` | app/src/main/java/com/neatyassets/mediapipeFaceLandmarkPlugin/MLFaceLandmarksPlugin.kt:340-351 | after `position(0)` and the writes, the host finds the stream at the front and the old contents past its end |
| `Packing.PackResultsOutcome` | facetracking/src/main/java/com/visionsnap/facetracking/MLFaceLandmarksPlugin.kt:393-444 | with no faces, `onResults` completes; otherwise it ends with the first enabled section that throws (a null buffer, an overflow, or a matrix that is not 4x4) |
| `Packing.RunSectionWrites` | facetracking/src/main/java/com/visionsnap/facetracking/MLFaceLandmarksPlugin.kt:402-416 | a section keeps the capacity. When its stream fits, the stream sits at the front, the rest is untouched, and the position is just past the stream. When it does not fit, the buffer holds the stream's first `capacity` floats |
| `Packing.PackResultsBuffers` | facetracking/src/main/java/com/visionsnap/facetracking/MLFaceLandmarksPlugin.kt:398-440 | a buffer changes only when there are faces, its flag and result are present, and every earlier section completed; a throwing section leaves every later buffer untouched |
| `Packing.PackNested` | app/src/main/java/com/neatyassets/mediapipeFaceLandmarkPlugin/MLFaceLandmarksPlugin.kt:354-362 | `!!`, `position(0)` and the nested loops do exactly what `RunSection` gives for the flattened stream |
| `Packing.PackLandmarks` | app/src/main/java/com/neatyassets/mediapipeFaceLandmarkPlugin/MLFaceLandmarksPlugin.kt:338-352 | the landmark section runs only when `outputLandmarks` is set |
| `Packing.PackBlendshapes` | app/src/main/java/com/neatyassets/mediapipeFaceLandmarkPlugin/MLFaceLandmarksPlugin.kt:354-362 | the blendshape section runs only when the flag is set and blendshapes are present |
| `Packing.PackMatrices` | app/src/main/java/com/neatyassets/mediapipeFaceLandmarkPlugin/MLFaceLandmarksPlugin.kt:364-373 | the verbatim matrix section runs only when the flag is set and matrices are present |
| `Rotation.MatMul` | facetracking/src/main/java/com/visionsnap/facetracking/MLFaceLandmarksPlugin.kt:487-502 | the product of two 4x4 matrices has 16 entries |
| `Rotation.MatMulAt` | facetracking/src/main/java/com/visionsnap/facetracking/MLFaceLandmarksPlugin.kt:493-500 | entry `i * 4 + j` is `Σk a[i*4+k]·b[k*4+j]` |
| `Rotation.MatrixMultiply` | facetracking/src/main/java/com/visionsnap/facetracking/MLFaceLandmarksPlugin.kt:487-502 | throws unless all three arrays have 16 elements and then leaves `result` alone; otherwise `result` is the product |
| `Rotation.RotateZ` | facetracking/src/main/java/com/visionsnap/facetracking/MLFaceLandmarksPlugin.kt:462-478 | throws unless both arrays have 16 elements; otherwise the output is `matrix` times the Z rotation by cos and sin of the angle |
| `Rotation.RotateRowTurns` | facetracking/src/main/java/com/visionsnap/facetracking/MLFaceLandmarksPlugin.kt:470-477 | the rotation turns the first two entries of each row by the angle |
| `Rotation.RotateRowKeeps` | facetracking/src/main/java/com/visionsnap/facetracking/MLFaceLandmarksPlugin.kt:470-477 | the rotation keeps the last two entries of each row |
| `Rotation.RotateByZero` | facetracking/src/main/java/com/visionsnap/facetracking/MLFaceLandmarksPlugin.kt:470-477 | rotating by a zero angle leaves the matrix unchanged |
| `Rotation.CalculateCameraRotation` | facetracking/src/main/java/com/visionsnap/facetracking/MLFaceLandmarksPlugin.kt:505-515 | `(sensor − display + 360) % 360` with a truncating `%`: within (−360, 360), congruent to `sensor − display`, and signed like the dividend |
| `Rotation.CameraRotationRange` | facetracking/src/main/java/com/visionsnap/facetracking/MLFaceLandmarksPlugin.kt:505-515 | for a sensor rotation in [0, 360) and a display rotation in [0, 360) or `ORIENTATION_UNKNOWN` (-1), the result is `(sensor − display) mod 360`, in [0, 360); at -1 it is `(sensor + 1) mod 360` |
| `FaceTrackingPlugin.KotlinDiv` | facetracking/src/main/java/com/visionsnap/facetracking/MLFaceLandmarksPlugin.kt:301 | Kotlin `/` throws exactly for a zero divisor |
| `FaceTrackingPlugin.FrameLimit` | facetracking/src/main/java/com/visionsnap/facetracking/MLFaceLandmarksPlugin.kt:301 | `1000 / detectionFramerateLimit` throws exactly for a zero limit; for a positive limit it is the whole number of ms `q` with `q·fps ≤ 1000 < (q+1)·fps`; for a negative limit it is at most 0 |
| `FaceTrackingPlugin.Throttled` | facetracking/src/main/java/com/visionsnap/facetracking/MLFaceLandmarksPlugin.kt:304-306 | a frame is dropped exactly when it comes sooner than the window after the last analysed one. A non-positive window never drops a frame on a monotone clock; a frame at the very same instant is dropped exactly under a positive window |
| `FaceTrackingPlugin.ThrottleWindow` | facetracking/src/main/java/com/visionsnap/facetracking/MLFaceLandmarksPlugin.kt:301-310 | for a positive limit, a frame is dropped exactly when fewer than `1000 / fps` ms passed since the last accepted one |
| `FaceTrackingPlugin.ThrottleDisabled` | facetracking/src/main/java/com/visionsnap/facetracking/MLFaceLandmarksPlugin.kt:301-310 | with a limit above 1000 fps or below 0 fps, and a clock that does not run backwards, no frame is dropped |
| `FaceTrackingPlugin.FirstNot4x4` | facetracking/src/main/java/com/visionsnap/facetracking/MLFaceLandmarksPlugin.kt:432-439 | the index of the first matrix that `rotateZ` rejects: every earlier matrix is 4x4 |
| `FaceTrackingPlugin.RotationFailure` | facetracking/src/main/java/com/visionsnap/facetracking/MLFaceLandmarksPlugin.kt:463 | the matrix section completes iff every matrix is 4x4 |
| `FaceTrackingPlugin.RotatedLayout` | facetracking/src/main/java/com/visionsnap/facetracking/MLFaceLandmarksPlugin.kt:428-440 | with 4x4 matrices, entry `j` of the rotated matrix `f` is at `f * 16 + j` |
| `FaceTrackingPlugin.ResultsFit` | facetracking/src/main/java/com/visionsnap/facetracking/MLFaceLandmarksPlugin.kt:393-444 | a result within the set-up face count fits the buffers that `initBuffers` allocates, so `onResults` completes |
| `FaceTrackingPlugin.PutRotatedMatrices` | facetracking/src/main/java/com/visionsnap/facetracking/MLFaceLandmarksPlugin.kt:428-440 | each matrix is rotated into the scratch array and its 16 entries are written in order. It stops at the first matrix that is not 4x4, or at the first overflow |
| `FaceTrackingPlugin.PackRotatedMatrices` | facetracking/src/main/java/com/visionsnap/facetracking/MLFaceLandmarksPlugin.kt:428-440 | the rotated matrix section runs only when the flag is set and matrices are present |
| `FaceTrackingPlugin.RunSections` | facetracking/src/main/java/com/visionsnap/facetracking/MLFaceLandmarksPlugin.kt:402-440 | the three sections run in order and leave exactly what `Results` describes |
| `FaceTrackingPlugin.Plugin.OnOrientationChanged` | facetracking/src/main/java/com/visionsnap/facetracking/MLFaceLandmarksPlugin.kt:53-55 | records the display rotation; nothing else changes |
| `FaceTrackingPlugin.Plugin.BindCamera` | facetracking/src/main/java/com/visionsnap/facetracking/MLFaceLandmarksPlugin.kt:243-245 | records the sensor rotation of the bound camera |
| `FaceTrackingPlugin.Plugin.SetupDetector` | facetracking/src/main/java/com/visionsnap/facetracking/MLFaceLandmarksPlugin.kt:131-166 | records the settings, closes any old helper, installs a helper and leaves the buffers and the setup callback that `initBuffers` gives |
| `FaceTrackingPlugin.Plugin.SetupDetectorDefaultLimit` | facetracking/src/main/java/com/visionsnap/facetracking/MLFaceLandmarksPlugin.kt:131-166 | a call that omits `detectionFpsLimit` takes the default of 20 frames per second, a 50 ms window; otherwise it is `setupDetector` |
| `FaceTrackingPlugin.Plugin.InitBuffers` | facetracking/src/main/java/com/visionsnap/facetracking/MLFaceLandmarksPlugin.kt:355-383 | leaves exactly the buffers `Init` gives, and calls `faceDetectionSetup` only when every allocation succeeded |
| `FaceTrackingPlugin.Plugin.DetectFace` | facetracking/src/main/java/com/visionsnap/facetracking/MLFaceLandmarksPlugin.kt:299-321 | a zero limit throws. A throttled frame is closed, and the time and flag are unchanged. An accepted frame stores the time, becomes the analysed frame, sets the flag and is forwarded |
| `FaceTrackingPlugin.Plugin.Dispose` | facetracking/src/main/java/com/visionsnap/facetracking/MLFaceLandmarksPlugin.kt:340-352 | closes and drops the helper, unbinds the camera, clears the flag and drops the buffers |
| `FaceTrackingPlugin.Plugin.OnError` | facetracking/src/main/java/com/visionsnap/facetracking/MLFaceLandmarksPlugin.kt:385-389 | closes the analysed frame, clears the flag and reports the message |
| `FaceTrackingPlugin.Plugin.OnEmpty` | facetracking/src/main/java/com/visionsnap/facetracking/MLFaceLandmarksPlugin.kt:446-449 | closes the analysed frame and clears the flag; nothing else changes |
| `FaceTrackingPlugin.Plugin.CameraCorrection` | facetracking/src/main/java/com/visionsnap/facetracking/MLFaceLandmarksPlugin.kt:470-475 | the rotation matrix that `rotateZ` builds for the angle `-calculateCameraRotation()` (passed at line 434) has 16 entries, so `matrixMultiply`'s `require` (line 488) accepts it |
| `FaceTrackingPlugin.Plugin.OnResults` | facetracking/src/main/java/com/visionsnap/facetracking/MLFaceLandmarksPlugin.kt:393-444 | closes the frame and clears the flag, and leaves the buffers `Results` gives. It reports the face count and inference time only with faces and when no section threw |
| `LandmarksPlugin.ResultsFit` | app/src/main/java/com/neatyassets/mediapipeFaceLandmarkPlugin/MLFaceLandmarksPlugin.kt:329-377 | a result within the set-up face count, with 16-entry matrices, fits the buffers `initBuffers` allocates, so `onResults` completes |
| `LandmarksPlugin.RunSections` | app/src/main/java/com/neatyassets/mediapipeFaceLandmarkPlugin/MLFaceLandmarksPlugin.kt:338-373 | the landmark, blendshape and verbatim matrix sections run in order and leave exactly what `Results` describes |
| `LandmarksPlugin.Plugin.SetupDetector` | app/src/main/java/com/neatyassets/mediapipeFaceLandmarkPlugin/MLFaceLandmarksPlugin.kt:108-140 | records the settings, replaces the helper and leaves what `initBuffers` gives |
| `LandmarksPlugin.Plugin.InitBuffers` | app/src/main/java/com/neatyassets/mediapipeFaceLandmarkPlugin/MLFaceLandmarksPlugin.kt:295-321 | leaves exactly the buffers `Init` gives, and calls `faceDetectionSetup` only after all three allocations |
| `LandmarksPlugin.Plugin.DetectFace` | app/src/main/java/com/neatyassets/mediapipeFaceLandmarkPlugin/MLFaceLandmarksPlugin.kt:265-270 | there is no throttle: every frame becomes the analysed one, sets the flag and is forwarded to the helper if there is one |
| `LandmarksPlugin.Plugin.Dispose` | app/src/main/java/com/neatyassets/mediapipeFaceLandmarkPlugin/MLFaceLandmarksPlugin.kt:280-292 | closes and drops the helper, unbinds the camera, clears the flag and drops the buffers |
| `LandmarksPlugin.Plugin.OnError` | app/src/main/java/com/neatyassets/mediapipeFaceLandmarkPlugin/MLFaceLandmarksPlugin.kt:323-327 | closes the analysed frame, clears the flag and reports the message |
| `LandmarksPlugin.Plugin.OnEmpty` | app/src/main/java/com/neatyassets/mediapipeFaceLandmarkPlugin/MLFaceLandmarksPlugin.kt:379-382 | closes the analysed frame and clears the flag; nothing else changes |
| `LandmarksPlugin.Plugin.OnResults` | app/src/main/java/com/neatyassets/mediapipeFaceLandmarkPlugin/MLFaceLandmarksPlugin.kt:329-377 | closes the frame and clears the flag, and leaves the buffers `Results` gives. With zero faces nothing is written and there is no callback. Otherwise the callback is made with `numFaces` equal to the number of landmark lists, and only when no section threw |
| `BlendshapesPlugin.Scores` | app/src/main/java/com/test/mlfacelandmarkplugin/MLFaceLandmarksPlugin.kt:268-270 | the scores of a list, one per category, in order |
| `BlendshapesPlugin.ScoresCopied` | app/src/main/java/com/test/mlfacelandmarkplugin/MLFaceLandmarksPlugin.kt:262-272 | absent blendshapes: nothing is written and there is no callback. An empty list throws from `get()[0]`. Otherwise slot `i` holds the first face's score `i` while `i < n`, and keeps its old value from `n` on. The call completes and calls back exactly when `n ≤ 53` |
| `BlendshapesPlugin.CopyScores` | app/src/main/java/com/test/mlfacelandmarkplugin/MLFaceLandmarksPlugin.kt:266-270 | the `floatBuffer[i++]` loop writes the scores from slot 0 and throws on index 53 |
| `BlendshapesPlugin.Plugin.SetupDetector` | app/src/main/java/com/test/mlfacelandmarkplugin/MLFaceLandmarksPlugin.kt:80-98 | posts the helper swap: closes any old helper and installs a new one; after `dispose` has shut the executor down, `execute` throws `RejectedExecutionException` and nothing changes |
| `BlendshapesPlugin.Plugin.CameraProviderReady` | app/src/main/java/com/test/mlfacelandmarkplugin/MLFaceLandmarksPlugin.kt:118-126 | records the camera provider and binds the camera |
| `BlendshapesPlugin.Plugin.DetectFace` | app/src/main/java/com/test/mlfacelandmarkplugin/MLFaceLandmarksPlugin.kt:204-221 | sets the flag even when it is already set, stores the frame and forwards it |
| `BlendshapesPlugin.Plugin.Resume` | app/src/main/java/com/test/mlfacelandmarkplugin/MLFaceLandmarksPlugin.kt:223-226 | does nothing without a camera provider; otherwise binds the camera |
| `BlendshapesPlugin.Plugin.Pause` | app/src/main/java/com/test/mlfacelandmarkplugin/MLFaceLandmarksPlugin.kt:228-231 | does nothing without a camera provider; otherwise unbinds the camera |
| `BlendshapesPlugin.Plugin.Dispose` | app/src/main/java/com/test/mlfacelandmarkplugin/MLFaceLandmarksPlugin.kt:233-245 | closes the helper, unbinds through the provider if there is one, drops the provider, shuts the background executor down and clears the flag |
| `BlendshapesPlugin.Plugin.OnError` | app/src/main/java/com/test/mlfacelandmarkplugin/MLFaceLandmarksPlugin.kt:247-253 | closes the frame, clears the flag and reports the message |
| `BlendshapesPlugin.Plugin.OnEmpty` | app/src/main/java/com/test/mlfacelandmarkplugin/MLFaceLandmarksPlugin.kt:275-279 | closes the frame, clears the flag and reports that the face is lost |
| `BlendshapesPlugin.Plugin.OnResults` | app/src/main/java/com/test/mlfacelandmarkplugin/MLFaceLandmarksPlugin.kt:257-273 | closes the frame and clears the flag. The array and outcome are those of `ScoresReply`. On a successful copy the callback receives the whole 53-slot array |
| `LandmarkerGraph.StreamLayout` | app/src/main/java/com/neatyassets/mediapipeFaceLandmarkPlugin/FaceLandmarkerCustom.java:159-169 | landmarks at 0 and image at 1. The list length is 2 + the number of enabled options. Blendshapes, when enabled, are at 2; geometry is at 3 with blendshapes and at 2 without. A disabled option's index keeps its earlier value |
| `LandmarkerGraph.PoseMatrices` | app/src/main/java/com/neatyassets/mediapipeFaceLandmarkPlugin/FaceLandmarkerCustom.java:199-202 | one pose matrix per face geometry, in order |
| `LandmarkerGraph.OwnIndices` | app/src/main/java/com/neatyassets/mediapipeFaceLandmarkPlugin/FaceLandmarkerCustom.java:162-169 | the positions at which a task appended its own optional streams |
| `LandmarkerGraph.OwnIndicesRightAfterCreation` | app/src/main/java/com/neatyassets/mediapipeFaceLandmarkPlugin/FaceLandmarkerCustom.java:162-169 | right after its own creation, a task reads the shared index fields at its own positions |
| `LandmarkerGraph.ConvertShape` | app/src/main/java/com/neatyassets/mediapipeFaceLandmarkPlugin/FaceLandmarkerCustom.java:175-212 | an empty landmark packet gives an empty result with both options absent. Otherwise blendshapes are present iff enabled, and matrices are present iff enabled, with one matrix per geometry, in order |
| `LandmarkerGraph.SharedIndicesMisread` | app/src/main/java/com/neatyassets/mediapipeFaceLandmarkPlugin/FaceLandmarkerCustom.java:87-88 | a second task's creation moves the shared geometry index onto the first task's blendshape stream |
| `LandmarkerGraph.ValidateImageProcessingOptions` | app/src/main/java/com/neatyassets/mediapipeFaceLandmarkPlugin/FaceLandmarkerCustom.java:443-448 | throws `IllegalArgumentException` iff a region of interest is present |
| `LandmarkerGraph.FaceLandmarkerCustom.Detect` | app/src/main/java/com/neatyassets/mediapipeFaceLandmarkPlugin/FaceLandmarkerCustom.java:330-333 | validates first; the image is processed only when the check passes |
| `LandmarkerGraph.FaceLandmarkerCustom.DetectForVideo` | app/src/main/java/com/neatyassets/mediapipeFaceLandmarkPlugin/FaceLandmarkerCustom.java:380-384 | validates first; the frame is processed only when the check passes |
| `LandmarkerGraph.FaceLandmarkerCustom.DetectAsync` | app/src/main/java/com/neatyassets/mediapipeFaceLandmarkPlugin/FaceLandmarkerCustom.java:433-437 | validates first; the frame is sent only when the check passes |
| `LandmarkerGraph.FaceLandmarkerCustom.ConvertToTaskResult` | app/src/main/java/com/neatyassets/mediapipeFaceLandmarkPlugin/FaceLandmarkerCustom.java:175-212 | the converter, reading each stream at the task's own index, computes `Convert` |
| `LandmarkerGraph.CollectPoseMatrices` | app/src/main/java/com/neatyassets/mediapipeFaceLandmarkPlugin/FaceLandmarkerCustom.java:199-202 | the `for` loop collects exactly the pose matrices, in order |
| `LandmarkerGraph.CreateFromOptions` | app/src/main/java/com/neatyassets/mediapipeFaceLandmarkPlugin/FaceLandmarkerCustom.java:157-238 | builds the stream list `OutputStreams` and updates the static indices as `IndicesAfter` says. Flow limiting is enabled iff the mode is live stream |
| `LandmarkerHelper.DelegateFor` | app/src/main/java/com/neatyassets/mediapipeFaceLandmarkPlugin/FaceLandmarkerHelper.kt:73-80 | 0 selects CPU and 1 selects GPU; any other code sets no delegate (each an iff) |
| `LandmarkerHelper.MessageText` | app/src/main/java/com/neatyassets/mediapipeFaceLandmarkPlugin/FaceLandmarkerHelper.kt:104-105 | Kotlin's string concatenation with a nullable `e.message`: the message itself, or "null" when there is none |
| `LandmarkerHelper.SetupFailure` | app/src/main/java/com/neatyassets/mediapipeFaceLandmarkPlugin/FaceLandmarkerHelper.kt:102-120 | `IllegalStateException` reports its message with the default code `OTHER_ERROR`; another runtime exception reports with `GPU_ERROR`; success reports nothing |
| `LandmarkerHelper.LivestreamRouting` | app/src/main/java/com/neatyassets/mediapipeFaceLandmarkPlugin/FaceLandmarkerHelper.kt:140-162 | with no faces only `onEmpty` is called, never `onResults`. Otherwise `onResults` is called exactly once with `finish − timestampMs`, then height, then width. The input is closed, last, exactly when the listener returns or there is none; a throwing listener's exception leaves the call and the input stays open |
| `LandmarkerHelper.ErrorMessage` | app/src/main/java/com/neatyassets/mediapipeFaceLandmarkPlugin/FaceLandmarkerHelper.kt:166-170 | a null message becomes "An unknown error has occurred" |
| `LandmarkerHelper.FaceLandmarkerHelper.Options` | app/src/main/java/com/neatyassets/mediapipeFaceLandmarkPlugin/FaceLandmarkerHelper.kt:70-98 | the options carry the delegate chosen by code, the model asset, the face count, both output flags and live-stream mode |
| `LandmarkerHelper.FaceLandmarkerHelper.constructor` | app/src/main/java/com/neatyassets/mediapipeFaceLandmarkPlugin/FaceLandmarkerHelper.kt:49-51 | construction runs the setup: there is a landmarker iff creation succeeded, and a failure is reported to the listener, if any |
| `LandmarkerHelper.FaceLandmarkerHelper.SetupFaceLandmarker` | app/src/main/java/com/neatyassets/mediapipeFaceLandmarkPlugin/FaceLandmarkerHelper.kt:68-121 | a failed creation leaves the landmarker field as it was and reports to the listener, if any |
| `LandmarkerHelper.FaceLandmarkerHelper.ClearFaceLandmarker` | app/src/main/java/com/neatyassets/mediapipeFaceLandmarkPlugin/FaceLandmarkerHelper.kt:53-61 | closes the landmarker if there is one; afterwards `isClose()` holds |
| `LandmarkerHelper.FaceLandmarkerHelper.DetectLiveStream` | app/src/main/java/com/neatyassets/mediapipeFaceLandmarkPlugin/FaceLandmarkerHelper.kt:125-131 | `image!!` throws for a frame without an image; otherwise the frame goes to the landmarker with the clock time |
| `LandmarkerHelper.FaceLandmarkerHelper.DetectAsyncFrame` | app/src/main/java/com/neatyassets/mediapipeFaceLandmarkPlugin/FaceLandmarkerHelper.kt:134-137 | hands the frame and its time to the landmarker exactly when there is one; nothing else changes |
| `LandmarkerHelper.FaceLandmarkerHelper.ReturnLivestreamResult` | app/src/main/java/com/neatyassets/mediapipeFaceLandmarkPlugin/FaceLandmarkerHelper.kt:140-162 | appends exactly the events `LivestreamResult` routes, and ends as it says: with the listener's exception, or normally |
| `LandmarkerHelper.FaceLandmarkerHelper.ReturnLivestreamError` | app/src/main/java/com/neatyassets/mediapipeFaceLandmarkPlugin/FaceLandmarkerHelper.kt:166-170 | reports the message, or the fixed text, with the default code |

## Left out

- Camera wiring is left out: `setUpCamera`, `initAnalyzer`, permission requests, `bindCamera`'s use-case binding and `unbindCamera`'s provider calls. The model keeps only the effects `BindCamera`/`UnbindCamera`, the sensor rotation that binding records, and whether the com.test plugin has a camera provider. This configures a framework that is not part of this model.
- Threading is left out. `backgroundExecutor.execute`, `runOnUiThread` and the future listeners run their blocks in sequence here, at the point where they are posted. So the models of `setupDetector` and `dispose` do the posted work at once, and `onError` reports at once. The one executor that is ever shut down, the com.test plugin's, refuses later posts (`BlendshapesPlugin.Plugin.SetupDetector`).
- Floating point is left out. Floats are exact reals. `Math.toRadians`, `cos` and `sin` are the parameters `cosDeg`/`sinDeg`. `calculateCameraRotation` takes whole-degree `Int` rotations, so its `Float` arithmetic is exact integer arithmetic.
- Raw buffer addresses are left out. The reflective `address` field, `order(ByteOrder.nativeOrder())`, and the addresses passed to `faceDetectionSetup` are not modelled. The setup effect carries only the face count and the three per-face array lengths.
- Clocks are left out. `SystemClock.uptimeMillis()` is a parameter. The face-tracking `detectFace` reads it twice, as `t0` and `t1`.
- The host bridge is left out. `managedBridge` is taken to be set, so every `managedBridge?.` call is an effect.
- In `setupDetector` the model records only that a helper exists. The helper's construction is modelled on its own in `LandmarkerHelper`.
- `imageProxy.toBitmap()`/`recycle()` in the face-tracking `detectFace` is left out, as are `saveBitmapToInternalStorage` and `rotateBitmap`. These are bitmap I/O.
- MediaPipe itself is left out: inference, `TaskRunner`, `OutputHandler` and proto decoding. This includes the three confidence thresholds that `setupFaceLandmarker` sets (`FaceLandmarkerHelper.kt` lines 89-91), which only MediaPipe reads: `LandmarkerOptions` does not carry them. A packet is a value carrying what each parser reads out of it. `generateResultTimestampMs` is the `timestampMs` parameter. The value that `processImageData`/`processVideoData` returns is not modelled; the detection entry points record only the request.
- The one-argument overloads of `detect`/`detectForVideo`/`detectAsync` are not modelled. They pass `ImageProcessingOptions.builder().build()`, which has no region of interest (`DefaultImageProcessingOptions`).
- The `createFromFile`/`createFromBuffer` factory methods are not modelled. They only build options for `createFromOptions`.
- Lifecycle callbacks, `finalize`, `getInstance`/`init` and the `ManagedBridge` interfaces are not modelled. They are callback shapes. In particular, the executor that `init` creates afresh is not modelled: in the com.test plugin, a shutdown by `dispose` stays in force.
- Rotation.MatrixMultiply: `a` and `b` are values, not arrays, so a call where `a` or `b` is the same `FloatArray` as `result` is not modelled. In such a call the writes at lines 493-500 would feed later reads. The only caller, `rotateZ`, passes a fresh rotation matrix and a different output array.
- Rotation.RotateZ: `matrix` is a value, so a call where `matrix` and `output` are the same array is not modelled. The one call, at line 434, passes each landmarker matrix and the plugin's own `matrixBuffer`.
- Packing.AllocateFloats: the exception for a negative size is `IllegalArgumentException("capacity < 0")`. That is the platform's `ByteBuffer.allocateDirect`, not this repository's code, and the exact class and message are an assumption about that platform.
- `LandmarkerGraph.SharedIndicesMisread` shows one concrete pair of tasks. It does not characterise every interleaving of creations.

## Findings

| source | as written | input that shows it | evidently intended | confidence | as-written member | corrected member |
|---|---|---|---|---|---|---|
| app/src/main/java/com/neatyassets/mediapipeFaceLandmarkPlugin/FaceLandmarkerCustom.java:87-88 | the blendshape and face-geometry stream indices are `static` fields. Every `createFromOptions` overwrites them, and every task's converter reads them when it converts | task A is created with blendshapes and matrices on, so geometry is at 3. Task B is then created with blendshapes off and matrices on, which sets the shared index to 2. A's converter now reads its matrices from A's blendshape packet | each task reads its optional streams at the positions it appended them at itself | medium: latent, since nothing in this repository creates a `FaceLandmarkerCustom` (`FaceLandmarkerHelper.kt` creates the stock `FaceLandmarker`, lines 29 and 101), and it needs two tasks alive at once; not executed | `LandmarkerGraph.SharedIndicesMisread` | `LandmarkerGraph.FaceLandmarkerCustom.ConvertToTaskResult` |
