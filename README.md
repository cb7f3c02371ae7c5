# OpenGL camera preview renderer: a Dafny model

This project models the rendering core of a CameraX/OpenGL preview library and proves properties of it.

- **`OpenGLRenderer`** draws camera frames from a `SurfaceTexture` onto an output `Surface` through a native GL layer. Every public call, and every callback the camera makes into the renderer, only posts a task to one single-thread executor. The tasks then run in order over the renderer's fields.
- **`FpsRecorder`** keeps the last `bufferLength` frame timestamps in a ring buffer and answers with a running frame rate.
- **`Surfaces.toSurfaceRotationDegrees`** maps `Surface.ROTATION_*` to degrees.
- **`TransformUtils`** provides the integer and comparison helpers: rotation tables, rect/size/vertex conversions, and the min and max of four values.

Modules:

| module | file | what it holds |
|---|---|---|
| `Wrappers` | wrappers.dfy | `Option` and `Result` (an exception is a `Failure`) |
| `Platform` | platform.dfy | `Size`, `Rect`, `RectF` (float edges as reals), `Surface.ROTATION_*`, and the 32-bit `Int` with its wrap-around |
| `Surfaces` | surfaces.dfy | `toSurfaceRotationDegrees` |
| `TransformUtils` | transform_utils.dfy | the pure part of `TransformUtils.java` |
| `FpsRecording` | fps_recorder.dfy | class `FpsRecorder` over an `array<int>` ring buffer |
| `RendererMath` | renderer_math.dfy | the renderer's integer decisions: texture rotation from the rounded test vector, `viewPortRotation` with Kotlin's truncating `%`, the width/height swaps, `isCropRectFullTexture`, the view's up vector |
| `RendererModel` | renderer_model.dfy | the renderer as a state machine: a `State` value, one function per task body, the executor's FIFO and `accepting` flag, and the events from outside |
| `RendererProperties` | renderer_properties.dfy | the invariant every event keeps, and properties of whole runs |
| `Renderer` | renderer.dfy | class `OpenGLRenderer`: the same fields, one method per task body |

How the parts fit together:

- Each method of the class is proved to change the object exactly as the matching `RendererModel` function changes a `State`. The public methods also keep `Valid()`, which is the invariant `RendererProperties.Inv`. So every lemma of `RendererProperties` holds of the object.
- Native calls (`initContext`, `setWindowSurface`, `getTexName`, `renderTexture`, `closeContext`) are recorded in a log of `GlCall`s. Their answers are inputs: the `Native` argument of the step that runs a task. These answers are the context handle, whether the bind and the draw succeeded, the frame's timestamp and rounded test vector, and whether the listener's executor accepts.
- An exception that escapes a task ends the executor's thread. It is recorded in `crashed`, and no task runs after it.

Three behaviours of the code that the model keeps as they are:

- **Closing the context.** The shutdown task closes the native context at once, even while input surfaces are still outstanding. Only stopping the executor waits until no surface is outstanding (`RendererProperties.ShutdownClosesWhileOutstanding`).
- **The crop rectangle.** `mPreviewCropRect` is never reset. It is derived at the first matrix update, from the output size stored at that moment, and then kept for good (`RendererProperties.CropDerivedOnce`). A later output size does not change it.
- **Stopping the executor.** The executor's `shutdown` is `quitSafely`. New work is rejected, but tasks already queued still run.

Sizes, rect edges and rotations are Kotlin or Java `Int`s. Rotations reach the renderer unchecked, so `viewPortRotation`'s sum and `Rect.width()`/`height()` wrap around modulo 2^32 as the JVM does (`Platform.WrapInt`).

## Model

| member | source | states |
|---|---|---|
| Surfaces.ToSurfaceRotationDegrees | ypreview/src/main/java/com/joyuiyeongl/ypreview/Surfaces.kt:19-29 | It succeeds exactly for the four `ROTATION_*` values and gives 90 times the enum, which is one of 0/90/180/270. Any other value is `UnsupportedOperationException` carrying the input. |
| Surfaces.ToSurfaceRotationDegreesBijective | ypreview/src/main/java/com/joyuiyeongl/ypreview/Surfaces.kt:21-24 | Distinct legal enums give distinct degrees, and every rotation value is the image of some enum. |
| TransformUtils.RectToSize | previewview/src/main/java/com/joyuiyeong/previewview/TransformUtils.java:33-35 | The size spans the rect: left + width = right and top + height = bottom, whenever the distances fit in an Int. Otherwise they wrap around, and are only congruent modulo 2^32. |
| TransformUtils.Min4 | previewview/src/main/java/com/joyuiyeong/previewview/TransformUtils.java:60-62 | The result is one of the four arguments and no larger than any of them. |
| TransformUtils.Max4 | previewview/src/main/java/com/joyuiyeong/previewview/TransformUtils.java:53-55 | The result is one of the four arguments and no smaller than any of them. |
| TransformUtils.VerticesToRect | previewview/src/main/java/com/joyuiyeong/previewview/TransformUtils.java:41-48 | It is the bounding box of the four points: every point lies inside it, and each edge is attained by some point. |
| TransformUtils.SurfaceRotationToRotationDegrees | previewview/src/main/java/com/joyuiyeong/previewview/TransformUtils.java:67-80 | Enums 0..3 map to 90 times the enum. Anything else is `IllegalStateException` with the value. |
| TransformUtils.Is90or270 | previewview/src/main/java/com/joyuiyeong/previewview/TransformUtils.java:85-93 | Defined exactly on 0/90/180/270, and true exactly for the quarter turns. Any other input is `IllegalArgumentException`. |
| TransformUtils.SizeToVertices | previewview/src/main/java/com/joyuiyeong/previewview/TransformUtils.java:99-102 | The vertices of a size are those of the rect (0, 0, w, h). |
| TransformUtils.RectToVertices | previewview/src/main/java/com/joyuiyeong/previewview/TransformUtils.java:108-111 | The result has eight coordinates and starts at (left, top). Every point is a corner of the rect, and consecutive points share an edge. Twice the signed area is 2·(right − left)·(bottom − top), so for an ordered rect the points go round clockwise on screen: top-left, top-right, bottom-right, bottom-left. |
| TransformUtils.RectVerticesRoundTrip | previewview/src/main/java/com/joyuiyeong/previewview/TransformUtils.java:41-48 | `verticesToRect(rectToVertices(r)) == r` for every rect whose edges are ordered. |
| TransformUtils.RectVerticesNormalizes | previewview/src/main/java/com/joyuiyeong/previewview/TransformUtils.java:108-111 | For any rect, the round trip gives back the rect with its edges sorted. |
| TransformUtils.SizeVerticesRoundTrip | previewview/src/main/java/com/joyuiyeong/previewview/TransformUtils.java:99-102 | `verticesToRect(sizeToVertices(s))` is (0, 0, w, h) for a non-negative size. |
| TransformUtils.RectToSizeWraps | previewview/src/main/java/com/joyuiyeong/previewview/TransformUtils.java:33-35 | A rect from the smallest to the largest Int has width -1. |
| TransformUtils.SizeVerticesAreTranslatedRectVertices | previewview/src/main/java/com/joyuiyeong/previewview/TransformUtils.java:33-35 | The vertices of `rectToSize(r)` are those of `r` moved so that its top-left is the origin. |
| TransformUtils.RotationTablesAgree | previewview/src/main/java/com/joyuiyeong/previewview/TransformUtils.java:67-93 | `is90or270` accepts every result of `surfaceRotationToRotationDegrees`, and is true exactly for the odd enums. |
| TransformUtils.SurfaceTablesAgree | previewview/src/main/java/com/joyuiyeong/previewview/TransformUtils.java:67-80 | The two rotation tables of the repository accept the same inputs and give the same degrees. |
| FpsRecording.LongSub | ypreview/src/main/java/com/joyuiyeongl/ypreview/FpsRecorder.kt:17 | Long subtraction gives a 64-bit value congruent to the difference modulo 2^64, and equal to it when the difference fits. |
| FpsRecording.MonotonicClockGivesTrueDuration | ypreview/src/main/java/com/joyuiyeongl/ypreview/FpsRecorder.kt:17-25 | With non-negative, non-decreasing timestamps, every rate is measured over the true, non-negative duration. |
| FpsRecording.FpsRecorder.constructor | ypreview/src/main/java/com/joyuiyeongl/ypreview/FpsRecorder.kt:50-56 | It allocates exactly `bufferLength` zeroed slots, with index 0, no samples and an empty history. |
| FpsRecording.FpsRecorder.Create | ypreview/src/main/java/com/joyuiyeongl/ypreview/FpsRecorder.kt:50-56 | It fails exactly when `bufferLength < 1`, with `IllegalArgumentException`. Otherwise the recorder is fresh and valid, with `bufferLength` slots. |
| FpsRecording.FpsRecorder.RecordTimestamp | ypreview/src/main/java/com/joyuiyeongl/ypreview/FpsRecorder.kt:14-28 | Only slot `index` is overwritten, and the index advances by one modulo the length. The sample count grows by one and saturates at length + 1. The duration is the new timestamp minus the overwritten one. The answer equals the reference `ExpectedSample` of the history since the last reset: `NotEnoughSamples` until length + 1 timestamps, then a rate over the timestamp recorded `length` calls earlier. |
| FpsRecording.FpsRecorder.Reset | ypreview/src/main/java/com/joyuiyeongl/ypreview/FpsRecorder.kt:38-41 | Index and count become 0 and the buffer is unchanged. The history is emptied, so no earlier timestamp enters a later answer. |
| RendererMath.TextureRotationDegrees | ypreview/src/main/java/com/joyuiyeongl/ypreview/OpenGLRenderer.kt:452-494 | A success is the unique rotation that takes (0,1) to the rounded vector. A failure happens exactly when no rotation does, and carries (s, t). |
| RendererMath.TextureRotationRoundTrip | ypreview/src/main/java/com/joyuiyeongl/ypreview/OpenGLRenderer.kt:454-486 | Classifying the test vector of each of the four rotations gives back that rotation. |
| Platform.WrapInt | ypreview/src/main/java/com/joyuiyeongl/ypreview/OpenGLRenderer.kt:563 | An Int result: the value congruent to the true one modulo 2^32, and the true one itself whenever it fits. |
| RendererMath.Rem360 | ypreview/src/main/java/com/joyuiyeongl/ypreview/OpenGLRenderer.kt:563 | Kotlin `% 360`: the result lies strictly between -360 and 360, has the dividend's sign, and differs from the dividend by a multiple of 360. |
| RendererMath.ViewPortRotation | ypreview/src/main/java/com/joyuiyeongl/ypreview/OpenGLRenderer.kt:557-563 | For legal rotations it is a legal rotation, equal to the sum or the sum minus 360. The sum is an Int sum and wraps around before the remainder. |
| RendererMath.ViewPortRotationWraps | ypreview/src/main/java/com/joyuiyeongl/ypreview/OpenGLRenderer.kt:563 | Texture 270 with an unchecked surface rotation of 2147483520 gives -346, not 270. That is no quarter turn, so nothing is swapped. |
| RendererMath.ViewPortQuarterTurn | ypreview/src/main/java/com/joyuiyeongl/ypreview/OpenGLRenderer.kt:557-563 | The viewport turns a quarter exactly when one of the two rotations does. It is symmetric in the two rotations. |
| RendererMath.QuarterTurnIs90or270 | ypreview/src/main/java/com/joyuiyeongl/ypreview/OpenGLRenderer.kt:523 | The renderer's test for 90 or 270 agrees with `TransformUtils.is90or270` on legal rotations. |
| RendererMath.CropSwapsExactlyAtQuarterTurns | ypreview/src/main/java/com/joyuiyeongl/ypreview/OpenGLRenderer.kt:518-534 | For a non-square surface, the crop starts from the swapped size exactly when the viewport turns a quarter. |
| RendererMath.ProjectionHasSurfaceShape | ypreview/src/main/java/com/joyuiyeongl/ypreview/OpenGLRenderer.kt:676-686 | The projection's swap undoes the crop's swap, so the projected extent is the surface's, uniformly scaled. |
| RendererMath.CropBase | ypreview/src/main/java/com/joyuiyeongl/ypreview/OpenGLRenderer.kt:522-534 | The crop starts from the surface's width and height, exchanged exactly when the viewport turns 90 or 270 degrees. |
| RendererMath.ProjectionExtent | ypreview/src/main/java/com/joyuiyeongl/ypreview/OpenGLRenderer.kt:678-686 | The projection's extents are the crop's width and height, exchanged exactly when the viewport turns 90 or 270 degrees. |
| RendererMath.ViewUpVector | ypreview/src/main/java/com/joyuiyeongl/ypreview/OpenGLRenderer.kt:644-650 | The up vector is a unit axis vector. A rotation other than the four keeps the default for 0 degrees, (0, -1). |
| RendererMath.PortraitSurfaceCropsLandscapeAtQuarterTurn | ypreview/src/main/java/com/joyuiyeongl/ypreview/OpenGLRenderer.kt:522-528 | For every portrait surface, when exactly one of the texture and surface rotations is a quarter turn, the crop starts from the landscape rectangle with the surface's sides exchanged. |
| RendererMath.IsCropRectFullTexture | ypreview/src/main/java/com/joyuiyeongl/ypreview/OpenGLRenderer.kt:500-505 | True exactly when the crop rect is (0, 0, width, height) of the texture. |
| RendererMath.ViewUpIsFlippedTestVector | ypreview/src/main/java/com/joyuiyeongl/ypreview/OpenGLRenderer.kt:641-650 | The up vector chosen for each viewport rotation is that rotation's texture test vector with y flipped. |
| RendererModel.Initial | ypreview/src/main/java/com/joyuiyeongl/ypreview/OpenGLRenderer.kt:76-127 | The fields start as declared: not shut down, no surfaces outstanding, the matrices dirty, and no size, texture, crop or listener. Only `initContext` is queued, on an accepting executor, and nothing has been observed yet. |
| RendererModel.Execute | ypreview/src/main/java/com/joyuiyeongl/ypreview/SingleThreadHandlerExecutor.kt:13-17 | An accepting executor appends the task at the end of its queue. A stopped one rejects it and nothing changes. |
| RendererModel.Step | ypreview/src/main/java/com/joyuiyeongl/ypreview/SingleThreadHandlerExecutor.kt:13-21 | The oldest task leaves the queue first. Nothing runs once the thread has died or when the queue is empty. A stopped executor never accepts work again. |
| RendererModel.Dispatch | ypreview/src/main/java/com/joyuiyeongl/ypreview/OpenGLRenderer.kt:126-308 | No task body posts work of its own, restarts a stopped executor, or creates a detach future. |
| RendererModel.Detach | ypreview/src/main/java/com/joyuiyeongl/ypreview/OpenGLRenderer.kt:246-262 | Each call makes a new future. It is queued when the executor accepts, and completed at once when the executor rejects. Nothing else changes. |
| RendererModel.OnSurfaceRequested | ypreview/src/main/java/com/joyuiyeongl/ypreview/OpenGLRenderer.kt:139-161 | After shutdown, the request is declined and nothing else changes. Otherwise a fresh texture becomes current and is handed to the camera, and the outstanding count rises by exactly one. Exactly one `getTexName` call is made. The texture takes the requested resolution, and the matrices become dirty exactly when that size changed. No other field changes. |
| RendererModel.ResetPreviewTexture | ypreview/src/main/java/com/joyuiyeongl/ypreview/OpenGLRenderer.kt:287-308 | A fresh texture becomes current and takes the requested size, after exactly one `getTexName` call. The matrices become dirty exactly when the size changed. No other field changes. |
| RendererModel.OnSurfaceReleased | ypreview/src/main/java/com/joyuiyeongl/ypreview/OpenGLRenderer.kt:151-158 | The count falls by exactly one. The current texture is cleared only if it is the released one. The executor is stopped afterwards exactly when it was already stopped, or when the renderer is shut down and the count is now zero. The listener is cleared exactly in the second case. No native call is made, and no other field changes. |
| RendererModel.DoShutdownExecutorIfNeeded | ypreview/src/main/java/com/joyuiyeongl/ypreview/OpenGLRenderer.kt:279-285 | When shut down with no outstanding surface, the executor stops and the listener is cleared. Otherwise nothing changes. |
| RendererModel.AttachOutputTask | ypreview/src/main/java/com/joyuiyeongl/ypreview/OpenGLRenderer.kt:170-185 | Nothing happens after shutdown. A successful bind dirties only on a rotation or size change and stores both. A failed bind clears the size and leaves rotation and dirtiness alone. No other field changes. |
| RendererModel.SetSurfaceRotation | ypreview/src/main/java/com/joyuiyeongl/ypreview/OpenGLRenderer.kt:225-228 | `invalidateSurface` dirties only on a rotation change, and changes nothing but the rotation and the flag. |
| RendererModel.InvalidateTask | ypreview/src/main/java/com/joyuiyeongl/ypreview/OpenGLRenderer.kt:224-232 | The rotation is recorded, dirtying the matrices only if it changed. A redraw, meaning a native call or a notification, happens only when there is a current texture, no shutdown and an output surface. Without a texture, or after shutdown, nothing else changes. Otherwise `renderLatest` runs on the state with the new rotation. |
| RendererModel.DetachTask | ypreview/src/main/java/com/joyuiyeongl/ypreview/OpenGLRenderer.kt:249-255 | The future is completed in every case. The surface is unbound and the size cleared only when not shut down. No other field changes. |
| RendererModel.ShutdownTask | ypreview/src/main/java/com/joyuiyeongl/ypreview/OpenGLRenderer.kt:264-277 | Only the first shutdown closes the context and zeroes the handle. The executor then stops, and the listener is cleared, exactly when no surface is outstanding. A repeated shutdown leaves the handle alone. The count, the surfaces and the matrices are unchanged. |
| RendererModel.FrameAvailableTask | ypreview/src/main/java/com/joyuiyeongl/ypreview/OpenGLRenderer.kt:294-300 | A frame of any texture but the current one, or one arriving after shutdown, changes nothing. A frame of the current texture before shutdown runs `renderLatest`. |
| RendererModel.UpdateMvpTransform | ypreview/src/main/java/com/joyuiyeongl/ypreview/OpenGLRenderer.kt:702-727 | The crop is derived only while it is null. It is then `CropBase` of the stored surface size at the current viewport rotation, fitted into the texture size. The MVP is rebuilt from the rotations, the texture size and the crop. A null size dereference is the only way it fails. |
| RendererModel.RenderLatest | ypreview/src/main/java/com/joyuiyeongl/ypreview/OpenGLRenderer.kt:310-347 | A bad texture transform is fatal and makes no draw. A new texture rotation dirties the matrices. Without a surface the frame is dropped. With a surface there is exactly one draw, the flag is cleared afterwards, the matrices change only when dirty, and the listener is notified exactly when the draw succeeded, a listener is set and its executor accepts. |
| RendererModel.DrawFrame | ypreview/src/main/java/com/joyuiyeongl/ypreview/OpenGLRenderer.kt:324-345 | There is one draw, passing the dirty flag, after which the flag is false. The MVP changes only when it was dirty. A notification is sent exactly when the draw succeeded, a listener is set and its executor accepts. If the flag kept its promise beforehand, the matrices drawn with are those of the current rotations, texture size and crop. |
| RendererProperties.InitialInv | ypreview/src/main/java/com/joyuiyeongl/ypreview/OpenGLRenderer.kt:124-127 | A new renderer, with only `initContext` queued, satisfies the invariant. |
| RendererProperties.RenderLatestKeepsInv | ypreview/src/main/java/com/joyuiyeongl/ypreview/OpenGLRenderer.kt:310-347 | Drawing before shutdown keeps the invariant. |
| RendererProperties.AttachOutputKeepsInv | ypreview/src/main/java/com/joyuiyeongl/ypreview/OpenGLRenderer.kt:170-185 | The attach task keeps the invariant. |
| RendererProperties.ProvideSurfaceKeepsInv | ypreview/src/main/java/com/joyuiyeongl/ypreview/OpenGLRenderer.kt:139-161 | The surface provider keeps the accounting of outstanding surfaces. |
| RendererProperties.ShutdownKeepsInv | ypreview/src/main/java/com/joyuiyeongl/ypreview/OpenGLRenderer.kt:264-277 | The shutdown task keeps the invariant, so close is always the last native call. |
| RendererProperties.DetachKeepsInv | ypreview/src/main/java/com/joyuiyeongl/ypreview/OpenGLRenderer.kt:249-255 | The detach task keeps the invariant for a future not yet completed. |
| RendererProperties.InitContextKeepsInv | ypreview/src/main/java/com/joyuiyeongl/ypreview/OpenGLRenderer.kt:126 | The context is created by the first native call and never again. |
| RendererProperties.ReleaseKeepsInv | ypreview/src/main/java/com/joyuiyeongl/ypreview/OpenGLRenderer.kt:151-158 | A release keeps the count equal to the surfaces the camera holds plus the queued releases. |
| RendererProperties.DispatchKeepsInv | ypreview/src/main/java/com/joyuiyeongl/ypreview/OpenGLRenderer.kt:166-277 | Every other task body keeps the invariant. |
| RendererProperties.InvalidateKeepsInv | ypreview/src/main/java/com/joyuiyeongl/ypreview/OpenGLRenderer.kt:222-236 | The invalidate task keeps the invariant. |
| RendererProperties.FrameAvailableKeepsInv | ypreview/src/main/java/com/joyuiyeongl/ypreview/OpenGLRenderer.kt:294-300 | The frame-available listener keeps the invariant. |
| RendererProperties.StepKeepsInv | ypreview/src/main/java/com/joyuiyeongl/ypreview/SingleThreadHandlerExecutor.kt:13-21 | Running the oldest queued task keeps the invariant. |
| RendererProperties.ExecuteKeepsInv | ypreview/src/main/java/com/joyuiyeongl/ypreview/SingleThreadHandlerExecutor.kt:13-17 | Queueing or rejecting a task keeps the invariant. |
| RendererProperties.CameraReleasesKeepsInv | ypreview/src/main/java/com/joyuiyeongl/ypreview/OpenGLRenderer.kt:148-159 | Posting a release callback keeps the accounting. |
| RendererProperties.DetachRequestKeepsInv | ypreview/src/main/java/com/joyuiyeongl/ypreview/OpenGLRenderer.kt:246-262 | A detach request keeps each future either queued once or completed. |
| RendererProperties.ApplyKeepsInv | ypreview/src/main/java/com/joyuiyeongl/ypreview/OpenGLRenderer.kt:136-285 | Every event keeps the invariant: surface accounting, context lifecycle, detach futures, and no null dereference. |
| RendererProperties.RunKeepsInv | ypreview/src/main/java/com/joyuiyeongl/ypreview/OpenGLRenderer.kt:136-285 | Every sequence of events keeps the invariant. |
| RendererProperties.ContextClosedAtMostOnce | ypreview/src/main/java/com/joyuiyeongl/ypreview/OpenGLRenderer.kt:266-271 | From a new renderer, `initContext` is the first native call and `closeContext` happens at most once, as the last call, exactly once shut down. The only possible fatal error is a bad texture transform. |
| RendererProperties.StopsOnlyWhenIdle | ypreview/src/main/java/com/joyuiyeongl/ypreview/OpenGLRenderer.kt:280-285 | From a new renderer, the executor refuses work only once shut down with zero outstanding surfaces, and the count never goes negative. |
| RendererProperties.TerminalCheckExact | ypreview/src/main/java/com/joyuiyeongl/ypreview/OpenGLRenderer.kt:272-285 | After a shutdown or release task, the executor is stopped exactly when shut down with zero outstanding surfaces, and a stopped executor has no listener. |
| RendererProperties.ShutdownClosesWhileOutstanding | ypreview/src/main/java/com/joyuiyeongl/ypreview/OpenGLRenderer.kt:266-272 | With surfaces outstanding, shutdown closes the context yet keeps the executor running. |
| RendererProperties.DetachTaskCompletesOnce | ypreview/src/main/java/com/joyuiyeongl/ypreview/OpenGLRenderer.kt:249-255 | A queued detach completes a future that was not yet complete. |
| RendererProperties.DetachRequestCompletesOnce | ypreview/src/main/java/com/joyuiyeongl/ypreview/OpenGLRenderer.kt:246-262 | A detach request's future is new. It is queued when the executor accepts, and completed at once when it rejects. |
| RendererProperties.DispatchAfterShutdown | ypreview/src/main/java/com/joyuiyeongl/ypreview/OpenGLRenderer.kt:140-300 | After shutdown, a task makes no native call and sends no notification. It declines surface requests and never raises the count. |
| RendererProperties.ApplyAfterShutdown | ypreview/src/main/java/com/joyuiyeongl/ypreview/OpenGLRenderer.kt:140-173 | The same holds for any single event after shutdown. |
| RendererProperties.NothingAfterShutdown | ypreview/src/main/java/com/joyuiyeongl/ypreview/OpenGLRenderer.kt:140-173 | The same holds for any sequence of events after shutdown. |
| RendererProperties.ApplyKeepsCrop | ypreview/src/main/java/com/joyuiyeongl/ypreview/OpenGLRenderer.kt:704-706 | No event replaces a crop rectangle once it is derived. |
| RendererProperties.CropDerivedOnce | ypreview/src/main/java/com/joyuiyeongl/ypreview/OpenGLRenderer.kt:704-706 | A derived crop rectangle is kept through any sequence of events. |
| RendererProperties.RedrawReusesMatrices | ypreview/src/main/java/com/joyuiyeongl/ypreview/OpenGLRenderer.kt:319-332 | A second frame with the same rotation draws with the same MVP and a false dirty flag. |
| RendererProperties.RenderLatestKeepsCoherent | ypreview/src/main/java/com/joyuiyeongl/ypreview/OpenGLRenderer.kt:319-332 | `renderLatest` keeps the dirty flag's promise: a clear flag means the matrices are current. After a draw, the matrices are current. |
| RendererProperties.DispatchKeepsCoherent | ypreview/src/main/java/com/joyuiyeongl/ypreview/OpenGLRenderer.kt:174-306 | Every task body keeps the promise. A change of rotation or texture size dirties the flag, and only a recomputation clears it. |
| RendererProperties.ApplyKeepsCoherent | ypreview/src/main/java/com/joyuiyeongl/ypreview/OpenGLRenderer.kt:136-285 | Every event keeps the dirty flag's promise. |
| RendererProperties.RunKeepsCoherent | ypreview/src/main/java/com/joyuiyeongl/ypreview/OpenGLRenderer.kt:136-285 | Every sequence of events keeps the dirty flag's promise. |
| RendererProperties.DrawsUseCurrentMatrices | ypreview/src/main/java/com/joyuiyeongl/ypreview/OpenGLRenderer.kt:324-331 | From a new renderer, every draw passes the MVP of the current texture rotation, viewport rotation, texture size and crop, whether or not it was recomputed for this frame. |
| Renderer.OpenGLRenderer.constructor | ypreview/src/main/java/com/joyuiyeongl/ypreview/OpenGLRenderer.kt:76-127 | The fields start as declared, `initContext` is queued, and the invariant holds. |
| Renderer.OpenGLRenderer.Execute | ypreview/src/main/java/com/joyuiyeongl/ypreview/SingleThreadHandlerExecutor.kt:13-17 | A task is queued exactly when the executor accepts; otherwise nothing changes (`RejectedExecutionException`). |
| Renderer.OpenGLRenderer.RunNext | ypreview/src/main/java/com/joyuiyeongl/ypreview/SingleThreadHandlerExecutor.kt:13-21 | The oldest task runs if the thread is alive. It keeps the invariant and matches `Step`. |
| Renderer.OpenGLRenderer.RunTask | ypreview/src/main/java/com/joyuiyeongl/ypreview/OpenGLRenderer.kt:126-285 | Each task body updates the fields as `Dispatch` says. |
| Renderer.OpenGLRenderer.RequestSurface | ypreview/src/main/java/com/joyuiyeongl/ypreview/OpenGLRenderer.kt:139 | The surface request is posted to the executor, and the invariant is kept. |
| Renderer.OpenGLRenderer.CameraReleases | ypreview/src/main/java/com/joyuiyeongl/ypreview/OpenGLRenderer.kt:148-151 | The release callback is posted once, for a texture the camera holds, and the invariant is kept. |
| Renderer.OpenGLRenderer.FrameAvailable | ypreview/src/main/java/com/joyuiyeongl/ypreview/OpenGLRenderer.kt:294-301 | The frame listener is posted, and the invariant is kept. |
| Renderer.OpenGLRenderer.AttachOutputSurface | ypreview/src/main/java/com/joyuiyeongl/ypreview/OpenGLRenderer.kt:166-189 | The attach task is posted; a rejection is ignored; the invariant is kept. |
| Renderer.OpenGLRenderer.SetFrameUpdateListener | ypreview/src/main/java/com/joyuiyeongl/ypreview/OpenGLRenderer.kt:200-212 | The listener is set by a posted task; a rejection is ignored. |
| Renderer.OpenGLRenderer.ClearFrameUpdateListener | ypreview/src/main/java/com/joyuiyeongl/ypreview/OpenGLRenderer.kt:214-220 | The listener is cleared by a posted task; a rejection is ignored. |
| Renderer.OpenGLRenderer.InvalidateSurface | ypreview/src/main/java/com/joyuiyeongl/ypreview/OpenGLRenderer.kt:222-236 | The invalidate task is posted; a rejection is ignored. |
| Renderer.OpenGLRenderer.DetachOutputSurface | ypreview/src/main/java/com/joyuiyeongl/ypreview/OpenGLRenderer.kt:246-262 | It returns a new future, complete exactly when the executor rejected its task. |
| Renderer.OpenGLRenderer.Shutdown | ypreview/src/main/java/com/joyuiyeongl/ypreview/OpenGLRenderer.kt:264-277 | The shutdown task is posted; a rejection is ignored. |
| Renderer.OpenGLRenderer.OnSurfaceRequested | ypreview/src/main/java/com/joyuiyeongl/ypreview/OpenGLRenderer.kt:139-161 | The fields change as `RendererModel.OnSurfaceRequested` says. |
| Renderer.OpenGLRenderer.ResetPreviewTexture | ypreview/src/main/java/com/joyuiyeongl/ypreview/OpenGLRenderer.kt:287-308 | It returns the new current texture, and the fields change as `RendererModel.ResetPreviewTexture` says. |
| Renderer.OpenGLRenderer.OnSurfaceReleased | ypreview/src/main/java/com/joyuiyeongl/ypreview/OpenGLRenderer.kt:151-158 | The fields change as `RendererModel.OnSurfaceReleased` says. |
| Renderer.OpenGLRenderer.DoShutdownExecutorIfNeeded | ypreview/src/main/java/com/joyuiyeongl/ypreview/OpenGLRenderer.kt:279-285 | The fields change as `RendererModel.DoShutdownExecutorIfNeeded` says. |
| Renderer.OpenGLRenderer.AttachOutputTask | ypreview/src/main/java/com/joyuiyeongl/ypreview/OpenGLRenderer.kt:170-185 | The fields change as `RendererModel.AttachOutputTask` says. |
| Renderer.OpenGLRenderer.InvalidateTask | ypreview/src/main/java/com/joyuiyeongl/ypreview/OpenGLRenderer.kt:224-232 | The fields change as `RendererModel.InvalidateTask` says. |
| Renderer.OpenGLRenderer.DetachTask | ypreview/src/main/java/com/joyuiyeongl/ypreview/OpenGLRenderer.kt:249-255 | The fields change as `RendererModel.DetachTask` says. |
| Renderer.OpenGLRenderer.ShutdownTask | ypreview/src/main/java/com/joyuiyeongl/ypreview/OpenGLRenderer.kt:266-273 | The fields change as `RendererModel.ShutdownTask` says. |
| Renderer.OpenGLRenderer.FrameAvailableTask | ypreview/src/main/java/com/joyuiyeongl/ypreview/OpenGLRenderer.kt:295-300 | The fields change as `RendererModel.FrameAvailableTask` says. |
| Renderer.OpenGLRenderer.RenderLatest | ypreview/src/main/java/com/joyuiyeongl/ypreview/OpenGLRenderer.kt:310-347 | The fields change as `RendererModel.RenderLatest` says. |
| Renderer.OpenGLRenderer.DrawFrame | ypreview/src/main/java/com/joyuiyeongl/ypreview/OpenGLRenderer.kt:324-346 | The fields change as `RendererModel.DrawFrame` says. |
| Renderer.OpenGLRenderer.UpdateMvpTransform | ypreview/src/main/java/com/joyuiyeongl/ypreview/OpenGLRenderer.kt:702-727 | The fields change as `RendererModel.UpdateMvpTransform` says. |

## Left out

- Floating-point matrix math is not modelled. This covers `android.opengl.Matrix` (`multiplyMV`/`MM`, `setLookAtM`, `orthoM`, `setRotateM`, `translateM`, `scaleM`, `length`), `Math.round`, and the center-crop fit (`setRectToRect` and `mapRect`). The MVP is represented by the inputs it is computed from. The crop rectangle is represented by the rectangle it starts from and the texture size it is fitted into. The rounded test vector is an input.
- The native GL calls and the `SurfaceTexture` are not modelled. Calls are logged, and their results are the `Native` input of each step. The texture transform matrix that is passed to `renderTexture` is not logged.
- Releasing the input `Surface` and `SurfaceTexture` in the release callback, and `detachFromGLContext`, are not logged as native calls.
- Threads, the `Handler` and `ListenableFuture` are reduced to three things: a FIFO of tasks that run one at a time, an `accepting` flag, and a set of completed detach futures. `attachInputPreview`'s own future completes with the first provided surface, and is represented by `inputAttached`.
- Renderer.OpenGLRenderer.CameraReleases: it requires that the texture is one the camera still holds. That is, the camera reports the end of each provided surface once, as CameraX does, and this protocol is not modelled further.
- FpsRecording.FpsRecorder.RecordTimestamp: it returns the two numbers the rate is computed from (frames and duration), not the double `1e9 * frames / duration`. That division is floating point, and `duration` may be zero or negative.
- FpsRecording.MonotonicClockGivesTrueDuration: it assumes non-negative timestamps, as frame timestamps are. With arbitrary 64-bit timestamps the subtraction can wrap, and `LongSub` models that wrap.
- The `@IntRange(from = 1)` annotation on the constructor is not enforced by the compiler. The `require` check in the initialiser is what `Create` models.
- TransformUtils.VerticesToRect: it requires at least eight coordinates. For a shorter array the code throws `ArrayIndexOutOfBoundsException`, which is not modelled.
- TransformUtils.SizeVerticesAreTranslatedRectVertices: it is stated only for rects whose width and height fit in an Int. Beyond that `rectToSize` wraps around (`TransformUtils.RectToSizeWraps`), and the vertices are those of the wrapped size.
- TransformUtils: floats are modelled as reals, so NaN, infinities and rounding are not modelled.
- `isAspectRatioMatchingWithRoundingError`, `getRectToRect` and `getNormalizedToBuffer` are not modelled. The first is float tolerance logic; the other two build `android.graphics.Matrix` objects.
- RendererModel.UpdateMvpTransform: when the crop is still null and the texture size is null, the code stores an unfitted crop before its null dereference. The model reports the same crash without storing it, because a crash ends the thread.
- RendererMath.IsCropRectFullTexture: it takes the texture size as an argument. The code reads `mPreviewSize!!`, whose null dereference is not modelled.
- Logging, `printMatrix` and the `DEBUG` flag are not modelled.
- The camera lifecycle glue, the views and the activities are not part of this model.
