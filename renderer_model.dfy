/**
 * OpenGLRenderer as a state machine. Every public call of the renderer, and every
 * callback the camera makes into it, only posts a task to one single-thread
 * executor; the tasks then run one at a time, in the order they were posted, over
 * the renderer's fields. `State` holds those fields, the executor's queue and
 * whether it still accepts work, and what the outside world can observe: the calls
 * made into the native GL layer, the frame notifications sent to the listener, the
 * answers given to the camera's surface requests and the detach futures completed.
 *
 * The native layer, the SurfaceTexture and the listener's executor are not modelled;
 * what they answer while a task runs is the `Native` argument of that step.
 */
module RendererModel {
  import opened Wrappers
  import opened Platform
  import opened RendererMath

  /** Identity of a SurfaceTexture object: the number of textures created before it. */
  type TextureId = nat
  /** Identity of an output Surface handed to attachOutputSurface. */
  type SurfaceId = int
  /** Identity of the future returned by one detachOutputSurface call. */
  type FutureId = nat

  /** The (executor, consumer) pair of setFrameUpdateListener, by identity. */
  datatype FrameListener = FrameListener(executor: int, consumer: int)

  /** The bodies of the tasks the renderer posts to its executor. */
  datatype Task =
    | InitContext                                   // the constructor's initContext()
    | ProvideSurface(resolution: Size)              // the surface provider, for one SurfaceRequest
    | ReleaseSurface(texture: TextureId)            // the result listener of provideSurface
    | AttachOutput(surface: SurfaceId, surfaceSize: Size, surfaceRotationDegrees: Int32)
    | SetListener(listener: FrameListener)
    | ClearListener
    | Invalidate(surfaceRotationDegrees: Int32)
    | DetachOutput(future: FutureId)
    | Shutdown
    | FrameAvailable(texture: TextureId)            // a texture's frame-available listener

  /** The latest frame of the current texture: its timestamp and the rounded test vector of its transform. */
  datatype Frame = Frame(timestampNs: int, testVector: Vec2)

  /** What the world answers while one task runs. */
  datatype Native = Native(
    context: int,           // initContext()
    bindOk: bool,           // setWindowSurface(context, surface)
    frame: Frame,           // SurfaceTexture.timestamp and getTransformMatrix
    drawOk: bool,           // renderTexture(...)
    listenerAccepts: bool)  // the listener executor's execute does not reject

  /** The crop rectangle: the rectangle it starts from and the texture size it is center-fitted into. */
  datatype CropRect = CropRect(base: Extent, fittedInto: Size)

  /** The MVP matrix, represented by the inputs it is computed from. */
  datatype Mvp =
    | Unset
    | Mvp(textureRotationDegrees: int, viewPortRotation: int, previewSize: Size, crop: CropRect)

  /** The calls into the native GL layer. */
  datatype GlCall =
    | InitContextCall
    | SetWindowSurfaceCall(context: int, surface: Option<SurfaceId>)
    | GetTexNameCall(context: int)
    | RenderTextureCall(context: int, timestampNs: int, mvp: Mvp, mvpDirty: bool)
    | CloseContextCall(context: int)

  /** How a SurfaceRequest was answered. */
  datatype SurfaceResponse = WillNotProvideSurface | ProvidedSurface(texture: TextureId)

  datatype Notification = Notification(listener: FrameListener, timestampNs: int)

  /** An exception that escapes a task and ends the renderer's thread. */
  datatype Fatal = NullDereference | BadTextureTransform(error: TransformError)

  datatype State = State(
    // the renderer's fields
    isShutdown: bool,
    numOutstandingSurfaces: int,
    nativeContext: int,
    mvpDirty: bool,
    surfaceSize: Option<Size>,
    surfaceRotationDegrees: Int32,
    previewSize: Option<Size>,
    textureRotationDegrees: Int32,
    previewTexture: Option<TextureId>,
    previewCropRect: Option<CropRect>,
    mvp: Mvp,
    frameUpdateListener: Option<FrameListener>,
    // the single-thread executor
    queue: seq<Task>,
    accepting: bool,
    crashed: Option<Fatal>,
    // what the outside world observes
    glCalls: seq<GlCall>,
    notifications: seq<Notification>,
    surfaceResponses: seq<SurfaceResponse>,
    inputAttached: bool,
    detached: set<FutureId>,
    nextFuture: FutureId,
    nextTexture: TextureId,
    // textures handed to the camera whose result listener the camera has not yet posted
    awaitingRelease: set<TextureId>)

  /**
   * A new renderer: the fields as declared, and only the context's initialisation
   * queued on an executor that accepts work.
   */
  function Initial(): (r: State)
    ensures r.queue == [InitContext] && r.accepting && r.crashed.None?
    ensures !r.isShutdown && r.numOutstandingSurfaces == 0 && r.nativeContext == 0
    ensures r.mvpDirty && r.surfaceSize.None? && r.previewSize.None? && r.previewTexture.None?
    ensures r.previewCropRect.None? && r.frameUpdateListener.None?
    ensures r.glCalls == [] && r.notifications == [] && r.surfaceResponses == [] && r.detached == {}
    ensures r.surfaceRotationDegrees == 0 && r.textureRotationDegrees == 0 && r.mvp == Unset
    ensures !r.inputAttached && r.nextFuture == 0 && r.nextTexture == 0 && r.awaitingRelease == {}
  {
    State(false, 0, 0, true, None, 0, None, 0, None, None, Unset, None,
          [InitContext], true, None, [], [], [], false, {}, 0, 0, {})
  }

  // ---------------------------------------------------------------- the executor

  /** executor.execute: queue a task, or reject it once the executor was shut down. */
  function Execute(st: State, task: Task): (r: State)
    ensures st.accepting ==> r == st.(queue := st.queue + [task])
    ensures !st.accepting ==> r == st
  {
    if st.accepting then st.(queue := st.queue + [task]) else st
  }

  /**
   * Run the oldest queued task; nothing runs once a task has crashed the thread.
   * Tasks leave the queue in the order they entered it, and an executor that was
   * stopped never accepts work again.
   */
  function Step(st: State, native: Native): (r: State)
    ensures st.crashed.Some? || st.queue == [] ==> r == st
    ensures st.crashed.None? && st.queue != [] ==> r.queue == st.queue[1..]
    ensures !st.accepting ==> !r.accepting
  {
    if st.crashed.Some? || st.queue == [] then st
    else Dispatch(st.(queue := st.queue[1..]), st.queue[0], native)
  }

  /** The body of one task. No body posts work of its own or restarts a stopped executor. */
  function Dispatch(st: State, task: Task, native: Native): (r: State)
    ensures r.queue == st.queue
    ensures !st.accepting ==> !r.accepting
    ensures r.nextFuture == st.nextFuture
  {
    match task
    case InitContext => st.(nativeContext := native.context, glCalls := st.glCalls + [InitContextCall])
    case ProvideSurface(resolution) => OnSurfaceRequested(st, resolution)
    case ReleaseSurface(texture) => OnSurfaceReleased(st, texture)
    case AttachOutput(surface, size, rotation) => AttachOutputTask(st, surface, size, rotation, native.bindOk)
    case SetListener(listener) => st.(frameUpdateListener := Some(listener))
    case ClearListener => st.(frameUpdateListener := None)
    case Invalidate(rotation) => InvalidateTask(st, rotation, native)
    case DetachOutput(future) => DetachTask(st, future)
    case Shutdown => ShutdownTask(st)
    case FrameAvailable(texture) => FrameAvailableTask(st, texture, native)
  }

  // ---------------------------------------------------------------- task bodies

  /**
   * The surface provider: after shutdown the request is declined and nothing else
   * changes; otherwise a fresh texture becomes current, is handed to the camera and
   * counts as one more outstanding surface.
   */
  function OnSurfaceRequested(st: State, resolution: Size): (r: State)
    ensures st.isShutdown ==> r == st.(surfaceResponses := st.surfaceResponses + [WillNotProvideSurface])
    ensures !st.isShutdown ==>
      r.numOutstandingSurfaces == st.numOutstandingSurfaces + 1 &&
      r.previewTexture == Some(st.nextTexture) &&
      r.surfaceResponses == st.surfaceResponses + [ProvidedSurface(st.nextTexture)] &&
      r.awaitingRelease == st.awaitingRelease + {st.nextTexture} && r.inputAttached &&
      r.glCalls == st.glCalls + [GetTexNameCall(st.nativeContext)] &&
      r.previewSize == Some(resolution) && r.nextTexture == st.nextTexture + 1 &&
      r.mvpDirty == (st.mvpDirty || st.previewSize != Some(resolution)) &&
      r == st.(glCalls := r.glCalls, previewTexture := r.previewTexture, nextTexture := r.nextTexture,
               mvpDirty := r.mvpDirty, previewSize := r.previewSize,
               numOutstandingSurfaces := r.numOutstandingSurfaces, surfaceResponses := r.surfaceResponses,
               awaitingRelease := r.awaitingRelease, inputAttached := r.inputAttached)
  {
    if st.isShutdown then
      st.(surfaceResponses := st.surfaceResponses + [WillNotProvideSurface])
    else
      var st1 := ResetPreviewTexture(st, resolution);
      var texture := st1.previewTexture.value;
      st1.(numOutstandingSurfaces := st1.numOutstandingSurfaces + 1,
           surfaceResponses := st1.surfaceResponses + [ProvidedSurface(texture)],
           awaitingRelease := st1.awaitingRelease + {texture},
           inputAttached := true)
  }

  /**
   * resetPreviewTexture: a new texture becomes current and takes the requested size;
   * the matrices become dirty when that size differs from the previous one.
   */
  function ResetPreviewTexture(st: State, size: Size): (r: State)
    ensures r.previewTexture == Some(st.nextTexture) && r.nextTexture == st.nextTexture + 1
    ensures r.previewSize == Some(size)
    ensures r.mvpDirty == (st.mvpDirty || st.previewSize != Some(size))
    ensures r.glCalls == st.glCalls + [GetTexNameCall(st.nativeContext)]
    ensures r == st.(glCalls := r.glCalls, previewTexture := r.previewTexture, nextTexture := r.nextTexture,
                     mvpDirty := r.mvpDirty, previewSize := r.previewSize)
  {
    st.(glCalls := st.glCalls + [GetTexNameCall(st.nativeContext)],
        previewTexture := Some(st.nextTexture),
        nextTexture := st.nextTexture + 1,
        mvpDirty := st.mvpDirty || st.previewSize != Some(size),
        previewSize := Some(size))
  }

  /**
   * The result listener of a provided surface: one fewer outstanding surface; the
   * current texture is forgotten only if it is the one released; then the terminal check.
   */
  function OnSurfaceReleased(st: State, texture: TextureId): (r: State)
    ensures r.numOutstandingSurfaces == st.numOutstandingSurfaces - 1
    ensures r.previewTexture == if st.previewTexture == Some(texture) then None else st.previewTexture
    ensures !r.accepting <==> !st.accepting || (st.isShutdown && r.numOutstandingSurfaces == 0)
    ensures r.frameUpdateListener ==
      if st.isShutdown && r.numOutstandingSurfaces == 0 then None else st.frameUpdateListener
    ensures r == st.(previewTexture := r.previewTexture, numOutstandingSurfaces := r.numOutstandingSurfaces,
                     accepting := r.accepting, frameUpdateListener := r.frameUpdateListener)
  {
    var st1 := st.(previewTexture := if st.previewTexture == Some(texture) then None else st.previewTexture,
                   numOutstandingSurfaces := st.numOutstandingSurfaces - 1);
    DoShutdownExecutorIfNeeded(st1)
  }

  /**
   * The terminal check: the executor stops and the listener is cleared exactly when
   * the renderer is shut down and no input surface is outstanding.
   */
  function DoShutdownExecutorIfNeeded(st: State): (r: State)
    ensures st.isShutdown && st.numOutstandingSurfaces == 0 ==> !r.accepting && r.frameUpdateListener.None?
    ensures !(st.isShutdown && st.numOutstandingSurfaces == 0) ==> r == st
    ensures r == st.(accepting := r.accepting, frameUpdateListener := r.frameUpdateListener)
  {
    if st.isShutdown && st.numOutstandingSurfaces == 0 then
      st.(frameUpdateListener := None, accepting := false)
    else
      st
  }

  /**
   * attachOutputSurface's task: ignored after shutdown; a successful bind marks the
   * matrices dirty only if rotation or size changed and stores both; a failed bind
   * forgets the surface size and leaves rotation and dirtiness alone.
   */
  function AttachOutputTask(st: State, surface: SurfaceId, size: Size, rotation: Int32, bindOk: bool): (r: State)
    ensures st.isShutdown ==> r == st
    ensures !st.isShutdown ==> r.glCalls == st.glCalls + [SetWindowSurfaceCall(st.nativeContext, Some(surface))]
    ensures !st.isShutdown && bindOk ==>
      r.mvpDirty == (st.mvpDirty || rotation != st.surfaceRotationDegrees || st.surfaceSize != Some(size)) &&
      r.surfaceRotationDegrees == rotation && r.surfaceSize == Some(size)
    ensures !st.isShutdown && !bindOk ==>
      r.surfaceSize.None? && r.mvpDirty == st.mvpDirty && r.surfaceRotationDegrees == st.surfaceRotationDegrees
    ensures r == st.(glCalls := r.glCalls, mvpDirty := r.mvpDirty,
                     surfaceRotationDegrees := r.surfaceRotationDegrees, surfaceSize := r.surfaceSize)
  {
    if st.isShutdown then st
    else
      var st1 := st.(glCalls := st.glCalls + [SetWindowSurfaceCall(st.nativeContext, Some(surface))]);
      if bindOk then
        st1.(mvpDirty := st.mvpDirty || rotation != st.surfaceRotationDegrees || st.surfaceSize != Some(size),
             surfaceRotationDegrees := rotation,
             surfaceSize := Some(size))
      else
        st1.(surfaceSize := None)
  }

  /** The first half of invalidateSurface's task: dirty only on a change of rotation. */
  function SetSurfaceRotation(st: State, rotation: Int32): (r: State)
    ensures r.mvpDirty == (st.mvpDirty || rotation != st.surfaceRotationDegrees)
    ensures r == st.(mvpDirty := r.mvpDirty, surfaceRotationDegrees := rotation)
  {
    st.(mvpDirty := st.mvpDirty || rotation != st.surfaceRotationDegrees,
        surfaceRotationDegrees := rotation)
  }

  /**
   * invalidateSurface's task: record the rotation, dirtying the matrices only if it
   * changed, then redraw only if there is a texture and no shutdown.
   */
  function InvalidateTask(st: State, rotation: Int32, native: Native): (r: State)
    ensures r.crashed == st.crashed ==> r.surfaceRotationDegrees == rotation
    ensures st.previewTexture.None? || st.isShutdown ==>
      r == st.(mvpDirty := st.mvpDirty || rotation != st.surfaceRotationDegrees, surfaceRotationDegrees := rotation)
    ensures r.glCalls != st.glCalls || r.notifications != st.notifications ==>
      st.previewTexture.Some? && !st.isShutdown && st.surfaceSize.Some?
    ensures st.previewTexture.Some? && !st.isShutdown ==>
      r == RenderLatest(SetSurfaceRotation(st, rotation), native.frame, native.drawOk, native.listenerAccepts)
  {
    var st1 := SetSurfaceRotation(st, rotation);
    if st1.previewTexture.Some? && !st1.isShutdown then
      RenderLatest(st1, native.frame, native.drawOk, native.listenerAccepts)
    else
      st1
  }

  /**
   * detachOutputSurface's task: unbind and forget the size unless shut down; in
   * every case complete the future.
   */
  function DetachTask(st: State, future: FutureId): (r: State)
    ensures r.detached == st.detached + {future}
    ensures !st.isShutdown ==>
      r.surfaceSize.None? && r.glCalls == st.glCalls + [SetWindowSurfaceCall(st.nativeContext, None)]
    ensures r == st.(glCalls := r.glCalls, surfaceSize := r.surfaceSize, detached := r.detached)
    ensures st.isShutdown ==> r == st.(detached := r.detached)
  {
    var st1 := if !st.isShutdown then
        st.(glCalls := st.glCalls + [SetWindowSurfaceCall(st.nativeContext, None)], surfaceSize := None)
      else st;
    st1.(detached := st1.detached + {future})
  }

  /**
   * shutdown's task: the first one closes the context, zeroes the handle and marks
   * the renderer shut down; later ones skip that; all run the terminal check.
   */
  function ShutdownTask(st: State): (r: State)
    ensures r.isShutdown && (!st.isShutdown ==> r.nativeContext == 0)
    ensures !st.isShutdown ==> r.glCalls == st.glCalls + [CloseContextCall(st.nativeContext)]
    ensures st.isShutdown ==> r.glCalls == st.glCalls
    ensures !r.accepting <==> !st.accepting || st.numOutstandingSurfaces == 0
    ensures r.frameUpdateListener == if st.numOutstandingSurfaces == 0 then None else st.frameUpdateListener
    ensures st.isShutdown ==> r.nativeContext == st.nativeContext
    ensures r == st.(glCalls := r.glCalls, nativeContext := r.nativeContext, isShutdown := r.isShutdown,
                     accepting := r.accepting, frameUpdateListener := r.frameUpdateListener)
  {
    var st1 := if !st.isShutdown then
        st.(glCalls := st.glCalls + [CloseContextCall(st.nativeContext)], nativeContext := 0, isShutdown := true)
      else st;
    DoShutdownExecutorIfNeeded(st1)
  }

  /** A texture's frame-available listener: draw only for the current texture and before shutdown. */
  function FrameAvailableTask(st: State, texture: TextureId, native: Native): (r: State)
    ensures st.previewTexture != Some(texture) || st.isShutdown ==> r == st
    ensures st.previewTexture == Some(texture) && !st.isShutdown ==>
      r == RenderLatest(st, native.frame, native.drawOk, native.listenerAccepts)
  {
    if st.previewTexture == Some(texture) && !st.isShutdown then
      RenderLatest(st, native.frame, native.drawOk, native.listenerAccepts)
    else
      st
  }

  /**
   * updateMvpTransform: derive the crop rectangle if there is none yet, then
   * recompute the matrices from the current rotations, texture size and crop.
   */
  function UpdateMvpTransform(st: State): (r: State)
    ensures r == st.(previewCropRect := r.previewCropRect, mvp := r.mvp, crashed := r.crashed)
    ensures r.crashed != st.crashed ==>
      r.crashed == Some(NullDereference) && (st.previewSize.None? || (st.previewCropRect.None? && st.surfaceSize.None?))
    ensures r.previewCropRect != st.previewCropRect ==> st.previewCropRect.None?
    ensures st.previewCropRect.None? && st.surfaceSize.Some? && st.previewSize.Some? ==>
      r.previewCropRect == Some(CropRect(CropBase(st.surfaceSize.value,
        ViewPortRotation(st.textureRotationDegrees, st.surfaceRotationDegrees)), st.previewSize.value))
    ensures st.previewSize.Some? && (st.previewCropRect.Some? || st.surfaceSize.Some?) ==>
      r.crashed == st.crashed && r.previewCropRect.Some? &&
      (st.previewCropRect.Some? ==> r.previewCropRect == st.previewCropRect) &&
      r.mvp == Mvp(st.textureRotationDegrees,
                   ViewPortRotation(st.textureRotationDegrees, st.surfaceRotationDegrees),
                   st.previewSize.value, r.previewCropRect.value)
  {
    var viewPortRotation := ViewPortRotation(st.textureRotationDegrees, st.surfaceRotationDegrees);
    if st.previewCropRect.None? && (st.surfaceSize.None? || st.previewSize.None?) then
      st.(crashed := Some(NullDereference))
    else
      var crop := if st.previewCropRect.Some? then st.previewCropRect.value
                  else CropRect(CropBase(st.surfaceSize.value, viewPortRotation), st.previewSize.value);
      if st.previewSize.None? then
        st.(previewCropRect := Some(crop), crashed := Some(NullDereference))
      else
        st.(previewCropRect := Some(crop),
            mvp := Mvp(st.textureRotationDegrees, viewPortRotation, st.previewSize.value, crop))
  }

  /** The matrices were computed from the current rotations, texture size and crop. */
  predicate MatricesCurrent(st: State) {
    st.previewSize.Some? && st.previewCropRect.Some? &&
    st.mvp == Mvp(st.textureRotationDegrees, ViewPortRotation(st.textureRotationDegrees, st.surfaceRotationDegrees),
                  st.previewSize.value, st.previewCropRect.value)
  }

  /** What the dirty flag promises: when it is clear, the matrices are current. */
  predicate Coherent(st: State) {
    !st.mvpDirty ==> MatricesCurrent(st)
  }

  /** Whether the matrices are stale once the texture's rotation was read as `rotation`. */
  function DirtyAfterRead(st: State, rotation: int): bool {
    st.mvpDirty || rotation != st.textureRotationDegrees
  }

  /**
   * renderLatest: re-read the texture's rotation, which marks the matrices dirty if
   * it changed; a transform that is no quarter-turn rotation is fatal. With an output
   * surface it then draws once (see DrawFrame); without one the frame is dropped.
   */
  function RenderLatest(st: State, frame: Frame, drawOk: bool, listenerAccepts: bool): (r: State)
    ensures r == st.(mvpDirty := r.mvpDirty, textureRotationDegrees := r.textureRotationDegrees,
                     previewCropRect := r.previewCropRect, mvp := r.mvp, glCalls := r.glCalls,
                     notifications := r.notifications, crashed := r.crashed)
    ensures st.crashed.None? && st.previewTexture.Some? && st.previewSize.Some? ==>
      (r.crashed.Some? <==> TextureRotationDegrees(frame.testVector).Failure?) &&
      (r.crashed.Some? ==> r.crashed == Some(BadTextureTransform(TextureRotationDegrees(frame.testVector).error)))
    ensures r.crashed.None? && st.crashed.None? ==>
      TextureRotationDegrees(frame.testVector).Success? &&
      var rotation := TextureRotationDegrees(frame.testVector).value;
      r.textureRotationDegrees == rotation &&
      (st.surfaceSize.None? ==>
         r.glCalls == st.glCalls && r.notifications == st.notifications &&
         r.mvpDirty == DirtyAfterRead(st, rotation) && r.mvp == st.mvp) &&
      (st.surfaceSize.Some? ==>
         r.glCalls == st.glCalls + [RenderTextureCall(st.nativeContext, frame.timestampNs, r.mvp, DirtyAfterRead(st, rotation))] &&
         !r.mvpDirty &&
         (r.mvp != st.mvp ==> DirtyAfterRead(st, rotation)) &&
         (r.notifications != st.notifications <==> drawOk && listenerAccepts && st.frameUpdateListener.Some?) &&
         (r.notifications != st.notifications ==>
            r.notifications == st.notifications + [Notification(st.frameUpdateListener.value, frame.timestampNs)]))
    ensures r.crashed.Some? && st.crashed.None? ==> r.glCalls == st.glCalls && r.notifications == st.notifications
    ensures r.previewCropRect != st.previewCropRect ==> st.previewCropRect.None?
  {
    if st.previewTexture.None? then
      st.(crashed := Some(NullDereference))
    else match TextureRotationDegrees(frame.testVector)
      case Failure(e) => st.(crashed := Some(BadTextureTransform(e)))
      case Success(rotation) =>
        var st1 := st.(mvpDirty := DirtyAfterRead(st, rotation), textureRotationDegrees := rotation);
        if st1.surfaceSize.None? then st1
        else DrawFrame(st1, frame.timestampNs, drawOk, listenerAccepts)
  }

  /**
   * The drawing half of renderLatest, with an output surface: recompute the matrices
   * only if dirty, draw once passing the dirty flag, clear it, and notify the listener
   * only if the draw succeeded, one is set and its executor accepts.
   */
  function DrawFrame(st: State, timestampNs: int, drawOk: bool, listenerAccepts: bool): (r: State)
    requires st.surfaceSize.Some?
    ensures r == st.(mvpDirty := r.mvpDirty, previewCropRect := r.previewCropRect, mvp := r.mvp,
                     glCalls := r.glCalls, notifications := r.notifications, crashed := r.crashed)
    ensures st.previewSize.Some? && st.crashed.None? ==> r.crashed.None?
    ensures r.crashed.None? && st.crashed.None? ==>
      r.glCalls == st.glCalls + [RenderTextureCall(st.nativeContext, timestampNs, r.mvp, st.mvpDirty)] &&
      !r.mvpDirty &&
      (r.mvp != st.mvp ==> st.mvpDirty) &&
      (r.notifications != st.notifications <==> drawOk && listenerAccepts && st.frameUpdateListener.Some?) &&
      (r.notifications != st.notifications ==>
         r.notifications == st.notifications + [Notification(st.frameUpdateListener.value, timestampNs)])
    ensures r.crashed.Some? && st.crashed.None? ==> r.glCalls == st.glCalls && r.notifications == st.notifications
    ensures r.previewCropRect != st.previewCropRect ==> st.previewCropRect.None?
    ensures Coherent(st) ==> Coherent(r)
    ensures Coherent(st) && st.crashed.None? && r.crashed.None? ==> MatricesCurrent(r)
  {
    var st1 := if st.mvpDirty then UpdateMvpTransform(st) else st;
    if st1.crashed.Some? then st1
    else
      var st2 := st1.(glCalls := st1.glCalls + [RenderTextureCall(st1.nativeContext, timestampNs, st1.mvp, st1.mvpDirty)],
                      mvpDirty := false);
      if drawOk && st2.frameUpdateListener.Some? && listenerAccepts then
        st2.(notifications := st2.notifications + [Notification(st2.frameUpdateListener.value, timestampNs)])
      else
        st2
  }

  // ---------------------------------------------------------------- the public calls

  /** detachOutputSurface: a new future, completed at once if the executor rejects its task. */
  function Detach(st: State): (r: State)
    ensures r.nextFuture == st.nextFuture + 1
    ensures st.accepting ==> r.queue == st.queue + [DetachOutput(st.nextFuture)] && r.detached == st.detached
    ensures !st.accepting ==> r.detached == st.detached + {st.nextFuture} && r.queue == st.queue
    ensures r == st.(nextFuture := r.nextFuture, queue := r.queue, detached := r.detached)
  {
    var future := st.nextFuture;
    var st1 := st.(nextFuture := future + 1);
    if st.accepting then st1.(queue := st.queue + [DetachOutput(future)])
    else st1.(detached := st.detached + {future})
  }

  /** Everything that can happen to a renderer: a call from outside, or the executor running one task. */
  datatype Event =
    | RequestSurface(resolution: Size)          // the camera asks the surface provider for a surface
    | CameraReleases(texture: TextureId)        // the camera is done with a provided surface
    | NewFrame(texture: TextureId)              // a texture has a new frame
    | AttachOutputSurface(surface: SurfaceId, surfaceSize: Size, surfaceRotationDegrees: Int32)
    | SetFrameUpdateListener(listener: FrameListener)
    | ClearFrameUpdateListener
    | InvalidateSurface(surfaceRotationDegrees: Int32)
    | DetachOutputSurface
    | RequestShutdown
    | RunTask(native: Native)

  /**
   * One event. The camera reports the end of each surface it was given once, so a
   * report about any other texture changes nothing.
   */
  function Apply(st: State, e: Event): State {
    match e
    case RequestSurface(resolution) => Execute(st, ProvideSurface(resolution))
    case CameraReleases(texture) =>
      if texture in st.awaitingRelease then
        Execute(st.(awaitingRelease := st.awaitingRelease - {texture}), ReleaseSurface(texture))
      else st
    case NewFrame(texture) => Execute(st, FrameAvailable(texture))
    case AttachOutputSurface(surface, size, rotation) => Execute(st, AttachOutput(surface, size, rotation))
    case SetFrameUpdateListener(listener) => Execute(st, SetListener(listener))
    case ClearFrameUpdateListener => Execute(st, ClearListener)
    case InvalidateSurface(rotation) => Execute(st, Invalidate(rotation))
    case DetachOutputSurface => Detach(st)
    case RequestShutdown => Execute(st, Shutdown)
    case RunTask(native) => Step(st, native)
  }

  function Run(st: State, events: seq<Event>): State
    decreases |events|
  {
    if events == [] then st else Run(Apply(st, events[0]), events[1..])
  }
}
