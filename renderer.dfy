/**
 * OpenGLRenderer as the object it is: its fields, its executor's queue and flag,
 * and one method per task body, each updating the fields in place. Every method is
 * proved to do exactly what the corresponding function of RendererModel says, so
 * the properties proved there (RendererProperties) hold of the object.
 */
module Renderer {
  import opened Wrappers
  import opened Platform
  import opened RendererMath
  import opened RendererModel
  import opened RendererProperties

  /**
   * Everything outside the renderer that its tasks act on: the calls made into the
   * native GL layer, the notifications sent to the frame listener, the answers to
   * the camera's surface requests, the completed detach futures, and the textures
   * the camera still holds.
   */
  datatype World = World(
    glCalls: seq<GlCall>,
    notifications: seq<Notification>,
    surfaceResponses: seq<SurfaceResponse>,
    inputAttached: bool,
    detached: set<FutureId>,
    nextFuture: FutureId,
    nextTexture: TextureId,
    awaitingRelease: set<TextureId>)
  {
    /** One more call into the native layer. */
    function Call(c: GlCall): World {
      this.(glCalls := glCalls + [c])
    }
  }

  class OpenGLRenderer {
    // the renderer's fields
    var isShutdown: bool
    var numOutstandingSurfaces: int
    var nativeContext: int
    var mvpDirty: bool
    var surfaceSize: Option<Size>
    var surfaceRotationDegrees: Int32
    var previewSize: Option<Size>
    var textureRotationDegrees: Int32
    var previewTexture: Option<TextureId>
    var previewCropRect: Option<CropRect>
    var mvp: Mvp
    var frameUpdateListener: Option<FrameListener>
    // the single-thread executor: pending tasks, whether it still accepts work, and
    // the exception that ended its thread, if any
    var queue: seq<Task>
    var accepting: bool
    var crashed: Option<Fatal>
    /** What the outside world has seen of the renderer. */
    var world: World

    /** The object's state as a value of the model. */
    ghost function Model(): State
      reads this
    {
      State(isShutdown, numOutstandingSurfaces, nativeContext, mvpDirty, surfaceSize,
            surfaceRotationDegrees, previewSize, textureRotationDegrees, previewTexture,
            previewCropRect, mvp, frameUpdateListener, queue, accepting, crashed,
            world.glCalls, world.notifications, world.surfaceResponses, world.inputAttached,
            world.detached, world.nextFuture, world.nextTexture, world.awaitingRelease)
    }

    ghost predicate Valid()
      reads this
    {
      Inv(Model())
    }

    /** A new renderer, with the context's creation queued. */
    constructor ()
      ensures Model() == Initial() && Valid()
    {
      isShutdown, numOutstandingSurfaces, nativeContext := false, 0, 0;
      mvpDirty, surfaceSize, surfaceRotationDegrees := true, None, 0;
      previewSize, textureRotationDegrees, previewTexture := None, 0, None;
      previewCropRect, mvp, frameUpdateListener := None, Unset, None;
      queue, accepting, crashed := [InitContext], true, None;
      world := World([], [], [], false, {}, 0, 0, {});
      new;
      InitialInv();
    }

    // ------------------------------------------------------------ the executor

    /** executor.execute: queue a task; a shut-down executor rejects it. */
    method Execute(task: Task) returns (accepted: bool)
      modifies this
      ensures accepted == old(accepting)
      ensures Model() == RendererModel.Execute(old(Model()), task)
    {
      accepted := accepting;
      if accepting {
        queue := queue + [task];
      }
    }

    /** The executor's thread runs the oldest task, if it is still alive and has one. */
    method RunNext(native: Native) returns (ran: Option<Task>)
      requires Valid()
      modifies this
      ensures Valid()
      ensures Model() == Step(old(Model()), native)
      ensures ran.Some? <==> old(crashed).None? && old(queue) != []
      ensures ran.Some? ==> ran.value == old(queue)[0]
    {
      ghost var st := Model();
      StepKeepsInv(st, native);
      if crashed.Some? || queue == [] {
        return None;
      }
      var task := queue[0];
      queue := queue[1..];
      RunTask(task, native);
      return Some(task);
    }

    /** The body of one task, on the executor's thread. */
    method RunTask(task: Task, native: Native)
      modifies this
      ensures Model() == Dispatch(old(Model()), task, native)
    {
      match task {
        case InitContext =>
          nativeContext := native.context;
          world := world.Call(InitContextCall);
        case ProvideSurface(resolution) => OnSurfaceRequested(resolution);
        case ReleaseSurface(texture) => OnSurfaceReleased(texture);
        case AttachOutput(surface, size, rotation) => AttachOutputTask(surface, size, rotation, native.bindOk);
        case SetListener(listener) => frameUpdateListener := Some(listener);
        case ClearListener => frameUpdateListener := None;
        case Invalidate(rotation) => InvalidateTask(rotation, native);
        case DetachOutput(future) => DetachTask(future);
        case Shutdown => ShutdownTask();
        case FrameAvailable(texture) => FrameAvailableTask(texture, native);
      }
    }

    // ------------------------------------------------------------ public calls

    /** The camera asks the surface provider for a surface. */
    method RequestSurface(resolution: Size)
      requires Valid()
      modifies this
      ensures Valid() && Model() == Apply(old(Model()), Event.RequestSurface(resolution))
    {
      ExecuteKeepsInv(Model(), ProvideSurface(resolution));
      var _ := Execute(ProvideSurface(resolution));
    }

    /** The camera is done with a provided surface and posts its release callback. */
    method CameraReleases(texture: TextureId)
      requires Valid() && texture in world.awaitingRelease
      modifies this
      ensures Valid() && Model() == Apply(old(Model()), Event.CameraReleases(texture))
    {
      CameraReleasesKeepsInv(Model(), texture);
      world := world.(awaitingRelease := world.awaitingRelease - {texture});
      var _ := Execute(ReleaseSurface(texture));
    }

    /** A texture signals a new frame; its listener runs on the executor. */
    method FrameAvailable(texture: TextureId)
      requires Valid()
      modifies this
      ensures Valid() && Model() == Apply(old(Model()), NewFrame(texture))
    {
      ExecuteKeepsInv(Model(), Task.FrameAvailable(texture));
      var _ := Execute(Task.FrameAvailable(texture));
    }

    method AttachOutputSurface(surface: SurfaceId, surfaceSize: Size, surfaceRotationDegrees: Int32)
      requires Valid()
      modifies this
      ensures Valid() && Model() == Apply(old(Model()), Event.AttachOutputSurface(surface, surfaceSize, surfaceRotationDegrees))
    {
      ExecuteKeepsInv(Model(), AttachOutput(surface, surfaceSize, surfaceRotationDegrees));
      var _ := Execute(AttachOutput(surface, surfaceSize, surfaceRotationDegrees));
    }

    method SetFrameUpdateListener(listener: FrameListener)
      requires Valid()
      modifies this
      ensures Valid() && Model() == Apply(old(Model()), Event.SetFrameUpdateListener(listener))
    {
      ExecuteKeepsInv(Model(), SetListener(listener));
      var _ := Execute(SetListener(listener));
    }

    method ClearFrameUpdateListener()
      requires Valid()
      modifies this
      ensures Valid() && Model() == Apply(old(Model()), Event.ClearFrameUpdateListener)
    {
      ExecuteKeepsInv(Model(), ClearListener);
      var _ := Execute(ClearListener);
    }

    method InvalidateSurface(surfaceRotationDegrees: Int32)
      requires Valid()
      modifies this
      ensures Valid() && Model() == Apply(old(Model()), Event.InvalidateSurface(surfaceRotationDegrees))
    {
      ExecuteKeepsInv(Model(), Invalidate(surfaceRotationDegrees));
      var _ := Execute(Invalidate(surfaceRotationDegrees));
    }

    /**
     * Returns the new detach future and whether it is already complete, which it is
     * exactly when the executor rejects its task.
     */
    method DetachOutputSurface() returns (future: FutureId, completed: bool)
      requires Valid()
      modifies this
      ensures Valid() && Model() == Apply(old(Model()), Event.DetachOutputSurface)
      ensures future == old(world.nextFuture) && future !in old(world.detached)
      ensures completed <==> future in world.detached
      ensures completed <==> !old(accepting)
    {
      DetachRequestKeepsInv(Model());
      future := world.nextFuture;
      completed := !accepting;
      if accepting {
        world := world.(nextFuture := future + 1);
        queue := queue + [DetachOutput(future)];
      } else {
        // the executor rejected its task: the future completes at once
        world := world.(nextFuture := future + 1, detached := world.detached + {future});
      }
    }

    method Shutdown()
      requires Valid()
      modifies this
      ensures Valid() && Model() == Apply(old(Model()), RequestShutdown)
    {
      ExecuteKeepsInv(Model(), Task.Shutdown);
      var _ := Execute(Task.Shutdown);
    }

    // ------------------------------------------------------------ task bodies

    /** The surface provider's body for one surface request. */
    method OnSurfaceRequested(resolution: Size)
      modifies this
      ensures Model() == RendererModel.OnSurfaceRequested(old(Model()), resolution)
    {
      if isShutdown {
        world := world.(surfaceResponses := world.surfaceResponses + [WillNotProvideSurface]);
        return;
      }
      var texture := ResetPreviewTexture(resolution);
      numOutstandingSurfaces := numOutstandingSurfaces + 1;
      world := world.(surfaceResponses := world.surfaceResponses + [ProvidedSurface(texture)],
                      awaitingRelease := world.awaitingRelease + {texture},
                      inputAttached := true);
    }

    method ResetPreviewTexture(size: Size) returns (texture: TextureId)
      modifies this
      ensures Model() == RendererModel.ResetPreviewTexture(old(Model()), size)
      ensures previewTexture == Some(texture)
    {
      texture := world.nextTexture;
      world := world.Call(GetTexNameCall(nativeContext)).(nextTexture := texture + 1);
      previewTexture := Some(texture);
      if previewSize != Some(size) {
        mvpDirty := true;
      }
      previewSize := Some(size);
    }

    /** The release callback of a provided surface. */
    method OnSurfaceReleased(texture: TextureId)
      modifies this
      ensures Model() == RendererModel.OnSurfaceReleased(old(Model()), texture)
    {
      if previewTexture == Some(texture) {
        previewTexture := None;
      }
      numOutstandingSurfaces := numOutstandingSurfaces - 1;
      DoShutdownExecutorIfNeeded();
    }

    method DoShutdownExecutorIfNeeded()
      modifies this
      ensures Model() == RendererModel.DoShutdownExecutorIfNeeded(old(Model()))
    {
      if isShutdown && numOutstandingSurfaces == 0 {
        frameUpdateListener := None;
        accepting := false;
      }
    }

    method AttachOutputTask(surface: SurfaceId, size: Size, rotation: Int32, bindOk: bool)
      modifies this
      ensures Model() == RendererModel.AttachOutputTask(old(Model()), surface, size, rotation, bindOk)
    {
      if isShutdown {
        return;
      }
      world := world.Call(SetWindowSurfaceCall(nativeContext, Some(surface)));
      if bindOk {
        if rotation != surfaceRotationDegrees || surfaceSize != Some(size) {
          mvpDirty := true;
        }
        surfaceRotationDegrees := rotation;
        surfaceSize := Some(size);
      } else {
        surfaceSize := None;
      }
    }

    method InvalidateTask(rotation: Int32, native: Native)
      modifies this
      ensures Model() == RendererModel.InvalidateTask(old(Model()), rotation, native)
    {
      if rotation != surfaceRotationDegrees {
        mvpDirty := true;
      }
      surfaceRotationDegrees := rotation;
      if previewTexture.Some? && !isShutdown {
        RenderLatest(native.frame, native.drawOk, native.listenerAccepts);
      }
    }

    method DetachTask(future: FutureId)
      modifies this
      ensures Model() == RendererModel.DetachTask(old(Model()), future)
    {
      if !isShutdown {
        world := world.Call(SetWindowSurfaceCall(nativeContext, None));
        surfaceSize := None;
      }
      world := world.(detached := world.detached + {future});
    }

    method ShutdownTask()
      modifies this
      ensures Model() == RendererModel.ShutdownTask(old(Model()))
    {
      if !isShutdown {
        world := world.Call(CloseContextCall(nativeContext));
        nativeContext := 0;
        isShutdown := true;
      }
      DoShutdownExecutorIfNeeded();
    }

    /** The frame-available listener of texture `texture`. */
    method FrameAvailableTask(texture: TextureId, native: Native)
      modifies this
      ensures Model() == RendererModel.FrameAvailableTask(old(Model()), texture, native)
    {
      if previewTexture == Some(texture) && !isShutdown {
        RenderLatest(native.frame, native.drawOk, native.listenerAccepts);
      }
    }

    method RenderLatest(frame: Frame, drawOk: bool, listenerAccepts: bool)
      modifies this
      ensures Model() == RendererModel.RenderLatest(old(Model()), frame, drawOk, listenerAccepts)
    {
      if previewTexture.None? {
        crashed := Some(NullDereference);
        return;
      }
      var timestampNs := frame.timestampNs;
      var classified := TextureRotationDegrees(frame.testVector);
      if classified.Failure? {
        crashed := Some(BadTextureTransform(classified.error));
        return;
      }
      var rotation := classified.value;
      if rotation != textureRotationDegrees {
        mvpDirty := true;
      }
      textureRotationDegrees := rotation;
      if surfaceSize.Some? {
        DrawFrame(timestampNs, drawOk, listenerAccepts);
      }
    }

    /** The drawing half of renderLatest, once an output surface is attached. */
    method DrawFrame(timestampNs: int, drawOk: bool, listenerAccepts: bool)
      requires surfaceSize.Some?
      modifies this
      ensures Model() == RendererModel.DrawFrame(old(Model()), timestampNs, drawOk, listenerAccepts)
    {
      if mvpDirty {
        UpdateMvpTransform();
      }
      if crashed.Some? {
        return;
      }
      world := world.Call(RenderTextureCall(nativeContext, timestampNs, mvp, mvpDirty));
      mvpDirty := false;
      if drawOk && frameUpdateListener.Some? && listenerAccepts {
        world := world.(notifications := world.notifications + [Notification(frameUpdateListener.value, timestampNs)]);
      }
    }

    method UpdateMvpTransform()
      modifies this
      ensures Model() == RendererModel.UpdateMvpTransform(old(Model()))
    {
      var viewPortRotation := ViewPortRotation(textureRotationDegrees, surfaceRotationDegrees);
      if previewCropRect.None? {
        if surfaceSize.None? || previewSize.None? {
          crashed := Some(NullDereference);
          return;
        }
        previewCropRect := Some(CropRect(CropBase(surfaceSize.value, viewPortRotation), previewSize.value));
      }
      if previewSize.None? {
        crashed := Some(NullDereference);
        return;
      }
      mvp := Mvp(textureRotationDegrees, viewPortRotation, previewSize.value, previewCropRect.value);
    }
  }
}
