/**
 * What OpenGLRenderer guarantees over any sequence of calls and executed tasks:
 * its resource accounting, the life cycle of the native context, the detach
 * futures, and the effect of the dirty flag on drawing.
 */
module RendererProperties {
  import opened Wrappers
  import opened Platform
  import opened RendererMath
  import opened RendererModel

  /** The number of queued release callbacks. */
  function Releases(q: seq<Task>): nat {
    if q == [] then 0 else (if q[0].ReleaseSurface? then 1 else 0) + Releases(q[1..])
  }

  lemma {:induction false} ReleasesAppend(q: seq<Task>, t: Task)
    ensures Releases(q + [t]) == Releases(q) + (if t.ReleaseSurface? then 1 else 0)
  {
    if q != [] {
      assert (q + [t])[1..] == q[1..] + [t];
      ReleasesAppend(q[1..], t);
    }
  }

  /**
   * Every provided surface is outstanding until its release callback has run: it is
   * either still with the camera or its callback is queued. The executor has stopped
   * only after shutdown with nothing outstanding.
   */
  ghost predicate SurfaceAccounting(st: State) {
    st.numOutstandingSurfaces == |st.awaitingRelease| + Releases(st.queue) &&
    (forall t :: t in st.awaitingRelease ==> t < st.nextTexture) &&
    (!st.accepting ==> st.isShutdown && st.numOutstandingSurfaces == 0)
  }

  /**
   * The context is created by the first native call and by no other; it is closed
   * at most once, by the last native call, exactly when the renderer is shut down,
   * and the handle is zero from then on.
   */
  ghost predicate ContextLifecycle(st: State) {
    (st.glCalls == [] <==> st.queue != [] && st.queue[0] == InitContext) &&
    (forall i :: 0 <= i < |st.queue| && st.queue[i] == InitContext ==> i == 0) &&
    (st.glCalls != [] ==> st.glCalls[0] == InitContextCall) &&
    (forall i :: 0 < i < |st.glCalls| ==> st.glCalls[i] != InitContextCall) &&
    (forall i :: 0 <= i < |st.glCalls| - 1 ==> !st.glCalls[i].CloseContextCall?) &&
    (st.isShutdown <==> st.glCalls != [] && st.glCalls[|st.glCalls| - 1].CloseContextCall?) &&
    (st.isShutdown ==> st.nativeContext == 0)
  }

  /** Each detach future is either queued once or completed, never both. */
  ghost predicate DetachFutures(st: State) {
    (forall f :: f in st.detached ==> f < st.nextFuture) &&
    (forall i :: 0 <= i < |st.queue| && st.queue[i].DetachOutput? ==>
       st.queue[i].future < st.nextFuture && st.queue[i].future !in st.detached) &&
    (forall i, j :: 0 <= i < j < |st.queue| && st.queue[i].DetachOutput? && st.queue[j].DetachOutput? ==>
       st.queue[i].future != st.queue[j].future)
  }

  /** A current texture has a size, and the only exception that can escape a task is the platform's. */
  ghost predicate NoNullDereference(st: State) {
    (st.previewTexture.Some? ==> st.previewSize.Some?) &&
    (st.crashed.Some? ==> st.crashed.value.BadTextureTransform?)
  }

  ghost predicate Inv(st: State) {
    SurfaceAccounting(st) && ContextLifecycle(st) && DetachFutures(st) && NoNullDereference(st)
  }

  lemma InitialInv()
    ensures Inv(Initial())
  {
  }

  // ------------------------------------------------------------- the invariant holds throughout

  /** A native call other than creating or closing the context. */
  predicate IsOrdinaryCall(c: GlCall) {
    !c.InitContextCall? && !c.CloseContextCall?
  }

  /** `after` is `before`, or `before` followed by one ordinary call. */
  predicate AddsOrdinaryCall(before: seq<GlCall>, after: seq<GlCall>) {
    after == before ||
    (|after| == |before| + 1 && after[..|before|] == before && IsOrdinaryCall(after[|before|]))
  }

  /**
   * A task body that leaves the queue, the executor, the surface accounting and
   * the futures alone, and adds at most one ordinary native call before shutdown,
   * keeps the invariant.
   */
  lemma {:induction false} LocalChangeKeepsInv(st: State, r: State)
    requires Inv(st) && st.glCalls != []
    requires r.queue == st.queue && r.accepting == st.accepting
    requires r.awaitingRelease == st.awaitingRelease && r.nextTexture == st.nextTexture
    requires r.numOutstandingSurfaces == st.numOutstandingSurfaces
    requires r.detached == st.detached && r.nextFuture == st.nextFuture
    requires r.isShutdown == st.isShutdown && r.nativeContext == st.nativeContext
    requires AddsOrdinaryCall(st.glCalls, r.glCalls) && (r.glCalls != st.glCalls ==> !st.isShutdown)
    requires NoNullDereference(r)
    ensures Inv(r)
  {
    if r.glCalls != st.glCalls {
      forall i | 0 <= i < |r.glCalls| - 1
        ensures !r.glCalls[i].CloseContextCall?
      {
        assert r.glCalls[i] == st.glCalls[i];
      }
      forall i | 0 < i < |r.glCalls|
        ensures r.glCalls[i] != InitContextCall
      {
        if i < |st.glCalls| {
          assert r.glCalls[i] == st.glCalls[i];
        }
      }
      assert r.glCalls[0] == st.glCalls[0];
    }
  }

  /** Draws happen only before shutdown, and keep the invariant. */
  lemma {:induction false} RenderLatestKeepsInv(st: State, frame: Frame, drawOk: bool, listenerAccepts: bool)
    requires Inv(st) && st.glCalls != [] && !st.isShutdown && st.previewTexture.Some? && st.crashed.None?
    ensures Inv(RenderLatest(st, frame, drawOk, listenerAccepts))
  {
    var r := RenderLatest(st, frame, drawOk, listenerAccepts);
    if r.glCalls != st.glCalls {
      assert r.glCalls[..|st.glCalls|] == st.glCalls;
    }
    LocalChangeKeepsInv(st, r);
  }

  lemma {:induction false} AttachOutputKeepsInv(st: State, surface: SurfaceId, size: Size, rotation: Int32, bindOk: bool)
    requires Inv(st) && st.glCalls != []
    ensures Inv(AttachOutputTask(st, surface, size, rotation, bindOk))
  {
    var r := AttachOutputTask(st, surface, size, rotation, bindOk);
    if r.glCalls != st.glCalls {
      assert r.glCalls[..|st.glCalls|] == st.glCalls;
    }
    LocalChangeKeepsInv(st, r);
  }

  lemma {:induction false} ProvideSurfaceKeepsInv(st: State, resolution: Size)
    requires Inv(st) && st.glCalls != []
    ensures Inv(OnSurfaceRequested(st, resolution))
  {
    var r := OnSurfaceRequested(st, resolution);
    if !st.isShutdown {
      assert st.nextTexture !in st.awaitingRelease;
      assert |r.awaitingRelease| == |st.awaitingRelease| + 1;
      assert r.glCalls == st.glCalls + [GetTexNameCall(st.nativeContext)];
      forall i | 0 <= i < |r.glCalls| - 1
        ensures !r.glCalls[i].CloseContextCall?
      {
        assert r.glCalls[i] == st.glCalls[i];
      }
    }
  }

  lemma {:induction false} ShutdownKeepsInv(st: State)
    requires Inv(st) && st.glCalls != []
    ensures Inv(ShutdownTask(st))
  {
    var r := ShutdownTask(st);
    if !st.isShutdown {
      assert r.glCalls == st.glCalls + [CloseContextCall(st.nativeContext)];
      forall i | 0 <= i < |r.glCalls| - 1
        ensures !r.glCalls[i].CloseContextCall?
      {
        assert r.glCalls[i] == st.glCalls[i];
      }
    }
  }

  lemma {:induction false} DetachKeepsInv(st: State, future: FutureId)
    requires Inv(st) && st.glCalls != []
    requires future < st.nextFuture && future !in st.detached
    requires forall i :: 0 <= i < |st.queue| && st.queue[i].DetachOutput? ==> st.queue[i].future != future
    ensures Inv(DetachTask(st, future))
  {
    var r := DetachTask(st, future);
    if !st.isShutdown {
      forall i | 0 <= i < |r.glCalls| - 1
        ensures !r.glCalls[i].CloseContextCall?
      {
        assert r.glCalls[i] == st.glCalls[i];
      }
    }
  }

  /** The first task initialises the context; nothing was called before it, and it is never queued again. */
  lemma {:induction false} InitContextKeepsInv(st: State, native: Native)
    requires Inv(st) && st.crashed.None? && st.queue != [] && st.queue[0] == InitContext
    ensures Inv(Step(st, native))
  {
    var r := Step(st, native);
    assert st.glCalls == [] && r.glCalls == [InitContextCall];
    assert st.queue == [InitContext] + st.queue[1..];
  }

  lemma {:induction false} ReleaseKeepsInv(st: State, native: Native)
    requires Inv(st) && st.crashed.None? && st.queue != [] && st.queue[0].ReleaseSurface?
    ensures Inv(Step(st, native))
  {
    assert Releases(st.queue) == 1 + Releases(st.queue[1..]);
    assert st.queue == [st.queue[0]] + st.queue[1..];
  }

  /** Taking a task other than the first off the queue keeps the invariant of the rest. */
  lemma {:induction false} PopKeepsInv(st: State)
    requires Inv(st) && st.queue != [] && st.queue[0] != InitContext && !st.queue[0].ReleaseSurface?
    ensures Inv(st.(queue := st.queue[1..])) && st.glCalls != []
    ensures st.queue[0].DetachOutput? ==> st.queue[0].future !in st.detached && st.queue[0].future < st.nextFuture
    ensures st.queue[0].DetachOutput? ==>
              forall i :: 0 <= i < |st.queue| - 1 && st.queue[1..][i].DetachOutput? ==> st.queue[1..][i].future != st.queue[0].future
  {
    assert st.queue == [st.queue[0]] + st.queue[1..];
    assert Releases(st.queue) == Releases(st.queue[1..]);
  }

  /** Running a task other than the context's creation or a release keeps the invariant. */
  lemma {:induction false} DispatchKeepsInv(st: State, task: Task, native: Native)
    requires Inv(st) && st.glCalls != [] && st.crashed.None? && task != InitContext && !task.ReleaseSurface?
    requires task.DetachOutput? ==> task.future !in st.detached && task.future < st.nextFuture
    requires task.DetachOutput? ==> forall i :: 0 <= i < |st.queue| && st.queue[i].DetachOutput? ==> st.queue[i].future != task.future
    ensures Inv(Dispatch(st, task, native))
  {
    match task
    case DetachOutput(future) => DetachKeepsInv(st, future);
    case ProvideSurface(resolution) => ProvideSurfaceKeepsInv(st, resolution);
    case AttachOutput(surface, size, rotation) => AttachOutputKeepsInv(st, surface, size, rotation, native.bindOk);
    case Shutdown => ShutdownKeepsInv(st);
    case Invalidate(rotation) => InvalidateKeepsInv(st, rotation, native);
    case FrameAvailable(texture) => FrameAvailableKeepsInv(st, texture, native);
    case SetListener(listener) =>
    case ClearListener =>
  }

  lemma {:induction false} InvalidateKeepsInv(st: State, rotation: Int32, native: Native)
    requires Inv(st) && st.glCalls != [] && st.crashed.None?
    ensures Inv(InvalidateTask(st, rotation, native))
  {
    var st1 := SetSurfaceRotation(st, rotation);
    if st1.previewTexture.Some? && !st1.isShutdown {
      RenderLatestKeepsInv(st1, native.frame, native.drawOk, native.listenerAccepts);
    }
  }

  lemma {:induction false} FrameAvailableKeepsInv(st: State, texture: TextureId, native: Native)
    requires Inv(st) && st.glCalls != [] && st.crashed.None?
    ensures Inv(FrameAvailableTask(st, texture, native))
  {
    if st.previewTexture == Some(texture) && !st.isShutdown {
      RenderLatestKeepsInv(st, native.frame, native.drawOk, native.listenerAccepts);
    }
  }

  lemma {:induction false} StepKeepsInv(st: State, native: Native)
    requires Inv(st)
    ensures Inv(Step(st, native))
  {
    if st.crashed.None? && st.queue != [] {
      var task := st.queue[0];
      if task == InitContext {
        InitContextKeepsInv(st, native);
      } else if task.ReleaseSurface? {
        ReleaseKeepsInv(st, native);
      } else {
        PopKeepsInv(st);
        DispatchKeepsInv(st.(queue := st.queue[1..]), task, native);
      }
    }
  }

  /** Submitting a task other than the context's creation, a release or a detach keeps the invariant. */
  lemma {:induction false} ExecuteKeepsInv(st: State, task: Task)
    requires Inv(st) && task != InitContext && !task.ReleaseSurface? && !task.DetachOutput?
    ensures Inv(Execute(st, task))
  {
    if st.accepting {
      ReleasesAppend(st.queue, task);
      var q := st.queue + [task];
      assert forall i :: 0 <= i < |st.queue| ==> q[i] == st.queue[i];
    }
  }

  lemma {:induction false} CameraReleasesKeepsInv(st: State, texture: TextureId)
    requires Inv(st)
    ensures Inv(Apply(st, CameraReleases(texture)))
  {
    if texture in st.awaitingRelease {
      var st1 := st.(awaitingRelease := st.awaitingRelease - {texture});
      ReleasesAppend(st.queue, ReleaseSurface(texture));
      var q := st.queue + [ReleaseSurface(texture)];
      assert forall i :: 0 <= i < |st.queue| ==> q[i] == st.queue[i];
    }
  }

  lemma {:induction false} DetachRequestKeepsInv(st: State)
    requires Inv(st)
    ensures Inv(Apply(st, DetachOutputSurface))
  {
    if st.accepting {
      ReleasesAppend(st.queue, DetachOutput(st.nextFuture));
      var q := st.queue + [DetachOutput(st.nextFuture)];
      assert forall i :: 0 <= i < |st.queue| ==> q[i] == st.queue[i];
    }
  }

  lemma {:induction false} ApplyKeepsInv(st: State, e: Event)
    requires Inv(st)
    ensures Inv(Apply(st, e))
  {
    match e
    case RequestSurface(resolution) => ExecuteKeepsInv(st, ProvideSurface(resolution));
    case CameraReleases(texture) => CameraReleasesKeepsInv(st, texture);
    case NewFrame(texture) => ExecuteKeepsInv(st, FrameAvailable(texture));
    case AttachOutputSurface(surface, size, rotation) => ExecuteKeepsInv(st, AttachOutput(surface, size, rotation));
    case SetFrameUpdateListener(listener) => ExecuteKeepsInv(st, SetListener(listener));
    case ClearFrameUpdateListener => ExecuteKeepsInv(st, ClearListener);
    case InvalidateSurface(rotation) => ExecuteKeepsInv(st, Invalidate(rotation));
    case DetachOutputSurface => DetachRequestKeepsInv(st);
    case RequestShutdown => ExecuteKeepsInv(st, Shutdown);
    case RunTask(native) => StepKeepsInv(st, native);
  }

  /** From a fresh renderer, whatever happens, the invariant holds. */
  lemma {:induction false} RunKeepsInv(st: State, events: seq<Event>)
    requires Inv(st)
    ensures Inv(Run(st, events))
    decreases |events|
  {
    if events != [] {
      ApplyKeepsInv(st, events[0]);
      RunKeepsInv(Apply(st, events[0]), events[1..]);
    }
  }

  // ------------------------------------------------------------- consequences for any run

  /** From a fresh renderer, the context is created first and closed at most once, by the last native call, exactly after shutdown. */
  lemma {:induction false} ContextClosedAtMostOnce(events: seq<Event>)
    ensures var r := Run(Initial(), events);
      (forall i :: 0 <= i < |r.glCalls| - 1 ==> !r.glCalls[i].CloseContextCall?) &&
      (r.glCalls != [] ==> r.glCalls[0] == InitContextCall) &&
      (r.isShutdown <==> r.glCalls != [] && r.glCalls[|r.glCalls| - 1].CloseContextCall?) &&
      (r.crashed.Some? ==> r.crashed.value.BadTextureTransform?)
  {
    InitialInv();
    RunKeepsInv(Initial(), events);
  }

  /** From a fresh renderer, the executor refuses work only once shut down with no surface outstanding. */
  lemma {:induction false} StopsOnlyWhenIdle(events: seq<Event>)
    ensures var r := Run(Initial(), events);
      (!r.accepting ==> r.isShutdown && r.numOutstandingSurfaces == 0) &&
      r.numOutstandingSurfaces >= 0
  {
    InitialInv();
    RunKeepsInv(Initial(), events);
  }

  /**
   * The terminal check runs after the shutdown task and after every release: once
   * either has run, the executor is stopped, and the listener cleared, exactly when
   * the renderer is shut down with nothing outstanding.
   */
  lemma {:induction false} TerminalCheckExact(st: State, native: Native)
    requires Inv(st) && st.crashed.None? && st.queue != [] && (st.queue[0] == Shutdown || st.queue[0].ReleaseSurface?)
    ensures var r := Step(st, native);
      (!r.accepting <==> r.isShutdown && r.numOutstandingSurfaces == 0) &&
      (!r.accepting ==> r.frameUpdateListener.None?)
  {
    if st.queue[0].ReleaseSurface? {
      assert Releases(st.queue) == 1 + Releases(st.queue[1..]);
    }
  }

  /**
   * Unlike a teardown that waits for the camera, the shutdown task closes the
   * context at once, even while input surfaces are still outstanding; only the
   * executor keeps running until they are released.
   */
  lemma {:induction false} ShutdownClosesWhileOutstanding(st: State, native: Native)
    requires Inv(st) && st.crashed.None? && !st.isShutdown && st.numOutstandingSurfaces > 0
    requires st.queue != [] && st.queue[0] == Shutdown
    ensures var r := Step(st, native);
      r.isShutdown && r.accepting && r.numOutstandingSurfaces > 0 && r.nativeContext == 0 &&
      r.glCalls == st.glCalls + [CloseContextCall(st.nativeContext)]
  {
    assert st.accepting;
  }

  /** Each detach task completes a future that was not complete before. */
  lemma {:induction false} DetachTaskCompletesOnce(st: State, native: Native)
    requires Inv(st) && st.crashed.None? && st.queue != [] && st.queue[0].DetachOutput?
    ensures st.queue[0].future !in st.detached
    ensures Step(st, native).detached == st.detached + {st.queue[0].future}
  {
  }

  /**
   * A detach request completes its future exactly once: at once if the executor
   * rejects its task, otherwise when the queued task runs, and never before.
   */
  lemma {:induction false} DetachRequestCompletesOnce(st: State)
    requires Inv(st)
    ensures var r := Apply(st, DetachOutputSurface);
      st.nextFuture !in st.detached &&
      (st.accepting ==> r.detached == st.detached && r.queue == st.queue + [DetachOutput(st.nextFuture)]) &&
      (!st.accepting ==> r.detached == st.detached + {st.nextFuture} && r.queue == st.queue)
  {
  }

  // ------------------------------------------------------------- after shutdown

  /** `after` extends `before` with declined surface requests only. */
  predicate OnlyDeclined(before: seq<SurfaceResponse>, after: seq<SurfaceResponse>) {
    |before| <= |after| && after[..|before|] == before &&
    forall i :: |before| <= i < |after| ==> after[i] == WillNotProvideSurface
  }

  lemma OnlyDeclinedTransitive(a: seq<SurfaceResponse>, b: seq<SurfaceResponse>, c: seq<SurfaceResponse>)
    requires OnlyDeclined(a, b) && OnlyDeclined(b, c)
    ensures OnlyDeclined(a, c)
  {
    assert c[..|a|] == b[..|a|];
  }

  /** One task after shutdown: no native call, no notification, declined requests, the count only falls. */
  lemma {:induction false} DispatchAfterShutdown(st: State, task: Task, native: Native)
    requires st.isShutdown && task != InitContext
    ensures var r := Dispatch(st, task, native);
      r.isShutdown && r.glCalls == st.glCalls && r.notifications == st.notifications &&
      r.numOutstandingSurfaces <= st.numOutstandingSurfaces && OnlyDeclined(st.surfaceResponses, r.surfaceResponses)
  {
    match task
    case Invalidate(rotation) =>
      assert InvalidateTask(st, rotation, native) == SetSurfaceRotation(st, rotation);
    case FrameAvailable(texture) =>
    case ProvideSurface(resolution) =>
    case ReleaseSurface(texture) =>
    case AttachOutput(surface, size, rotation) =>
    case DetachOutput(future) =>
    case Shutdown =>
    case SetListener(listener) =>
    case ClearListener =>
  }

  /** One event after shutdown, as for one task. */
  lemma {:induction false} ApplyAfterShutdown(st: State, e: Event)
    requires Inv(st) && st.isShutdown
    ensures var r := Apply(st, e);
      r.isShutdown && r.glCalls == st.glCalls && r.notifications == st.notifications &&
      r.numOutstandingSurfaces <= st.numOutstandingSurfaces && OnlyDeclined(st.surfaceResponses, r.surfaceResponses)
  {
    if e.RunTask? && st.crashed.None? && st.queue != [] {
      assert st.queue[0] != InitContext;
      DispatchAfterShutdown(st.(queue := st.queue[1..]), st.queue[0], e.native);
    }
  }

  /**
   * Once shut down, nothing more reaches the native layer or the listener, every
   * further surface request is declined, and the outstanding count never grows.
   */
  lemma {:induction false} NothingAfterShutdown(st: State, events: seq<Event>)
    requires Inv(st) && st.isShutdown
    ensures var r := Run(st, events);
      r.isShutdown && r.glCalls == st.glCalls && r.notifications == st.notifications &&
      r.numOutstandingSurfaces <= st.numOutstandingSurfaces && OnlyDeclined(st.surfaceResponses, r.surfaceResponses)
    decreases |events|
  {
    if events != [] {
      var st1 := Apply(st, events[0]);
      ApplyAfterShutdown(st, events[0]);
      ApplyKeepsInv(st, events[0]);
      NothingAfterShutdown(st1, events[1..]);
      OnlyDeclinedTransitive(st.surfaceResponses, st1.surfaceResponses, Run(st1, events[1..]).surfaceResponses);
    }
  }

  // ------------------------------------------------------------- the crop rectangle and the dirty flag

  /** No event replaces a crop rectangle once it was derived. */
  lemma {:induction false} ApplyKeepsCrop(st: State, e: Event)
    requires st.previewCropRect.Some?
    ensures Apply(st, e).previewCropRect == st.previewCropRect
  {
    if e.RunTask? && st.crashed.None? && st.queue != [] {
      var popped := st.(queue := st.queue[1..]);
      match st.queue[0]
      case Invalidate(rotation) =>
        var st1 := SetSurfaceRotation(popped, rotation);
        if st1.previewTexture.Some? && !st1.isShutdown {
          assert RenderLatest(st1, e.native.frame, e.native.drawOk, e.native.listenerAccepts).previewCropRect == st1.previewCropRect;
        }
      case FrameAvailable(texture) =>
        if popped.previewTexture == Some(texture) && !popped.isShutdown {
          assert RenderLatest(popped, e.native.frame, e.native.drawOk, e.native.listenerAccepts).previewCropRect == popped.previewCropRect;
        }
      case ReleaseSurface(texture) =>
      case ProvideSurface(resolution) =>
      case Shutdown =>
      case _ =>
    }
  }

  /** The crop rectangle is derived once, from the first surface size seen, and then kept for good. */
  lemma {:induction false} CropDerivedOnce(st: State, events: seq<Event>)
    requires st.previewCropRect.Some?
    ensures Run(st, events).previewCropRect == st.previewCropRect
    decreases |events|
  {
    if events != [] {
      ApplyKeepsCrop(st, events[0]);
      CropDerivedOnce(Apply(st, events[0]), events[1..]);
    }
  }

  /**
   * After a frame is drawn, drawing again while the texture's rotation stays the
   * same and no task dirtied the matrices reuses them: the native layer is told
   * they are unchanged.
   */
  lemma {:induction false} RedrawReusesMatrices(st: State, frame1: Frame, frame2: Frame, ok1: bool, ok2: bool, acc1: bool, acc2: bool)
    requires st.crashed.None? && st.previewTexture.Some? && st.previewSize.Some? && st.surfaceSize.Some?
    requires TextureRotationDegrees(frame1.testVector).Success? && frame2.testVector == frame1.testVector
    ensures var r1 := RenderLatest(st, frame1, ok1, acc1);
      var r2 := RenderLatest(r1, frame2, ok2, acc2);
      r1.crashed.None? && r2.crashed.None? && r2.mvp == r1.mvp && !r2.mvpDirty &&
      r2.glCalls == r1.glCalls + [RenderTextureCall(st.nativeContext, frame2.timestampNs, r1.mvp, false)]
  {
    var r1 := RenderLatest(st, frame1, ok1, acc1);
    var rotation := TextureRotationDegrees(frame1.testVector).value;
    assert r1.crashed.None?;
    assert !DirtyAfterRead(r1, rotation);
  }

  // ------------------------------------------------------------- the dirty flag

  /** renderLatest keeps the flag's promise, and a draw leaves the matrices current. */
  lemma {:induction false} RenderLatestKeepsCoherent(st: State, frame: Frame, drawOk: bool, listenerAccepts: bool)
    requires Coherent(st)
    ensures var r := RenderLatest(st, frame, drawOk, listenerAccepts);
      Coherent(r) && (st.crashed.None? && r.crashed.None? && st.surfaceSize.Some? ==> MatricesCurrent(r))
  {
    if st.previewTexture.Some? && TextureRotationDegrees(frame.testVector).Success? {
      var rotation := TextureRotationDegrees(frame.testVector).value;
      var st1 := st.(mvpDirty := DirtyAfterRead(st, rotation), textureRotationDegrees := rotation);
      assert Coherent(st1);
    }
  }

  /**
   * Every task body keeps the flag's promise: whatever changes a rotation or the
   * texture size marks the matrices dirty, and only a recomputation clears the flag.
   */
  lemma {:induction false} DispatchKeepsCoherent(st: State, task: Task, native: Native)
    requires Coherent(st)
    ensures Coherent(Dispatch(st, task, native))
  {
    match task
    case Invalidate(rotation) =>
      RenderLatestKeepsCoherent(SetSurfaceRotation(st, rotation), native.frame, native.drawOk, native.listenerAccepts);
    case FrameAvailable(texture) =>
      RenderLatestKeepsCoherent(st, native.frame, native.drawOk, native.listenerAccepts);
    case _ =>
  }

  lemma {:induction false} ApplyKeepsCoherent(st: State, e: Event)
    requires Coherent(st)
    ensures Coherent(Apply(st, e))
  {
    if e.RunTask? && st.crashed.None? && st.queue != [] {
      DispatchKeepsCoherent(st.(queue := st.queue[1..]), st.queue[0], e.native);
    }
  }

  /** From a fresh renderer, whatever happens, a clear dirty flag means current matrices. */
  lemma {:induction false} RunKeepsCoherent(st: State, events: seq<Event>)
    requires Coherent(st)
    ensures Coherent(Run(st, events))
    decreases |events|
  {
    if events != [] {
      ApplyKeepsCoherent(st, events[0]);
      RunKeepsCoherent(Apply(st, events[0]), events[1..]);
    }
  }

  /**
   * From a fresh renderer, every draw passes the matrices of the current texture
   * rotation, viewport rotation, texture size and crop, whether or not they were
   * recomputed for it.
   */
  lemma {:induction false} DrawsUseCurrentMatrices(events: seq<Event>, frame: Frame, drawOk: bool, listenerAccepts: bool)
    requires var st := Run(Initial(), events);
      st.crashed.None? && st.previewTexture.Some? && st.surfaceSize.Some?
    ensures var st := Run(Initial(), events);
      var r := RenderLatest(st, frame, drawOk, listenerAccepts);
      r.crashed.None? ==>
        r.previewSize.Some? && r.previewCropRect.Some? &&
        r.glCalls == st.glCalls + [RenderTextureCall(st.nativeContext, frame.timestampNs,
          Mvp(r.textureRotationDegrees, ViewPortRotation(r.textureRotationDegrees, r.surfaceRotationDegrees),
              r.previewSize.value, r.previewCropRect.value),
          DirtyAfterRead(st, r.textureRotationDegrees))]
  {
    var st := Run(Initial(), events);
    RunKeepsCoherent(Initial(), events);
    RenderLatestKeepsCoherent(st, frame, drawOk, listenerAccepts);
  }
}
