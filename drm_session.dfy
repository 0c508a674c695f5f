/**
 * The driver session `gfx_ctx_drm_data_t` and the entry points that create, change,
 * present with and tear down a session: init, destroy, set_video_mode, get_video_size,
 * swap_interval, check_window, has_focus, suppress_screensaver and swap_buffers.
 *
 * A NULL `void *data` is a `null` Session. Every go2 call a session makes is appended to
 * its ghost `trace`; results that come back from the library are parameters.
 */
module DrmSession {
  import opened DrmTypes
  import opened Go2Trace
  import opened ApiBinding

  class Session {
    var display: Handle
    var presenter: Handle
    var context: Handle
    var interval: i32
    var fbWidth: u32
    var fbHeight: u32
    var coreHwContextEnable: bool

    /** The go2 (and GL) calls made on behalf of this session, in order. */
    ghost var trace: seq<Event>

    /**
     * The session invariant: replaying the trace leaves owned exactly the session's
     * non-NULL handles, in creation order, and no surface locked; a context exists
     * only after a mode set, which fixed the frame at 480x320.
     */
    ghost predicate Valid()
      reads this
    {
      Replay(trace) == Some(Ledger(Owned(display, presenter, context), multiset{}))
      && (context != Null ==> fbWidth == FrameWidth && fbHeight == FrameHeight)
    }

    /** `calloc`: every handle NULL, every number 0, the flag false, no calls made. */
    constructor ()
      ensures Valid()
      ensures display == Null && presenter == Null && context == Null
      ensures interval == 0 && fbWidth == 0 && fbHeight == 0 && !coreHwContextEnable
      ensures trace == []
    {
      display, presenter, context := Null, Null, Null;
      interval, fbWidth, fbHeight := 0, 0, 0;
      coreHwContextEnable := false;
      trace := [];
      new;
      assert Owned(Null, Null, Null) == [];
    }
  }

  /**
   * init. `allocates` is whether `calloc` succeeds; `display` and `presenter` are what
   * `go2_display_create` and `go2_presenter_create` return (not checked by the driver).
   */
  method Init(allocates: bool, display: Handle, presenter: Handle) returns (drm: Session?)
    ensures !allocates <==> drm == null
    ensures drm != null ==> fresh(drm) && drm.Valid()
    ensures drm != null ==>
      drm.display == display && drm.presenter == presenter && drm.context == Null
      && drm.interval == 0 && drm.fbWidth == 0 && drm.fbHeight == 0 && !drm.coreHwContextEnable
      && drm.trace == [DisplayCreate(display), PresenterCreate(presenter, display, Rgb565, Background)]
  {
    if !allocates {
      return null;
    }
    drm := new Session();
    drm.display := display;
    drm.trace := drm.trace + [DisplayCreate(display)];
    drm.presenter := presenter;
    drm.trace := drm.trace + [PresenterCreate(presenter, display, Rgb565, Background)];
    assert drm.trace == [DisplayCreate(display), PresenterCreate(presenter, display, Rgb565, Background)];
    RunPair(Some(Empty), DisplayCreate(display), PresenterCreate(presenter, display, Rgb565, Background));
    assert Owned(display, presenter, Null) == [] + Own(DisplayKind, display) + Own(PresenterKind, presenter);
  }

  /**
   * destroy: no-op on NULL. Otherwise destroys the context if there is one, then the
   * presenter, then the display, and leaves every handle NULL: the session then owns nothing.
   */
  method Destroy(drm: Session?)
    requires drm != null ==> drm.Valid()
    modifies drm
    ensures drm != null ==> drm.Valid()
    ensures drm != null ==>
      drm.display == Null && drm.presenter == Null && drm.context == Null
      && drm.trace == old(drm.trace) + TeardownEvents(old(drm.display), old(drm.presenter), old(drm.context))
      && drm.interval == old(drm.interval) && drm.fbWidth == old(drm.fbWidth)
      && drm.fbHeight == old(drm.fbHeight) && drm.coreHwContextEnable == old(drm.coreHwContextEnable)
    ensures drm != null ==> Replay(drm.trace) == Some(Empty)
  {
    if drm == null {
      return;
    }
    ghost var t0, d, p, c := drm.trace, drm.display, drm.presenter, drm.context;
    if drm.context != Null {
      drm.trace := drm.trace + [ContextDestroy(drm.context)];
      drm.context := Null;
    }
    drm.trace := drm.trace + [PresenterDestroy(drm.presenter)];
    drm.presenter := Null;
    drm.trace := drm.trace + [DisplayDestroy(drm.display)];
    drm.display := Null;
    assert drm.trace == t0 + TeardownEvents(d, p, c);
    ReplayAppend(t0, TeardownEvents(d, p, c));
    TeardownReleasesAll([], d, p, c);
    assert [] + Owned(d, p, c) == Owned(d, p, c);
    assert Owned(Null, Null, Null) == [];
  }

  /**
   * set_video_mode: false on NULL. Otherwise fixes the frame at 480x320 whatever size
   * was asked for, creates a context only when there is none (`created` is what
   * `go2_context_create` returns), makes the context current and clears it.
   */
  method SetVideoMode(drm: Session?, width: u32, height: u32, fullscreen: bool, created: Handle)
    returns (ok: bool)
    requires drm != null ==> drm.Valid()
    modifies drm
    ensures ok <==> drm != null
    ensures drm != null ==> drm.Valid()
    ensures drm != null ==> drm.fbWidth == FrameWidth && drm.fbHeight == FrameHeight
    ensures drm != null ==>
      drm.display == old(drm.display) && drm.presenter == old(drm.presenter)
      && drm.interval == old(drm.interval) && drm.coreHwContextEnable == old(drm.coreHwContextEnable)
    ensures drm != null && old(drm.context) == Null ==>
      drm.context == created
      && drm.trace == old(drm.trace)
           + [ContextCreate(created, drm.display, FrameWidth, FrameHeight, ContextProfile),
              MakeCurrent(created), ClearColorBuffer]
    ensures drm != null && old(drm.context) != Null ==>
      drm.context == old(drm.context)
      && drm.trace == old(drm.trace) + [MakeCurrent(drm.context), ClearColorBuffer]
  {
    if drm == null {
      return false;
    }
    ghost var t0 := drm.trace;
    drm.fbWidth := FrameWidth;
    drm.fbHeight := FrameHeight;
    if drm.context == Null {
      drm.context := created;
      drm.trace := drm.trace + [ContextCreate(created, drm.display, FrameWidth, FrameHeight, ContextProfile)];
      ReplayAppend(t0, [ContextCreate(created, drm.display, FrameWidth, FrameHeight, ContextProfile)]);
      assert [ContextCreate(created, drm.display, FrameWidth, FrameHeight, ContextProfile)][1..] == [];
      assert Owned(drm.display, drm.presenter, Null) + Own(ContextKind, created)
          == Owned(drm.display, drm.presenter, created);
    }
    ghost var t1 := drm.trace;
    drm.trace := drm.trace + [MakeCurrent(drm.context)];
    drm.trace := drm.trace + [ClearColorBuffer];
    assert drm.trace == t1 + [MakeCurrent(drm.context), ClearColorBuffer];
    ReplayAppend(t1, [MakeCurrent(drm.context), ClearColorBuffer]);
    RunPair(Replay(t1), MakeCurrent(drm.context), ClearColorBuffer);
    ok := true;
  }

  /**
   * get_video_size: `width` and `height` are what the out-pointers held before the call;
   * on NULL they are left as they were.
   */
  method GetVideoSize(drm: Session?, width: u32, height: u32) returns (w: u32, h: u32)
    ensures drm == null ==> w == width && h == height
    ensures drm != null ==> w == drm.fbWidth && h == drm.fbHeight
    ensures drm != null && drm.Valid() && drm.context != Null ==> w == FrameWidth && h == FrameHeight
  {
    if drm == null {
      return width, height;
    }
    w := drm.fbWidth;
    h := drm.fbHeight;
  }

  /**
   * swap_interval: stores the requested interval unchanged; `warned` is whether the
   * "swap intervals > 1 not supported" warning is logged.
   */
  method SwapInterval(drm: Session, interval: i32) returns (warned: bool)
    requires drm.Valid()
    modifies drm`interval
    ensures drm.Valid()
    ensures drm.interval == interval
    ensures warned <==> interval > 1
  {
    drm.interval := interval;
    warned := interval > 1;
  }

  /**
   * check_window: never a resize; a quit exactly when the signal handler's state
   * (`signalState`) is non-zero. The width and height out-pointers are not written.
   */
  method CheckWindow(drm: Session?, signalState: int, isShutdown: bool) returns (quit: bool, resize: bool)
    ensures !resize
    ensures quit <==> signalState != 0
  {
    resize := false;
    quit := signalState != 0;
  }

  /** has_focus: with no window system, the output always has focus. */
  function HasFocus(drm: Session?): (focused: bool)
    ensures focused
  {
    true
  }

  /** suppress_screensaver: unsupported, whatever is asked. */
  function SuppressScreensaver(drm: Session?, enable: bool): (supported: bool)
    ensures !supported
  {
    false
  }

  /**
   * swap_buffers: for the three GPU APIs in an EGL build, swaps, locks the surface the
   * context hands back (`lockedSurface`), posts it with the fixed geometry and unlocks
   * it; every other API makes no library call. Nothing the session owns changes.
   */
  method SwapBuffers(g: GlobalApi, drm: Session?, build: BuildConfig, lockedSurface: Handle)
    requires Presents(build, g.drmApi) ==> drm != null
    requires drm != null ==> drm.Valid()
    modifies drm
    ensures drm != null ==> drm.Valid()
    ensures drm != null ==>
      drm.display == old(drm.display) && drm.presenter == old(drm.presenter)
      && drm.context == old(drm.context) && drm.interval == old(drm.interval)
      && drm.fbWidth == old(drm.fbWidth) && drm.fbHeight == old(drm.fbHeight)
      && drm.coreHwContextEnable == old(drm.coreHwContextEnable)
    ensures drm != null && Presents(build, g.drmApi) ==>
      drm.trace == old(drm.trace) + FrameEvents(drm.context, drm.presenter, lockedSurface)
    ensures drm != null && !Presents(build, g.drmApi) ==> drm.trace == old(drm.trace)
  {
    match g.drmApi
    case OpenGL | OpenGLES | OpenVG =>
      if build.haveEgl {
        ghost var t0 := drm.trace;
        drm.trace := drm.trace + [ContextSwap(drm.context)];
        var surface := lockedSurface;
        drm.trace := drm.trace + [SurfaceLock(drm.context, surface)];
        drm.trace := drm.trace + [PresenterPost(drm.presenter, surface, PostSource, PostDest, PostRotation)];
        drm.trace := drm.trace + [SurfaceUnlock(drm.context, surface)];
        assert drm.trace == t0 + FrameEvents(drm.context, drm.presenter, surface);
        ReplayAppend(t0, FrameEvents(drm.context, drm.presenter, surface));
        FrameKeepsLedger(Ledger(Owned(drm.display, drm.presenter, drm.context), multiset{}),
                         drm.context, drm.presenter, surface);
      }
    case NoApi | OtherApi =>
  }
}
