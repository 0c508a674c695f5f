/**
 * A whole session as the host drives it: init, bind OpenGL ES 2.0, set a 800x600 mode,
 * present three frames, destroy. Everything below follows from the entry points'
 * contracts alone.
 */
module SessionScenario {
  import opened DrmTypes
  import opened Go2Trace
  import opened ApiBinding
  import opened DrmSession

  method GlesSession(build: BuildConfig, g: GlobalApi, eglBindApi: EglApi -> bool,
                     display: Handle, presenter: Handle, context: Handle,
                     s0: Handle, s1: Handle, s2: Handle)
    returns (drm: Session?, bound: bool, modeSet: bool, w: u32, h: u32)
    requires build.haveEgl && build.haveOpenGLES && eglBindApi(EglOpenGLESApi)
    modifies g
    ensures drm != null && fresh(drm) && g.GetApi() == OpenGLES
    ensures bound && modeSet && w == FrameWidth && h == FrameHeight
    ensures drm.trace
         == [DisplayCreate(display), PresenterCreate(presenter, display, Rgb565, Background),
             ContextCreate(context, display, FrameWidth, FrameHeight, ContextProfile),
             MakeCurrent(context), ClearColorBuffer]
            + Frames(context, presenter, [s0, s1, s2])
            + TeardownEvents(display, presenter, context)
    ensures Replay(drm.trace) == Some(Empty)
  {
    drm := Init(true, display, presenter);
    bound := g.BindApi(build, OpenGLES, 2, 0, eglBindApi);
    modeSet := SetVideoMode(drm, 800, 600, false, context);
    ghost var ready := drm.trace;
    w, h := GetVideoSize(drm, 0, 0);
    SwapBuffers(g, drm, build, s0);
    SwapBuffers(g, drm, build, s1);
    SwapBuffers(g, drm, build, s2);
    ghost var shown := drm.trace;
    ThreeFrames(context, presenter, s0, s1, s2);
    assert shown == ready + Frames(context, presenter, [s0, s1, s2]);
    Destroy(drm);
  }

  lemma ThreeFrames(context: Handle, presenter: Handle, s0: Handle, s1: Handle, s2: Handle)
    ensures Frames(context, presenter, [s0, s1, s2])
         == FrameEvents(context, presenter, s0) + FrameEvents(context, presenter, s1)
            + FrameEvents(context, presenter, s2)
  {
    assert [s0, s1, s2][1..] == [s1, s2] && [s1, s2][1..] == [s2] && [s2][1..] == [];
    assert Frames(context, presenter, [s2]) == FrameEvents(context, presenter, s2) + [];
  }
}
