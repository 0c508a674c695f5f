# KMS/DRM display context, modelled in Dafny

This project models the display-context driver of `gfx/drivers_context/drm_ctx.c`
(the "kms" context of retroarch-go2). The driver runs without a window system. It owns a
go2 display, a presenter and a GPU rendering context, and it presents every frame
through a fixed 480x320 surface that is rotated by 270 degrees onto the panel.

What the model keeps:

- **Session** (`DrmSession.Session`). This class stands for `gfx_ctx_drm_data_t`: the
  `display`, `presenter` and `context` handles, `interval`, `fbWidth`, `fbHeight` and
  `coreHwContextEnable`. A NULL `data` pointer is a `null` session. Each go2 call the
  session makes (and the one `glClear`) is appended to a ghost `trace`.
- **Trace meaning** (`Go2Trace`). Replaying a trace gives a ledger. The ledger holds a
  stack of owned resources, where a create pushes and a destroy must pop the newest
  one. It also holds a multiset of locked surfaces. A trace that destroys out of
  order, destroys while a surface is locked, or unlocks what it never locked replays to
  `None`. The session invariant `Valid()` says that replaying the trace leaves owned
  exactly the session's non-NULL handles, in creation order, with no surface locked.
  Every entry point keeps this invariant.
- **Process-wide API state** (`ApiBinding.GlobalApi`). This holds `drm_api` and EGL's
  `g_egl_major`/`g_egl_minor`. It is separate from any session, so it outlives
  sessions and is shared between them.
- **Compile-time switches** (`HAVE_EGL`, `HAVE_OPENGL`, `HAVE_OPENGLES`, `HAVE_VG`,
  `EGL_KHR_create_context`, `HAVE_SLANG`, `HAVE_SPIRV_CROSS`, `HAVE_X11`, `HAVE_UDEV`,
  `__linux__ && !ANDROID`). These are fields of a `BuildConfig` value. Every operation
  whose behaviour depends on a switch takes that value as a parameter, so each property
  is proved for every build configuration.
- **Inputs instead of foreign calls.** Several values are parameters of the model:
  - what the foreign libraries return: the go2 handles, the locked surface,
    `egl_bind_api`, `egl_get_proc_address` and the input initializers;
  - the configuration strings: the input driver name and `video_driver_get_ident`;
  - the signal-handler state;
  - whether `calloc` succeeds.

## Model

| member | source | states |
|---|---|---|
| `DrmSession.Session.constructor` | gfx/drivers_context/drm_ctx.c:152-153 | `calloc`'s zeroed session: NULL handles, zero sizes and interval, flag false, no calls made; the invariant holds |
| `DrmSession.Init` | gfx/drivers_context/drm_ctx.c:150-162 | null exactly when allocation fails; otherwise a fresh valid session owning the returned display and presenter, no context, calls exactly display-create then presenter-create (RGB565, 0xff080808) on that display |
| `DrmSession.Destroy` | gfx/drivers_context/drm_ctx.c:164-180 | no-op on null; otherwise destroys the context only if present, then presenter, then display; all handles NULL afterwards, other fields unchanged, and the trace replays to nothing owned and nothing locked |
| `DrmSession.SetVideoMode` | gfx/drivers_context/drm_ctx.c:243-278 | false and no effect on null; otherwise true, frame fixed at 480x320 whatever was requested; creates a context (GL 3.2, RGBA8, no depth/stencil, 480x320) only when none exists, a second call keeps it; then make-current and clear |
| `DrmSession.GetVideoSize` | gfx/drivers_context/drm_ctx.c:280-290 | null leaves the outputs as they were; otherwise reports the stored size, which is 480x320 in any valid session that has a context |
| `DrmSession.SwapInterval` | gfx/drivers_context/drm_ctx.c:234-241 | stores the requested interval unchanged, values above 1 included; the warning is issued exactly when it exceeds 1 |
| `DrmSession.CheckWindow` | gfx/drivers_context/drm_ctx.c:292-301 | never reports a resize; reports quit exactly when the signal-handler state is non-zero |
| `DrmSession.HasFocus` | gfx/drivers_context/drm_ctx.c:303-306 | always focused |
| `DrmSession.SuppressScreensaver` | gfx/drivers_context/drm_ctx.c:308-313 | never supported, whatever is requested |
| `DrmSession.SwapBuffers` | gfx/drivers_context/drm_ctx.c:315-342 | for OpenGL, OpenGL ES or OpenVG in an EGL build appends exactly swap, lock, post, unlock of the same surface; otherwise no call; no field changes and the invariant (nothing left locked) is kept |
| `Go2Trace.FrameKeepsLedger` | gfx/drivers_context/drm_ctx.c:327-335 | one presentation restores the ledger it started from: its lock is matched by an unlock and nothing is released |
| `Go2Trace.FramesKeepLedger` | gfx/drivers_context/drm_ctx.c:315-342 | any number of presentations leave ownership and locks unchanged |
| `Go2Trace.FrameShape` | gfx/drivers_context/drm_ctx.c:327-335 | exactly one lock (second call) and one unlock (last call), same context and surface; the post goes between them, to the session's presenter, with source the whole 480x320 frame, destination transposed to 320x480 and rotation 270 |
| `Go2Trace.TeardownReleasesAll` | gfx/drivers_context/drm_ctx.c:169-179 | the teardown calls release everything a session owns, whatever sits below it, because they run in strict reverse creation order |
| `Go2Trace.PresenterBeforeContextRejected` | gfx/drivers_context/drm_ctx.c:169-176 | destroying the presenter before an existing context breaks the ownership order |
| `Go2Trace.DestroyWhileLockedRejected` | gfx/drivers_context/drm_ctx.c:329-335 | destroying a context while one of its surfaces is locked is rejected |
| `ApiBinding.GlobalApi.constructor` | gfx/drivers_context/drm_ctx.c:72 | `drm_api` starts as GFX_CTX_NONE |
| `ApiBinding.GlobalApi.BindApi` | gfx/drivers_context/drm_ctx.c:187-232 | records the API (as get_api then reports) even when it fails; records the version in EGL builds only; answers as `BindAccepted`, with the OpenGL gate in 32-bit unsigned arithmetic as written |
| `ApiBinding.GlobalApi.GetApi` | gfx/drivers_context/drm_ctx.c:182-185 | reports `drm_api` as bind_api last recorded it (GFX_CTX_NONE before any bind) |
| `ApiBinding.BindAccepted` | gfx/drivers_context/drm_ctx.c:198-231 | acceptance needs EGL, a GPU API, that API's support compiled in, and EGL's agreement for the matching enumerant; NoApi and other APIs are refused; the OpenGL version gate is the as-written 32-bit one |
| `ApiBinding.GlVersionTooNew` | gfx/drivers_context/drm_ctx.c:203-206 | for minor below 1000 the gate refuses exactly versions from 3.1 on; every major of 4 or more is refused |
| `ApiBinding.GlVersionTooNewAsWritten` | gfx/drivers_context/drm_ctx.c:204 | the 32-bit unsigned gate agrees with the unbounded one while `major*1000+minor` fits in 32 bits |
| `ApiBinding.GlGateWrapsAround` | gfx/drivers_context/drm_ctx.c:204 | OpenGL 4294968.0 wraps to code 704 and passes the as-written gate although it exceeds 3.1 |
| `ApiBinding.OpenGLGate` | gfx/drivers_context/drm_ctx.c:200-210 | for a version whose code `major*1000+minor` fits in 32 bits: without EGL_KHR_create_context OpenGL is accepted exactly when the code is below 3001 and EGL accepts (for minor below 1000: versions up to 3.0); with it EGL alone decides |
| `ApiBinding.WrappedOpenGLReachesEgl` | gfx/drivers_context/drm_ctx.c:200-207 | without EGL_KHR_create_context, a request for OpenGL 4294968.0 still reaches `egl_bind_api`, whose answer bind_api returns |
| `ApiBinding.OpenGLESGate` | gfx/drivers_context/drm_ctx.c:211-221 | without EGL_KHR_create_context OpenGL ES is accepted exactly for major below 3 when EGL agrees; with it EGL alone decides |
| `ApiBinding.OpenVGUngated` | gfx/drivers_context/drm_ctx.c:222-225 | OpenVG has no version gate: EGL alone decides |
| `ApiBinding.OpenGLES30Example` | gfx/drivers_context/drm_ctx.c:211-218 | OpenGL ES 3.0 is refused without the extension and accepted with it when EGL agrees |
| `ApiBinding.GlobalApi.GetProcAddress` | gfx/drivers_context/drm_ctx.c:132-148 | the EGL lookup's answer for the three GPU APIs in an EGL build, NULL otherwise |
| `ApiBinding.GlobalApi.BindHwRender` | gfx/drivers_context/drm_ctx.c:373-390 | forwards `enable` to `egl_bind_hw_render` exactly for the three GPU APIs in an EGL build |
| `CtxFlags.GetFlags` | gfx/drivers_context/drm_ctx.c:344-364 | always customizable swapchain images; core context iff requested; GLSL iff the ident is not "glcore"; slang iff "glcore" with slang and SPIRV-Cross built in; nothing else, and never GLSL with slang |
| `CtxFlags.SetFlags` | gfx/drivers_context/drm_ctx.c:366-371 | turns the core-context request on exactly when its bit is given, never off; nothing else changes |
| `CtxFlags.SetThenGetFlags` | gfx/drivers_context/drm_ctx.c:344-371 | after set_flags with the core-context bit, get_flags reports a core context |
| `InputFallback.FallbackChain` | gfx/drivers_context/drm_ctx.c:95-125 | no fallback unless X11 is built in and the configured driver is "x"; then exactly udev (if built in) followed by linuxraw (on Linux, not Android): at most two entries, udev always first |
| `InputFallback.FirstSuccessIsFirst` | gfx/drivers_context/drm_ctx.c:101-124 | the chosen backend is the earliest whose initializer succeeds; none exactly when all fail |
| `InputFallback.InputDriver` | gfx/drivers_context/drm_ctx.c:91-130 | the first successful fallback and its data, or NULL and NULL; initializers are called in chain order and stop at the first success |
| `SessionScenario.GlesSession` | gfx/drivers_context/drm_ctx.c:150-342 | init, bind OpenGL ES 2.0, an 800x600 mode set, three presentations and destroy: bind and mode set succeed, the size is 480x320, the exact call sequence, and nothing left owned or locked |

## Findings

| source | as written | input that shows it | evidently intended | confidence | as-written member | corrected member |
|---|---|---|---|---|---|---|
| gfx/drivers_context/drm_ctx.c:204 | `major * 1000 + minor` is computed in `unsigned` arithmetic and wraps modulo 2^32 | `bind_api(GFX_CTX_OPENGL_API, 4294968, 0)` without EGL_KHR_create_context: the code wraps to 704 < 3001, so the request passes the gate | refuse every OpenGL version from 3.1 on | low (not executed; callers pass small versions) | `ApiBinding.GlGateWrapsAround` | `ApiBinding.GlVersionTooNew` |

`BindAccepted` and `BindApi` model bind_api as written, through `GlVersionTooNewAsWritten`;
`WrappedOpenGLReachesEgl` shows the wrapped request reaching EGL. `GlVersionTooNew` is
the corrected gate, and `GlVersionTooNewAsWritten` is proved to agree with it whenever the
code fits in 32 bits, which is what `OpenGLGate` relies on.

## Left out

- The go2, EGL and GL libraries themselves (`go2_*`, `egl_bind_api`, `egl_get_proc_address`, `egl_bind_hw_render`, `glClear`): foreign code. Their calls are trace events and their results are parameters.
- Failure of display, presenter or context creation: the driver never checks these results. A NULL result is carried through like any other handle, and a NULL handle owns nothing in the ledger.
- What go2 does when it is handed a NULL handle, for example in a second destroy or a presentation before any mode set. The model records such calls with the NULL handle and gives them no meaning.
- Installing the signal handler in set_video_mode and reading its state: process plumbing. The state is a parameter of CheckWindow.
- `config_get_ptr` and `video_driver_get_ident`: configuration lookups. Their strings are parameters. A NULL ident, which `string_is_equal` treats as unequal, is not modelled.
- `RARCH_WARN` and `printf` logging. The swap-interval warning is modelled only as SwapInterval's `warned` result.
- SwapInterval: the warning text promises an effective interval of 1. Nothing in this file clamps the interval, so the model only stores it.
- `drm_get_refresh_rate`: defined elsewhere, so it is not part of this model.
- The `gfx_ctx_drm` vtable: wiring only.
- Memory allocation and `free`. Init's `calloc` is modelled by its success flag and the zeroed constructor.
- The `egl` member of the session (`egl_ctx_data_t`), used only by `egl_bind_hw_render`: foreign state.
- The numeric values of `GFX_CTX_FLAGS_*` and `DRM_FORMAT_RGB565`: they live in headers that are not part of this model. Flags are modelled as a set, and the pixel format as a tag.
- SwapInterval, CtxFlags.GetFlags, CtxFlags.SetFlags and SwapBuffers (for a GPU API in an EGL build) require a non-null session: the driver dereferences `data` there without a check, so a NULL session is undefined behaviour rather than a modelled path.
- Callers' thread affinity: the driver is single-threaded and the model has no concurrency.
