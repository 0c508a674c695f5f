/**
 * Shared vocabulary of the KMS/DRM display-context driver (gfx/drivers_context/drm_ctx.c):
 * C integer widths, opaque library handles, the rendering-API enumeration and the
 * compile-time switches the driver is built with.
 */
module DrmTypes {

  datatype Option<T> = None | Some(value: T)

  /** C `unsigned` (32 bits). */
  type u32 = x: int | 0 <= x < 0x1_0000_0000

  /** C `int` (32 bits). */
  type i32 = x: int | -0x8000_0000 <= x < 0x8000_0000

  /**
   * An opaque pointer handed out by a foreign library (a go2 display,
   * presenter, context or surface, an input driver's private data, a
   * procedure address). Only its identity and whether it is NULL matter.
   */
  datatype Handle = Null | Addr(id: nat)

  /** `enum gfx_ctx_api`: the APIs this driver dispatches on, and every other one. */
  datatype Api = NoApi | OpenGL | OpenGLES | OpenVG | OtherApi

  /** The three APIs served through EGL: the shared case group of every `switch (drm_api)`. */
  predicate IsGpuApi(api: Api)
  {
    api == OpenGL || api == OpenGLES || api == OpenVG
  }

  /**
   * The preprocessor switches the file is compiled under. Every operation whose behaviour
   * depends on a switch takes the configuration as a parameter, so each property is proved
   * for every build at once.
   */
  datatype BuildConfig = BuildConfig(
    haveEgl: bool,              // HAVE_EGL
    haveOpenGL: bool,           // HAVE_OPENGL
    haveOpenGLES: bool,         // HAVE_OPENGLES
    haveVg: bool,               // HAVE_VG
    eglKhrCreateContext: bool,  // EGL_KHR_create_context
    haveSlang: bool,            // HAVE_SLANG
    haveSpirvCross: bool,       // HAVE_SPIRV_CROSS
    haveX11: bool,              // HAVE_X11
    haveUdev: bool,             // HAVE_UDEV
    linuxNotAndroid: bool)      // defined(__linux__) && !defined(ANDROID)

  /** Whether a `switch (drm_api)` reaches its EGL-backed body: a GPU API in an EGL build. */
  predicate Presents(build: BuildConfig, api: Api)
  {
    build.haveEgl && IsGpuApi(api)
  }

  /** The fixed logical frame of the target display. */
  const FrameWidth: u32 := 480
  const FrameHeight: u32 := 320
}
