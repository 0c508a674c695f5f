/**
 * The process-wide API state of the driver (`drm_api`, and EGL's `g_egl_major` and
 * `g_egl_minor`) and the operations that write or dispatch on it: bind_api, get_api,
 * get_proc_address and bind_hw_render.
 */
module ApiBinding {
  import opened DrmTypes

  /** The EGL API enumerants `egl_bind_api` is called with. */
  datatype EglApi = EglOpenGLApi | EglOpenGLESApi | EglOpenVGApi

  /**
   * The OpenGL version gate used when EGL_KHR_create_context is missing: a version code
   * `major*1000 + minor` of 3001 or more (version 3.1 and later) is refused, with the code
   * compared as an unbounded integer. This is the intended gate; the driver computes it in
   * 32 bits (GlVersionTooNewAsWritten).
   */
  function GlVersionTooNew(major: u32, minor: u32): (r: bool)
    ensures minor < 1000 ==> (r <==> major > 3 || (major == 3 && minor >= 1))
    ensures major >= 4 ==> r
  {
    major * 1000 + minor >= 3001
  }

  /** The gate as the driver computes it, in C `unsigned` arithmetic, which wraps modulo 2^32. */
  function GlVersionTooNewAsWritten(major: u32, minor: u32): (r: bool)
    ensures major * 1000 + minor < 0x1_0000_0000 ==> (r <==> GlVersionTooNew(major, minor))
  {
    (major * 1000 + minor) % 0x1_0000_0000 >= 3001
  }

  /** The wrap-around lets OpenGL 4294968.0 through: its code wraps to 704. */
  lemma GlGateWrapsAround()
    ensures (4294968 * 1000 + 0) % 0x1_0000_0000 == 704
    ensures GlVersionTooNew(4294968, 0) && !GlVersionTooNewAsWritten(4294968, 0)
  {
  }

  /**
   * The answer of bind_api. `eglBindApi` is what the EGL library answers for each
   * enumerant; it is consulted only when the API's support is compiled in and its
   * version passes the gate.
   */
  function BindAccepted(build: BuildConfig, api: Api, major: u32, minor: u32,
                        eglBindApi: EglApi -> bool): (ok: bool)
    ensures ok ==> build.haveEgl && IsGpuApi(api)
    ensures ok && api == OpenGL ==> build.haveOpenGL && eglBindApi(EglOpenGLApi)
    ensures ok && api == OpenGLES ==> build.haveOpenGLES && eglBindApi(EglOpenGLESApi)
    ensures ok && api == OpenVG ==> build.haveVg && eglBindApi(EglOpenVGApi)
  {
    match api
    case OpenGL =>
      build.haveEgl && build.haveOpenGL
      && (build.eglKhrCreateContext || !GlVersionTooNewAsWritten(major, minor))
      && eglBindApi(EglOpenGLApi)
    case OpenGLES =>
      build.haveEgl && build.haveOpenGLES
      && (build.eglKhrCreateContext || major < 3)
      && eglBindApi(EglOpenGLESApi)
    case OpenVG =>
      build.haveEgl && build.haveVg && eglBindApi(EglOpenVGApi)
    case _ => false
  }

  /**
   * Without EGL_KHR_create_context, OpenGL is refused exactly when its version code is 3001
   * or more, as long as the code fits in 32 bits; for a minor below 1000 that is version
   * 3.1 and later. With the extension, EGL decides.
   */
  lemma OpenGLGate(build: BuildConfig, major: u32, minor: u32, eglBindApi: EglApi -> bool)
    requires build.haveEgl && build.haveOpenGL
    requires major * 1000 + minor < 0x1_0000_0000
    ensures !build.eglKhrCreateContext ==>
      (BindAccepted(build, OpenGL, major, minor, eglBindApi)
       <==> major * 1000 + minor < 3001 && eglBindApi(EglOpenGLApi))
    ensures !build.eglKhrCreateContext && minor < 1000 ==>
      (BindAccepted(build, OpenGL, major, minor, eglBindApi)
       <==> (major < 3 || (major == 3 && minor == 0)) && eglBindApi(EglOpenGLApi))
    ensures build.eglKhrCreateContext ==>
      (BindAccepted(build, OpenGL, major, minor, eglBindApi) <==> eglBindApi(EglOpenGLApi))
  {
  }

  /** Without EGL_KHR_create_context, OpenGL ES is refused exactly from major version 3 on; otherwise EGL decides. */
  lemma OpenGLESGate(build: BuildConfig, major: u32, minor: u32, eglBindApi: EglApi -> bool)
    requires build.haveEgl && build.haveOpenGLES
    ensures !build.eglKhrCreateContext ==>
      (BindAccepted(build, OpenGLES, major, minor, eglBindApi) <==> major < 3 && eglBindApi(EglOpenGLESApi))
    ensures build.eglKhrCreateContext ==>
      (BindAccepted(build, OpenGLES, major, minor, eglBindApi) <==> eglBindApi(EglOpenGLESApi))
  {
  }

  /** OpenVG has no version gate: with its support compiled in, EGL alone decides, for every version. */
  lemma OpenVGUngated(build: BuildConfig, major: u32, minor: u32, eglBindApi: EglApi -> bool)
    requires build.haveEgl && build.haveVg
    ensures BindAccepted(build, OpenVG, major, minor, eglBindApi) == eglBindApi(EglOpenVGApi)
  {
  }

  /** The wrapped version code of OpenGL 4294968.0 reaches EGL even without EGL_KHR_create_context. */
  lemma WrappedOpenGLReachesEgl(build: BuildConfig, eglBindApi: EglApi -> bool)
    requires build.haveEgl && build.haveOpenGL && !build.eglKhrCreateContext
    ensures BindAccepted(build, OpenGL, 4294968, 0, eglBindApi) == eglBindApi(EglOpenGLApi)
  {
    GlGateWrapsAround();
  }

  /** OpenGL ES 3.0 is refused without EGL_KHR_create_context and accepted with it when EGL agrees. */
  lemma OpenGLES30Example(build: BuildConfig, eglBindApi: EglApi -> bool)
    requires build.haveEgl && build.haveOpenGLES && eglBindApi(EglOpenGLESApi)
    ensures BindAccepted(build, OpenGLES, 3, 0, eglBindApi) == build.eglKhrCreateContext
  {
  }

  /** Process-wide state: `drm_api` (initially GFX_CTX_NONE) and EGL's requested version. */
  class GlobalApi {
    var drmApi: Api
    var eglMajor: u32
    var eglMinor: u32

    /** Program start: static storage, `drm_api = GFX_CTX_NONE`. */
    constructor ()
      ensures drmApi == NoApi && eglMajor == 0 && eglMinor == 0
    {
      drmApi := NoApi;
      eglMajor := 0;
      eglMinor := 0;
    }

    /** get_api: the API the last bind_api recorded, GFX_CTX_NONE before any. */
    function GetApi(): (api: Api)
      reads this
      ensures api == drmApi
    {
      drmApi
    }

    /**
     * bind_api: records `api` whatever the answer, records the version in EGL builds,
     * and answers as BindAccepted says.
     */
    method BindApi(build: BuildConfig, api: Api, major: u32, minor: u32,
                   eglBindApi: EglApi -> bool) returns (ok: bool)
      modifies this
      ensures GetApi() == api
      ensures build.haveEgl ==> eglMajor == major && eglMinor == minor
      ensures !build.haveEgl ==> eglMajor == old(eglMajor) && eglMinor == old(eglMinor)
      ensures ok == BindAccepted(build, api, major, minor, eglBindApi)
    {
      drmApi := api;
      if build.haveEgl {
        eglMajor := major;
        eglMinor := minor;
      }
      ok := false;
      match api
      case OpenGL =>
        if build.haveEgl && build.haveOpenGL {
          if !build.eglKhrCreateContext && GlVersionTooNewAsWritten(major, minor) {
            return false;
          }
          ok := eglBindApi(EglOpenGLApi);
        }
      case OpenGLES =>
        if build.haveEgl && build.haveOpenGLES {
          if !build.eglKhrCreateContext && major >= 3 {
            return false;
          }
          ok := eglBindApi(EglOpenGLESApi);
        }
      case OpenVG =>
        if build.haveEgl && build.haveVg {
          ok := eglBindApi(EglOpenVGApi);
        }
      case NoApi | OtherApi =>
    }

    /**
     * get_proc_address: the EGL lookup `eglGetProcAddress` answers for the three GPU
     * APIs in an EGL build; every other case is NULL.
     */
    function GetProcAddress(build: BuildConfig, symbol: string,
                            eglGetProcAddress: string -> Handle): (r: Handle)
      reads this
      ensures Presents(build, drmApi) ==> r == eglGetProcAddress(symbol)
      ensures !Presents(build, drmApi) ==> r == Null
    {
      match drmApi
      case OpenGL | OpenGLES | OpenVG =>
        if build.haveEgl then eglGetProcAddress(symbol) else Null
      case _ => Null
    }

    /**
     * bind_hw_render: `Some(enable)` when the call is forwarded to `egl_bind_hw_render`
     * with that flag, None when the driver does nothing.
     */
    function BindHwRender(build: BuildConfig, enable: bool): (call: Option<bool>)
      reads this
      ensures call.Some? <==> Presents(build, drmApi)
      ensures call.Some? ==> call.value == enable
    {
      match drmApi
      case OpenGL | OpenGLES | OpenVG =>
        if build.haveEgl then Some(enable) else None
      case _ => None
    }
  }
}
