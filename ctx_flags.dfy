/**
 * The capability flags of the driver: get_flags derives the `GFX_CTX_FLAGS_*` bitset from
 * the session and the active video driver; set_flags accepts only the core-context request.
 *
 * A 32-bit set of distinct flag bits is a set of flags; the bit positions are declared in a
 * header that is not part of this model.
 */
module CtxFlags {
  import opened DrmTypes
  import opened DrmSession

  datatype CtxFlag =
    | GlCoreContext                // GFX_CTX_FLAGS_GL_CORE_CONTEXT
    | CustomizableSwapchainImages  // GFX_CTX_FLAGS_CUSTOMIZABLE_SWAPCHAIN_IMAGES
    | ShadersGlsl                  // GFX_CTX_FLAGS_SHADERS_GLSL
    | ShadersSlang                 // GFX_CTX_FLAGS_SHADERS_SLANG
    | OtherFlag(bit: nat)          // any other GFX_CTX_FLAGS_* bit

  /**
   * get_flags: `ident` is what `video_driver_get_ident` returns. The set is built one
   * `BIT32_SET` at a time; GLSL and slang are never both set.
   */
  method GetFlags(drm: Session, build: BuildConfig, ident: string) returns (flags: set<CtxFlag>)
    ensures CustomizableSwapchainImages in flags
    ensures GlCoreContext in flags <==> drm.coreHwContextEnable
    ensures ShadersGlsl in flags <==> ident != "glcore"
    ensures ShadersSlang in flags <==> ident == "glcore" && build.haveSlang && build.haveSpirvCross
    ensures flags <= {CustomizableSwapchainImages, GlCoreContext, ShadersGlsl, ShadersSlang}
    ensures !(ShadersGlsl in flags && ShadersSlang in flags)
  {
    flags := {};
    flags := flags + {CustomizableSwapchainImages};
    if drm.coreHwContextEnable {
      flags := flags + {GlCoreContext};
    }
    if ident == "glcore" {
      if build.haveSlang && build.haveSpirvCross {
        flags := flags + {ShadersSlang};
      }
    } else {
      flags := flags + {ShadersGlsl};
    }
  }

  /** set_flags: turns the core-context request on when its bit is given; never turns it off, changes nothing else. */
  method SetFlags(drm: Session, flags: set<CtxFlag>)
    requires drm.Valid()
    modifies drm`coreHwContextEnable
    ensures drm.Valid()
    ensures drm.coreHwContextEnable == (old(drm.coreHwContextEnable) || GlCoreContext in flags)
  {
    if GlCoreContext in flags {
      drm.coreHwContextEnable := true;
    }
  }

  /** Asking for a core context through set_flags makes get_flags report one. */
  method SetThenGetFlags(drm: Session, build: BuildConfig, ident: string, request: set<CtxFlag>)
    returns (flags: set<CtxFlag>)
    requires drm.Valid() && GlCoreContext in request
    modifies drm`coreHwContextEnable
    ensures drm.Valid() && drm.coreHwContextEnable
    ensures GlCoreContext in flags
  {
    SetFlags(drm, request);
    flags := GetFlags(drm, build, ident);
  }
}
