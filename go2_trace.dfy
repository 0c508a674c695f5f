/**
 * The calls the driver makes into the go2 display library (and the one GL call), as
 * events of a trace, and the meaning of a trace: which resources it leaves owned and
 * which surfaces it leaves locked.
 *
 * Resource ownership is a stack: a successful create pushes, a destroy must release the
 * most recently created resource that is still owned, and nothing may be destroyed while
 * a surface is locked. A trace that breaks either rule replays to None.
 */
module Go2Trace {
  import opened DrmTypes

  datatype Rect = Rect(x: int, y: int, width: int, height: int)

  /** `GO2_ROTATION_DEGREES_*`. */
  datatype Rotation = Degrees0 | Degrees90 | Degrees180 | Degrees270

  /** The presenter's pixel format (`DRM_FORMAT_RGB565`). */
  datatype PixelFormat = Rgb565

  /** `go2_context_attributes_t`. */
  datatype ContextAttributes = ContextAttributes(
    major: nat, minor: nat,
    redBits: nat, greenBits: nat, blueBits: nat, alphaBits: nat,
    depthBits: nat, stencilBits: nat)

  /** The presenter's clear colour, 0xff080808. */
  const Background: nat := 0xff08_0808

  /** The profile every rendering context is created with: GL 3.2, RGBA8888, no depth or stencil. */
  const ContextProfile := ContextAttributes(3, 2, 8, 8, 8, 8, 0, 0)

  /** Geometry of every post: the whole 480x320 frame, shown on a 320x480 panel turned by 270 degrees. */
  const PostSource := Rect(0, 0, 480, 320)
  const PostDest := Rect(0, 0, 320, 480)
  const PostRotation := Degrees270

  datatype Event =
    | DisplayCreate(display: Handle)
    | PresenterCreate(presenter: Handle, onDisplay: Handle, format: PixelFormat, background: nat)
    | ContextCreate(context: Handle, onDisplay: Handle, width: nat, height: nat, attr: ContextAttributes)
    | MakeCurrent(context: Handle)
    | ClearColorBuffer
    | ContextSwap(context: Handle)
    | SurfaceLock(context: Handle, surface: Handle)
    | PresenterPost(presenter: Handle, surface: Handle, src: Rect, dst: Rect, rotation: Rotation)
    | SurfaceUnlock(context: Handle, surface: Handle)
    | ContextDestroy(context: Handle)
    | PresenterDestroy(presenter: Handle)
    | DisplayDestroy(display: Handle)

  datatype Kind = DisplayKind | PresenterKind | ContextKind
  datatype Resource = Resource(kind: Kind, handle: Handle)

  /** What a trace leaves behind: the owned resources, oldest first, and the locked (context, surface) pairs. */
  datatype Ledger = Ledger(owned: seq<Resource>, locked: multiset<(Handle, Handle)>)

  const Empty := Ledger([], multiset{})

  /** The resource a non-NULL handle stands for; a NULL handle owns nothing. */
  function Own(kind: Kind, h: Handle): seq<Resource>
  {
    if h == Null then [] else [Resource(kind, h)]
  }

  /** What one session owns, in creation order: display, presenter, then context. */
  function Owned(display: Handle, presenter: Handle, context: Handle): seq<Resource>
  {
    Own(DisplayKind, display) + Own(PresenterKind, presenter) + Own(ContextKind, context)
  }

  function Acquire(l: Ledger, kind: Kind, h: Handle): Ledger
  {
    l.(owned := l.owned + Own(kind, h))
  }

  /** Destroying NULL releases nothing; otherwise the handle must be the newest owned resource and no surface may be locked. */
  function Release(l: Ledger, kind: Kind, h: Handle): Option<Ledger>
  {
    if h == Null then Some(l)
    else if l.locked == multiset{} && |l.owned| > 0 && l.owned[|l.owned| - 1] == Resource(kind, h)
    then Some(l.(owned := l.owned[..|l.owned| - 1]))
    else None
  }

  function Apply(l: Ledger, e: Event): Option<Ledger>
  {
    match e
    case DisplayCreate(d) => Some(Acquire(l, DisplayKind, d))
    case PresenterCreate(p, _, _, _) => Some(Acquire(l, PresenterKind, p))
    case ContextCreate(c, _, _, _, _) => Some(Acquire(l, ContextKind, c))
    case SurfaceLock(c, s) => Some(l.(locked := l.locked + multiset{(c, s)}))
    case SurfaceUnlock(c, s) =>
      if (c, s) in l.locked then Some(l.(locked := l.locked - multiset{(c, s)})) else None
    case ContextDestroy(c) => Release(l, ContextKind, c)
    case PresenterDestroy(p) => Release(l, PresenterKind, p)
    case DisplayDestroy(d) => Release(l, DisplayKind, d)
    case _ => Some(l)
  }

  function Step(r: Option<Ledger>, e: Event): Option<Ledger>
  {
    match r
    case None => None
    case Some(l) => Apply(l, e)
  }

  /** Replays events from left to right, starting from `r`. */
  function Run(r: Option<Ledger>, es: seq<Event>): Option<Ledger>
    decreases |es|
  {
    if es == [] then r else Run(Step(r, es[0]), es[1..])
  }

  /** The meaning of a whole trace, starting with nothing owned and nothing locked. */
  function Replay(t: seq<Event>): Option<Ledger>
  {
    Run(Some(Empty), t)
  }

  /** The calls of one presentation: swap, lock, post with the fixed geometry, unlock of the same surface. */
  function FrameEvents(context: Handle, presenter: Handle, surface: Handle): seq<Event>
  {
    [ContextSwap(context),
     SurfaceLock(context, surface),
     PresenterPost(presenter, surface, PostSource, PostDest, PostRotation),
     SurfaceUnlock(context, surface)]
  }

  /** The calls of a teardown: the context only when there is one, then the presenter, then the display. */
  function TeardownEvents(display: Handle, presenter: Handle, context: Handle): seq<Event>
  {
    (if context != Null then [ContextDestroy(context)] else [])
    + [PresenterDestroy(presenter), DisplayDestroy(display)]
  }

  /** The presentations of a sequence of locked surfaces, one after the other. */
  function Frames(context: Handle, presenter: Handle, surfaces: seq<Handle>): seq<Event>
    decreases |surfaces|
  {
    if surfaces == [] then []
    else FrameEvents(context, presenter, surfaces[0]) + Frames(context, presenter, surfaces[1..])
  }

  /** Replaying a concatenation replays its parts in turn. */
  lemma {:induction false} RunConcat(r: Option<Ledger>, a: seq<Event>, b: seq<Event>)
    ensures Run(r, a + b) == Run(Run(r, a), b)
    decreases |a|
  {
    if a == [] {
      assert a + b == b;
    } else {
      assert (a + b)[0] == a[0];
      assert (a + b)[1..] == a[1..] + b;
      RunConcat(Step(r, a[0]), a[1..], b);
    }
  }

  /** Once a trace has broken the ownership or locking rules, nothing after it repairs that. */
  lemma {:induction false} RunFromNone(es: seq<Event>)
    ensures Run(None, es) == None
    decreases |es|
  {
    if es != [] {
      RunFromNone(es[1..]);
    }
  }

  /** Replaying a trace that ends in `es` is replaying the prefix and then `es`. */
  lemma ReplayAppend(t: seq<Event>, es: seq<Event>)
    ensures Replay(t + es) == Run(Replay(t), es)
  {
    RunConcat(Some(Empty), t, es);
  }

  /**
   * One presentation leaves ownership and locks exactly as it found them: its only lock is
   * matched by an unlock of the same surface, and the steps between them release nothing.
   */
  lemma FrameKeepsLedger(l: Ledger, context: Handle, presenter: Handle, surface: Handle)
    ensures Run(Some(l), FrameEvents(context, presenter, surface)) == Some(l)
  {
    var es := FrameEvents(context, presenter, surface);
    var held := l.(locked := l.locked + multiset{(context, surface)});
    assert held.locked - multiset{(context, surface)} == l.locked;
    calc {
      Run(Some(l), es);
      Run(Step(Some(l), es[0]), es[1..]);
      Run(Some(l), es[1..]);
      Run(Step(Some(l), es[1]), es[2..]);
      Run(Some(held), es[2..]);
      Run(Step(Some(held), es[2]), es[3..]);
      Run(Some(held), es[3..]);
      Run(Step(Some(held), es[3]), es[4..]);
      { assert es[4..] == []; }
      Some(l);
    }
  }

  /** Any number of presentations leave no surface locked and release nothing. */
  lemma {:induction false} FramesKeepLedger(l: Ledger, context: Handle, presenter: Handle, surfaces: seq<Handle>)
    ensures Run(Some(l), Frames(context, presenter, surfaces)) == Some(l)
    decreases |surfaces|
  {
    if surfaces != [] {
      RunConcat(Some(l), FrameEvents(context, presenter, surfaces[0]), Frames(context, presenter, surfaces[1..]));
      FrameKeepsLedger(l, context, presenter, surfaces[0]);
      FramesKeepLedger(l, context, presenter, surfaces[1..]);
    }
  }

  /** Each presentation holds exactly one lock, taken after the swap and released by the last call, on the same surface. */
  lemma FrameShape(context: Handle, presenter: Handle, surface: Handle)
    ensures var es := FrameEvents(context, presenter, surface);
      |es| == 4 && es[0] == ContextSwap(context)
      && (forall i :: 0 <= i < |es| && es[i].SurfaceLock? <==> i == 1)
      && (forall i :: 0 <= i < |es| && es[i].SurfaceUnlock? <==> i == 3)
      && es[1].surface == es[3].surface == surface && es[1].context == es[3].context == context
      && es[2].PresenterPost? && es[2].presenter == presenter && es[2].surface == surface
      && es[2].src == Rect(0, 0, FrameWidth, FrameHeight)
      && es[2].dst == Rect(0, 0, FrameHeight, FrameWidth)
      && es[2].rotation == Degrees270
  {
  }

  /** Destroying the newest owned resource, with nothing locked, pops exactly it. */
  lemma ReleaseNewest(below: seq<Resource>, kind: Kind, h: Handle)
    ensures Release(Ledger(below + Own(kind, h), multiset{}), kind, h) == Some(Ledger(below, multiset{}))
  {
    if h != Null {
      assert (below + [Resource(kind, h)])[..|below|] == below;
    } else {
      assert below + Own(kind, h) == below;
    }
  }

  lemma RunPair(r: Option<Ledger>, e0: Event, e1: Event)
    ensures Run(r, [e0, e1]) == Step(Step(r, e0), e1)
  {
    var es := [e0, e1];
    assert es[1..] == [e1] && [e1][1..] == [];
    assert Run(r, es) == Run(Step(r, e0), [e1]);
    assert Run(Step(r, e0), [e1]) == Run(Step(Step(r, e0), e1), []);
  }

  /** The first teardown step releases the context, when there is one. */
  lemma TeardownContext(dp: seq<Resource>, context: Handle)
    ensures Run(Some(Ledger(dp + Own(ContextKind, context), multiset{})),
                if context != Null then [ContextDestroy(context)] else [])
         == Some(Ledger(dp, multiset{}))
  {
    ReleaseNewest(dp, ContextKind, context);
    if context != Null {
      var l := Ledger(dp + Own(ContextKind, context), multiset{});
      assert [ContextDestroy(context)][1..] == [];
      assert Run(Some(l), [ContextDestroy(context)]) == Run(Release(l, ContextKind, context), []);
    } else {
      assert dp + Own(ContextKind, context) == dp;
    }
  }

  /** The last two teardown steps release the presenter and then the display. */
  lemma TeardownPresenterDisplay(below: seq<Resource>, display: Handle, presenter: Handle)
    ensures Run(Some(Ledger(below + Own(DisplayKind, display) + Own(PresenterKind, presenter), multiset{})),
                [PresenterDestroy(presenter), DisplayDestroy(display)])
         == Some(Ledger(below, multiset{}))
  {
    var d := below + Own(DisplayKind, display);
    RunPair(Some(Ledger(d + Own(PresenterKind, presenter), multiset{})),
            PresenterDestroy(presenter), DisplayDestroy(display));
    ReleaseNewest(d, PresenterKind, presenter);
    ReleaseNewest(below, DisplayKind, display);
  }

  /**
   * A teardown of everything a session owns, on a ledger with nothing locked,
   * releases all of it: the destroy calls come in strict reverse order of creation.
   */
  lemma TeardownReleasesAll(below: seq<Resource>, display: Handle, presenter: Handle, context: Handle)
    ensures Run(Some(Ledger(below + Owned(display, presenter, context), multiset{})),
                TeardownEvents(display, presenter, context))
         == Some(Ledger(below, multiset{}))
  {
    var dp := below + Own(DisplayKind, display) + Own(PresenterKind, presenter);
    assert below + Owned(display, presenter, context) == dp + Own(ContextKind, context);
    var head := if context != Null then [ContextDestroy(context)] else [];
    var tail := [PresenterDestroy(presenter), DisplayDestroy(display)];
    RunConcat(Some(Ledger(dp + Own(ContextKind, context), multiset{})), head, tail);
    TeardownContext(dp, context);
    TeardownPresenterDisplay(below, display, presenter);
  }

  /** Destroying the presenter while the context it shows still exists breaks the ownership order. */
  lemma PresenterBeforeContextRejected(display: Handle, presenter: Handle, context: Handle)
    requires presenter != Null && context != Null
    ensures Run(Some(Ledger(Owned(display, presenter, context), multiset{})),
                [PresenterDestroy(presenter), ContextDestroy(context), DisplayDestroy(display)]) == None
  {
    var es := [PresenterDestroy(presenter), ContextDestroy(context), DisplayDestroy(display)];
    var l := Ledger(Owned(display, presenter, context), multiset{});
    assert l.owned[|l.owned| - 1] == Resource(ContextKind, context);
    assert Step(Some(l), es[0]) == None;
    assert Run(Some(l), es) == Run(None, es[1..]);
    RunFromNone(es[1..]);
  }

  /** Destroying a context while one of its surfaces is still locked is rejected. */
  lemma DestroyWhileLockedRejected(display: Handle, presenter: Handle, context: Handle, surface: Handle)
    requires context != Null
    ensures Run(Some(Ledger(Owned(display, presenter, context), multiset{})),
                [SurfaceLock(context, surface), ContextDestroy(context)]) == None
  {
    var es := [SurfaceLock(context, surface), ContextDestroy(context)];
    var l := Ledger(Owned(display, presenter, context), multiset{});
    var held := l.(locked := l.locked + multiset{(context, surface)});
    assert Step(Some(l), es[0]) == Some(held);
    assert (context, surface) in held.locked;
    assert Step(Some(held), es[1]) == None;
    assert Run(Some(l), es) == Run(Some(held), es[1..]);
    assert Run(Some(held), es[1..]) == Run(None, es[1..][1..]);
    RunFromNone(es[1..][1..]);
  }
}
