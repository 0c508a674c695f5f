/**
 * The input fallback of input_driver: the X11 input driver cannot work without a window
 * system, so when it is the configured one the driver tries udev, then linuxraw, and the
 * first initializer that succeeds wins.
 */
module InputFallback {
  import opened DrmTypes

  datatype Backend = Udev | Linuxraw

  /** The initializers tried, in order, for a configured input driver name. */
  function FallbackChain(build: BuildConfig, configured: string): (chain: seq<Backend>)
    ensures configured != "x" || !build.haveX11 ==> chain == []
    ensures Udev in chain <==> build.haveX11 && configured == "x" && build.haveUdev
    ensures Linuxraw in chain <==> build.haveX11 && configured == "x" && build.linuxNotAndroid
    ensures |chain| <= 2
    ensures Udev in chain && Linuxraw in chain ==> chain == [Udev, Linuxraw]
    ensures Udev in chain && Linuxraw !in chain ==> chain == [Udev]
    ensures Udev !in chain && Linuxraw in chain ==> chain == [Linuxraw]
  {
    if build.haveX11 && configured == "x" then
      (if build.haveUdev then [Udev] else []) + (if build.linuxNotAndroid then [Linuxraw] else [])
    else []
  }

  /** The first backend of the chain whose initializer returns non-NULL. */
  function FirstSuccess(chain: seq<Backend>, init: Backend -> Handle): Option<Backend>
    decreases |chain|
  {
    if chain == [] then None
    else if init(chain[0]) != Null then Some(chain[0])
    else FirstSuccess(chain[1..], init)
  }

  /**
   * FirstSuccess picks the earliest backend whose initializer succeeds, and nothing
   * exactly when every initializer of the chain fails.
   */
  lemma {:induction false} FirstSuccessIsFirst(chain: seq<Backend>, init: Backend -> Handle)
    ensures FirstSuccess(chain, init).None? <==> forall i :: 0 <= i < |chain| ==> init(chain[i]) == Null
    ensures FirstSuccess(chain, init).Some? ==>
      exists k :: 0 <= k < |chain| && chain[k] == FirstSuccess(chain, init).value
        && init(chain[k]) != Null && forall j :: 0 <= j < k ==> init(chain[j]) == Null
    decreases |chain|
  {
    if chain != [] && init(chain[0]) == Null {
      FirstSuccessIsFirst(chain[1..], init);
      if FirstSuccess(chain[1..], init).Some? {
        var k :| 0 <= k < |chain[1..]| && chain[1..][k] == FirstSuccess(chain[1..], init).value
          && init(chain[1..][k]) != Null && forall j :: 0 <= j < k ==> init(chain[1..][j]) == Null;
        assert chain[k + 1] == chain[1..][k];
        forall j | 0 <= j < k + 1 ensures init(chain[j]) == Null {
          if j > 0 {
            assert chain[j] == chain[1..][j - 1];
          }
        }
      } else {
        forall i | 0 <= i < |chain| ensures init(chain[i]) == Null {
          if i > 0 {
            assert chain[i] == chain[1..][i - 1];
          }
        }
      }
    } else if chain != [] {
      assert 0 < |chain| && init(chain[0]) != Null;
    }
  }

  /**
   * input_driver: `configured` is the configured input driver name and `init` what each
   * backend's initializer returns. `input` is the chosen driver (None for NULL) and
   * `inputData` its private data; `tried` lists the initializers called, in order.
   */
  method InputDriver(build: BuildConfig, configured: string, init: Backend -> Handle)
    returns (input: Option<Backend>, inputData: Handle, ghost tried: seq<Backend>)
    ensures input == FirstSuccess(FallbackChain(build, configured), init)
    ensures input.Some? ==> inputData == init(input.value) && inputData != Null
    ensures input.None? ==> inputData == Null
    ensures |tried| <= |FallbackChain(build, configured)|
    ensures tried == FallbackChain(build, configured)[..|tried|]
    ensures forall i :: 0 <= i < |tried| - 1 ==> init(tried[i]) == Null
    ensures input.Some? ==> |tried| > 0 && tried[|tried| - 1] == input.value
    ensures input.None? ==> tried == FallbackChain(build, configured)
  {
    tried := [];
    if build.haveX11 && configured == "x" {
      if build.haveUdev {
        tried := tried + [Udev];
        var udev := init(Udev);
        if udev != Null {
          return Some(Udev), udev, tried;
        }
      }
      if build.linuxNotAndroid {
        tried := tried + [Linuxraw];
        var linuxraw := init(Linuxraw);
        if linuxraw != Null {
          return Some(Linuxraw), linuxraw, tried;
        }
      }
    }
    input, inputData := None, Null;
    FirstSuccessIsFirst(FallbackChain(build, configured), init);
  }
}
