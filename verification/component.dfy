/**
 * The scanner component as an object whose methods update its fields in place:
 * `mounted` and the `loading`, `power`, `initialized` and `error` of its state.
 * The engine is replaced by ghost logs of the calls made on it and on the host,
 * and by a ghost count of the `init` callbacks it still holds. Every method that
 * changes state is proved to perform exactly its step in module Lifecycle
 * (`ComponentDidMount` performs `Mount`, `ComponentDidUpdate` and `OnUpdate` perform
 * `Update`, and so on). The lifecycle methods also keep that module's invariant;
 * `InitializeQuagga`, `Fail` and `Subscribe` are parts of a step, and only the whole
 * step keeps it. `Render` changes nothing.
 */
module ScannerComponent {
  import opened Wrappers
  import opened Js
  import Detection
  import L = Lifecycle

  class Component {
    /** Media support and the core count, which the source reads once when its module loads. */
    const platform: L.Platform

    var mounted: bool
    var loading: bool
    var power: bool
    var initialized: bool
    var error: Option<L.Error>

    ghost var didMount: bool
    ghost var pending: nat
    ghost var detectSubscribed: bool
    ghost var engineLog: seq<L.EngineCall>
    ghost var hostLog: seq<L.HostCall>

    /** The component's fields and the logs, as a value of the state machine. */
    ghost function Snapshot(): L.State
      reads this
    {
      L.State(mounted, loading, power, initialized, error,
              didMount, pending, detectSubscribed, engineLog, hostLog)
    }

    ghost predicate Valid()
      reads this
    {
      L.Inv(Snapshot())
    }

    /** Mounted, loading, not powered, not initialised, no error, and no call made yet. */
    constructor (platform: L.Platform)
      ensures this.platform == platform
      ensures Snapshot() == L.Initial() && Valid() && L.StopsFollowStarts(engineLog)
    {
      this.platform := platform;
      mounted := true;
      loading, power, initialized, error := true, false, false, None;
      didMount, pending, detectSubscribed := false, 0, false;
      engineLog, hostLog := [], [];
      L.InitialInv();
    }

    /**
     * `initializeQuagga`: builds the configuration from the current props and calls
     * `init` with it; the log keeps the props, from which `L.ConfigOf` gives the same
     * configuration back. The callback stays with the engine until `InitDone`.
     */
    method InitializeQuagga(p: L.Props)
      modifies this`engineLog, this`pending
      ensures Snapshot() == L.IssueInit(old(Snapshot()), p)
    {
      engineLog := engineLog + [L.Init(p.capture)];
      pending := pending + 1;
    }

    /** The repeated `else if (this.mounted) this.setState({loading: false, error})`. */
    method Fail(e: L.Error)
      modifies this`loading, this`error
      ensures Snapshot() == L.Fail(old(Snapshot()), e)
    {
      if mounted {
        loading, error := false, Some(e);
      }
    }

    /** The subscriptions of `componentDidMount`, made right after `init` is issued. */
    method Subscribe(p: L.Props)
      modifies this`engineLog, this`detectSubscribed, this`loading, this`error
      ensures Snapshot() == L.Subscribe(old(Snapshot()), p)
    {
      engineLog := engineLog + [L.SubscribeProcessed];
      if p.onDetectedIsFunction {
        engineLog := engineLog + [L.SubscribeDetected];
        detectSubscribed := true;
      } else {
        Fail(L.OnDetectedNotFunction);
      }
    }

    /** `componentDidMount`, which React calls once. */
    method ComponentDidMount(p: L.Props)
      requires Valid() && !didMount
      modifies this
      ensures Snapshot() == L.Mount(old(Snapshot()), p, platform) && Valid()
      ensures old(L.StopsFollowStarts(engineLog)) ==> L.StopsFollowStarts(engineLog)
    {
      ghost var before := Snapshot();
      didMount := true;
      if platform.mediaSupported {
        if p.scanType == Str("barcode") {
          InitializeQuagga(p);
          Subscribe(p);
        } else {
          Fail(L.NoValidScanType);
        }
      } else {
        Fail(L.MediaUnsupported);
      }
      assert Snapshot() == L.Mount(before, p, platform);
      L.MountKeepsInv(before, p, platform);
    }

    /** The callback passed to `init`, called by the engine once for each `init`. */
    method InitDone(err: Value)
      requires Valid() && pending > 0
      modifies this
      ensures Snapshot() == L.InitDone(old(Snapshot()), err) && Valid()
      ensures old(L.StopsFollowStarts(engineLog)) ==> L.StopsFollowStarts(engineLog)
    {
      ghost var before := Snapshot();
      pending := pending - 1;
      if mounted {
        if Truthy(err) {
          loading, error := false, Some(L.EngineError(err));
        } else {
          engineLog := engineLog + [L.Start];
          loading, power, initialized := false, true, true;
        }
      }
      assert Snapshot() == L.InitDone(before, err);
      L.InitDoneKeepsInv(before, err);
    }

    /** `componentDidUpdate`, which runs `onUpdate`. */
    method ComponentDidUpdate(p: L.Props)
      requires Valid()
      modifies this
      ensures Snapshot() == L.Update(old(Snapshot()), p) && Valid()
      ensures old(L.StopsFollowStarts(engineLog)) && p.status.Bool? ==> L.StopsFollowStarts(engineLog)
    {
      OnUpdate(p);
    }

    /** `onUpdate`: reconciles `status` with `power`, or reports the error. */
    method OnUpdate(p: L.Props)
      requires Valid()
      modifies this
      ensures Snapshot() == L.Update(old(Snapshot()), p) && Valid()
      ensures old(L.StopsFollowStarts(engineLog)) && p.status.Bool? ==> L.StopsFollowStarts(engineLog)
    {
      ghost var before := Snapshot();
      if mounted {
        if error.Some? {
          hostLog := hostLog + [L.ErrorReported(error.value)];
        } else if initialized {
          if p.status != Bool(power) {
            if p.status == Bool(true) {
              InitializeQuagga(p);
            } else {
              engineLog := engineLog + [L.Stop];
              loading, power, error := true, false, None;
            }
          }
        }
      }
      assert Snapshot() == L.Update(before, p);
      L.UpdateKeepsInv(before, p);
    }

    /** `componentWillUnmount`: only `mounted` changes. */
    method ComponentWillUnmount()
      requires Valid()
      modifies this`mounted
      ensures Snapshot() == L.Unmount(old(Snapshot())) && Valid()
    {
      mounted := false;
    }

    /** The `onDetected` handler registered with the engine in `componentDidMount`. */
    method Detected(data: Value)
      requires Valid() && detectSubscribed
      modifies this`hostLog
      ensures Snapshot() == L.Detect(old(Snapshot()), data) && Valid()
    {
      var response := Detection.GetResponse(data);
      if response.Normal? {
        hostLog := hostLog + [L.DetectionDelivered(response.value)];
      }
    }

    /** `render`'s dependence on the state: the loading line and the target's display style. */
    method Render() returns (view: L.View)
      ensures view == L.Render(Snapshot())
      ensures view.loadingMessage == loading
    {
      view := L.View(loading, And(Bool(loading), Str("none")));
    }
  }
}
