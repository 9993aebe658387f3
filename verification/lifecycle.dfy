/**
 * The scanner component's lifecycle as a state machine over values: the component's
 * own fields (`mounted`, and `loading`, `power`, `initialized`, `error` in its state),
 * the engine's view of it (pending `init` callbacks, the detection subscription), and
 * the calls made so far on the engine and on the host application. Each event of the
 * component is a function from the state before it to the state after it; the class
 * in module ScannerComponent performs the same steps in place.
 */
module Lifecycle {
  import opened Wrappers
  import opened Js
  import Config
  import Detection

  /** What `error` holds: an `Error` the component builds, or what the engine's `init` reported. */
  datatype Error = ComponentError(message: string) | EngineError(cause: Value)

  const MediaUnsupported: Error := ComponentError("Your browser doesn't support media")
  const NoValidScanType: Error := ComponentError("No valid scan type is specified")
  const OnDetectedNotFunction: Error := ComponentError("onDetected() is not a valid function")

  /**
   * Calls on the engine: `init`, `start`, `stop`, and the two subscriptions. An `init`
   * records the capture props it was built from; the configuration the engine receives
   * is `ConfigOf` of it, which module Config describes in full.
   */
  datatype EngineCall = Init(capture: Config.CaptureProps) | Start | Stop | SubscribeProcessed | SubscribeDetected

  /** Calls into the host application: `onError(error)` and `onDetected(response)`. */
  datatype HostCall = ErrorReported(error: Error) | DetectionDelivered(response: Value)

  /** What the platform reports once, when the module loads: media capture support and the core count. */
  datatype Platform = Platform(mediaSupported: bool, hardwareConcurrency: Value)

  /**
   * The props the lifecycle reads: the capture settings, `type`, `status`, and whether
   * `onDetected` is a function. `status` is kept as any value, because the component
   * compares it with `!==` and `===`.
   */
  datatype Props = Props(capture: Config.CaptureProps, scanType: Value, status: Value, onDetectedIsFunction: bool)

  datatype State = State(
    mounted: bool,
    loading: bool,
    power: bool,
    initialized: bool,
    error: Option<Error>,
    didMount: bool,              // componentDidMount has run
    pending: nat,                // init callbacks the engine still holds
    detectSubscribed: bool,      // the onDetected handler is registered with the engine
    engine: seq<EngineCall>,
    host: seq<HostCall>)

  /**
   * The component as its constructor leaves it: mounted and loading, neither powered nor
   * initialised, no error, not yet through `componentDidMount`, and no call made on the
   * engine or the host. Nothing is shown but the loading line, and the invariant holds.
   */
  function Initial(): (s: State)
    ensures s.mounted && s.loading && !s.power && !s.initialized && s.error == None
    ensures !s.didMount && s.pending == 0 && !s.detectSubscribed && s.engine == [] && s.host == []
    ensures Render(s).loadingMessage && Render(s).targetDisplay == Str("none")
    ensures Inv(s)
  {
    State(true, true, false, false, None, false, 0, false, [], [])
  }

  /** The five fields the component itself keeps. */
  predicate SameFields(s: State, t: State) {
    s.mounted == t.mounted && s.loading == t.loading && s.power == t.power
    && s.initialized == t.initialized && s.error == t.error
  }

  /** Whether `componentDidMount` gets past both of its checks and calls `init`. */
  predicate PassesGate(platform: Platform, p: Props) {
    platform.mediaSupported && p.scanType == Str("barcode")
  }

  /** The configuration record an `init` call hands to the engine. */
  function ConfigOf(call: EngineCall, platform: Platform): Value
    requires call.Init?
  {
    Config.BuildConfig(call.capture, platform.hardwareConcurrency)
  }

  /** `initializeQuagga`: one more `init` call, whose callback the engine now holds. */
  function IssueInit(s: State, p: Props): (t: State)
    ensures SameFields(s, t) && t.didMount == s.didMount && t.detectSubscribed == s.detectSubscribed
    ensures t.engine == s.engine + [Init(p.capture)] && t.pending == s.pending + 1
    ensures t.host == s.host
  {
    s.(engine := s.engine + [Init(p.capture)], pending := s.pending + 1)
  }

  /** `else if (this.mounted) this.setState({loading: false, error})`. */
  function Fail(s: State, e: Error): (t: State)
    ensures s.mounted ==> !t.loading && t.error == Some(e) && t == s.(loading := false, error := Some(e))
    ensures !s.mounted ==> t == s
  {
    if s.mounted then s.(loading := false, error := Some(e)) else s
  }

  /**
   * The rest of `componentDidMount` once `init` is issued: the processed-frame
   * subscription, then the detection subscription, or the failure when `onDetected`
   * is not a function.
   */
  function Subscribe(s: State, p: Props): (t: State)
    ensures t.engine == s.engine + [SubscribeProcessed] + (if p.onDetectedIsFunction then [SubscribeDetected] else [])
    ensures t.detectSubscribed == (s.detectSubscribed || p.onDetectedIsFunction)
    ensures t.pending == s.pending && t.host == s.host && t.didMount == s.didMount
    ensures t.mounted == s.mounted && t.power == s.power && t.initialized == s.initialized
    ensures p.onDetectedIsFunction || !s.mounted ==> t.loading == s.loading && t.error == s.error
    ensures !p.onDetectedIsFunction && s.mounted ==> !t.loading && t.error == Some(OnDetectedNotFunction)
  {
    var s := s.(engine := s.engine + [SubscribeProcessed]);
    if p.onDetectedIsFunction then
      s.(engine := s.engine + [SubscribeDetected], detectSubscribed := true)
    else
      Fail(s, OnDetectedNotFunction)
  }

  /**
   * `componentDidMount`. Without media support, or for a `type` other than `'barcode'`,
   * no engine call is made and the failure is recorded. Otherwise `init` is called first,
   * then the processed-frame subscription, and only then is `onDetected` checked: when it
   * is not a function, the failure is recorded although `init` is already under way.
   */
  function Mount(s: State, p: Props, platform: Platform): (t: State)
    requires !s.didMount
    ensures t.didMount && t.mounted == s.mounted && t.power == s.power && t.initialized == s.initialized
    ensures t.host == s.host
    ensures !PassesGate(platform, p) ==> t.engine == s.engine && t.pending == s.pending
    ensures !PassesGate(platform, p) && s.mounted ==>
      !t.loading && t.error == Some(if !platform.mediaSupported then MediaUnsupported else NoValidScanType)
    ensures PassesGate(platform, p) ==>
      && t.pending == s.pending + 1
      && t.engine == s.engine + [Init(p.capture)] + [SubscribeProcessed]
                     + (if p.onDetectedIsFunction then [SubscribeDetected] else [])
    ensures t.detectSubscribed == (s.detectSubscribed || (PassesGate(platform, p) && p.onDetectedIsFunction))
    ensures PassesGate(platform, p) && !p.onDetectedIsFunction && s.mounted ==>
      !t.loading && t.error == Some(OnDetectedNotFunction)
    ensures (PassesGate(platform, p) && p.onDetectedIsFunction) || !s.mounted ==>
      t.loading == s.loading && t.error == s.error
  {
    var s := s.(didMount := true);
    if !platform.mediaSupported then
      Fail(s, MediaUnsupported)
    else if p.scanType != Str("barcode") then
      Fail(s, NoValidScanType)
    else
      Subscribe(IssueInit(s, p), p)
  }

  /**
   * The callback given to `init`, in both places it is issued. Once the component is
   * unmounted it has no effect at all. A truthy `err` is recorded and `start` is not
   * called; otherwise `start` is called once and the component is running and initialised.
   */
  function InitDone(s: State, err: Value): (t: State)
    requires s.pending > 0
    ensures t.pending == s.pending - 1 && t.host == s.host && t.mounted == s.mounted
    ensures t.didMount == s.didMount && t.detectSubscribed == s.detectSubscribed
    ensures !s.mounted ==> SameFields(s, t) && t.engine == s.engine
    ensures s.mounted && Truthy(err) ==>
      && t.engine == s.engine && !t.loading && t.error == Some(EngineError(err))
      && t.power == s.power && t.initialized == s.initialized
    ensures s.mounted && !Truthy(err) ==>
      t.engine == s.engine + [Start] && !t.loading && t.power && t.initialized && t.error == s.error
  {
    var s := s.(pending := s.pending - 1);
    if !s.mounted then
      s
    else if Truthy(err) then
      s.(loading := false, error := Some(EngineError(err)))
    else
      s.(engine := s.engine + [Start], loading := false, power := true, initialized := true)
  }

  /**
   * `onUpdate`, run after every update. While `error` is set it reports it to `onError`
   * and does nothing else, on every update. Before the first successful `init`, or when
   * `power` already equals `status`, nothing happens. When `status` is `true` a new `init`
   * is issued, with no guard against one already pending, and no field changes until its
   * callback. For any other `status` the engine is stopped and the component goes back
   * to loading with the error cleared.
   */
  function Update(s: State, p: Props): (t: State)
    ensures t.mounted == s.mounted && t.didMount == s.didMount && t.detectSubscribed == s.detectSubscribed
    ensures !s.mounted ==> t == s
    ensures s.mounted && s.error.Some? ==>
      && t.host == s.host + [ErrorReported(s.error.value)]
      && SameFields(s, t) && t.engine == s.engine && t.pending == s.pending
    ensures s.error.None? ==> t.host == s.host
    ensures s.error.None? && !s.initialized ==> t == s
    ensures s.error.None? && s.initialized && p.status == Bool(s.power) ==> t == s
    ensures s.mounted && s.error.None? && s.initialized && p.status != Bool(s.power) && p.status == Bool(true) ==>
      SameFields(s, t) && t.engine == s.engine + [Init(p.capture)] && t.pending == s.pending + 1
    ensures s.mounted && s.error.None? && s.initialized && p.status != Bool(s.power) && p.status != Bool(true) ==>
      && t.engine == s.engine + [Stop] && t.pending == s.pending
      && !t.power && t.loading && t.error == None && t.initialized
  {
    if !s.mounted then
      s
    else if s.error.Some? then
      s.(host := s.host + [ErrorReported(s.error.value)])
    else if s.initialized && p.status != Bool(s.power) then
      if p.status == Bool(true) then
        IssueInit(s, p)
      else
        s.(engine := s.engine + [Stop], loading := true, power := false, error := None)
    else
      s
  }

  /** `componentWillUnmount`: clears `mounted` and nothing else; the engine is neither stopped nor unsubscribed. */
  function Unmount(s: State): (t: State)
    ensures !t.mounted && t.(mounted := s.mounted) == s
  {
    s.(mounted := false)
  }

  /**
   * The engine reporting a detection to the handler registered in `componentDidMount`.
   * The handler does not look at `mounted`, so it delivers after unmount too; when
   * `getResponse` throws, nothing reaches the host.
   */
  function Detect(s: State, data: Value): (t: State)
    ensures SameFields(s, t) && t.engine == s.engine && t.pending == s.pending
    ensures t.didMount == s.didMount && t.detectSubscribed == s.detectSubscribed
    ensures s.detectSubscribed && Detection.GetResponse(data).Normal? ==>
      t.host == s.host + [DetectionDelivered(Detection.GetResponse(data).value)]
    ensures !(s.detectSubscribed && Detection.GetResponse(data).Normal?) ==> t.host == s.host
  {
    if s.detectSubscribed then
      match Detection.GetResponse(data)
      case Normal(response) => s.(host := s.host + [DetectionDelivered(response)])
      case TypeError => s
    else
      s
  }

  /** What `render` shows: the "Loading..." line, and the target's `display` style `loading && 'none'`. */
  datatype View = View(loadingMessage: bool, targetDisplay: Value)

  function Render(s: State): (v: View)
    ensures v.loadingMessage == s.loading
    ensures s.loading ==> v.targetDisplay == Str("none")
    ensures !s.loading ==> !Truthy(v.targetDisplay)
  {
    View(s.loading, And(Bool(s.loading), Str("none")))
  }

  // ---------------------------------------------------------------------------
  // Reading the engine log

  datatype CallKind = InitCall | StartCall | StopCall

  predicate IsKind(c: EngineCall, k: CallKind) {
    match k
    case InitCall => c.Init?
    case StartCall => c.Start?
    case StopCall => c.Stop?
  }

  /** How many calls of kind `k` the log holds. */
  function Count(log: seq<EngineCall>, k: CallKind): nat {
    if log == [] then 0
    else Count(log[..|log| - 1], k) + (if IsKind(log[|log| - 1], k) then 1 else 0)
  }

  /** Whether the last `start` or `stop` in the log is a `start`. */
  predicate Running(log: seq<EngineCall>) {
    if log == [] then false
    else if log[|log| - 1].Start? then true
    else if log[|log| - 1].Stop? then false
    else Running(log[..|log| - 1])
  }

  /** Every `stop` in the log goes to an engine whose last start/stop call was a `start`. */
  predicate StopsFollowStarts(log: seq<EngineCall>) {
    if log == [] then true
    else StopsFollowStarts(log[..|log| - 1]) && (log[|log| - 1].Stop? ==> Running(log[..|log| - 1]))
  }

  /** How many times `onError` was called. */
  function Reports(host: seq<HostCall>): nat {
    if host == [] then 0
    else Reports(host[..|host| - 1]) + (if host[|host| - 1].ErrorReported? then 1 else 0)
  }

  lemma EngineSnoc(log: seq<EngineCall>, c: EngineCall)
    ensures forall k :: Count(log + [c], k) == Count(log, k) + (if IsKind(c, k) then 1 else 0)
    ensures Running(log + [c]) == (c.Start? || (!c.Stop? && Running(log)))
    ensures StopsFollowStarts(log + [c]) == (StopsFollowStarts(log) && (c.Stop? ==> Running(log)))
  {
    assert (log + [c])[..|log|] == log;
  }

  lemma HostSnoc(host: seq<HostCall>, c: HostCall)
    ensures Reports(host + [c]) == Reports(host) + (if c.ErrorReported? then 1 else 0)
  {
    assert (host + [c])[..|host|] == host;
  }

  // ---------------------------------------------------------------------------
  // The invariant every reachable state keeps

  predicate ErrorIsTruthy(e: Error) {
    e.EngineError? ==> Truthy(e.cause)
  }

  /**
   * A running component is initialised and not loading; a failed one is not loading;
   * `power` says whether the engine was last started or stopped; every `start` was
   * preceded by an `init` of its own, and so is every callback still pending.
   */
  predicate Inv(s: State) {
    && (s.power ==> s.initialized && !s.loading)
    && (s.error.Some? ==> !s.loading && ErrorIsTruthy(s.error.value))
    && s.power == Running(s.engine)
    && Count(s.engine, StartCall) + s.pending <= Count(s.engine, InitCall)
    && (s.detectSubscribed ==> s.didMount)
  }

  /** The events that drive the component: React's lifecycle calls and the engine's callbacks. */
  datatype Event =
    | DidMount(props: Props)
    | InitCompleted(err: Value)
    | DidUpdate(props: Props)
    | WillUnmount
    | EngineDetected(data: Value)

  /**
   * One event. React mounts a component once, and the engine only calls back for an `init`
   * it was given, so a second mount and a callback with none pending leave the state as it is.
   */
  function Step(s: State, e: Event, platform: Platform): State {
    match e
    case DidMount(p) => if s.didMount then s else Mount(s, p, platform)
    case InitCompleted(err) => if s.pending == 0 then s else InitDone(s, err)
    case DidUpdate(p) => Update(s, p)
    case WillUnmount => Unmount(s)
    case EngineDetected(data) => Detect(s, data)
  }

  function Run(s: State, events: seq<Event>, platform: Platform): State
    decreases |events|
  {
    if events == [] then s else Run(Step(s, events[0], platform), events[1..], platform)
  }

  /** `status` is a boolean, as the component's prop types require, in every update of the trace. */
  predicate BooleanStatus(events: seq<Event>) {
    forall i | 0 <= i < |events| :: events[i].DidUpdate? ==> events[i].props.status.Bool?
  }

  lemma InitialInv()
    ensures Inv(Initial()) && StopsFollowStarts(Initial().engine)
  {
  }

  lemma MountKeepsInv(s: State, p: Props, platform: Platform)
    requires Inv(s) && !s.didMount
    ensures Inv(Mount(s, p, platform))
    ensures StopsFollowStarts(s.engine) ==> StopsFollowStarts(Mount(s, p, platform).engine)
  {
    if PassesGate(platform, p) {
      var log1 := s.engine + [Init(p.capture)];
      EngineSnoc(s.engine, Init(p.capture));
      EngineSnoc(log1, SubscribeProcessed);
      EngineSnoc(log1 + [SubscribeProcessed], SubscribeDetected);
    }
  }

  lemma InitDoneKeepsInv(s: State, err: Value)
    requires Inv(s) && s.pending > 0
    ensures Inv(InitDone(s, err))
    ensures StopsFollowStarts(s.engine) ==> StopsFollowStarts(InitDone(s, err).engine)
  {
    EngineSnoc(s.engine, Start);
  }

  lemma UpdateKeepsInv(s: State, p: Props)
    requires Inv(s)
    ensures Inv(Update(s, p))
    ensures StopsFollowStarts(s.engine) && p.status.Bool? ==> StopsFollowStarts(Update(s, p).engine)
  {
    if s.mounted && s.error.None? && s.initialized && p.status != Bool(s.power) {
      if p.status == Bool(true) {
        EngineSnoc(s.engine, Init(p.capture));
      } else {
        EngineSnoc(s.engine, Stop);
      }
    }
  }

  lemma StepKeepsInv(s: State, e: Event, platform: Platform)
    requires Inv(s)
    ensures Inv(Step(s, e, platform))
    ensures StopsFollowStarts(s.engine) && (e.DidUpdate? ==> e.props.status.Bool?) ==>
      StopsFollowStarts(Step(s, e, platform).engine)
  {
    match e
    case DidMount(p) =>
      if !s.didMount { MountKeepsInv(s, p, platform); }
    case InitCompleted(err) =>
      if s.pending > 0 { InitDoneKeepsInv(s, err); }
    case DidUpdate(p) =>
      UpdateKeepsInv(s, p);
    case WillUnmount =>
    case EngineDetected(data) =>
  }

  /**
   * The invariant holds after any sequence of events, and so does the stop discipline
   * as long as `status` is always a boolean.
   */
  lemma {:induction false} RunKeepsInv(s: State, events: seq<Event>, platform: Platform)
    requires Inv(s)
    decreases |events|
    ensures Inv(Run(s, events, platform))
    ensures StopsFollowStarts(s.engine) && BooleanStatus(events) ==>
      StopsFollowStarts(Run(s, events, platform).engine)
  {
    if events != [] {
      StepKeepsInv(s, events[0], platform);
      assert BooleanStatus(events) ==> BooleanStatus(events[1..]) by {
        if BooleanStatus(events) {
          forall i | 0 <= i < |events[1..]| ensures events[1..][i].DidUpdate? ==> events[1..][i].props.status.Bool? {
            assert events[1..][i] == events[i + 1];
          }
        }
      }
      RunKeepsInv(Step(s, events[0], platform), events[1..], platform);
    }
  }

  /** Every state the component can reach from its constructor satisfies the invariant. */
  lemma ReachableInv(events: seq<Event>, platform: Platform)
    ensures Inv(Run(Initial(), events, platform))
    ensures BooleanStatus(events) ==> StopsFollowStarts(Run(Initial(), events, platform).engine)
  {
    InitialInv();
    RunKeepsInv(Initial(), events, platform);
  }

  /** In a log where every `stop` follows a `start`, there are never more stops than starts. */
  lemma {:induction false} StopsBoundedByStarts(log: seq<EngineCall>)
    requires StopsFollowStarts(log)
    ensures Count(log, StopCall) + (if Running(log) then 1 else 0) <= Count(log, StartCall)
  {
    if log != [] {
      var prefix := log[..|log| - 1];
      assert log == prefix + [log[|log| - 1]];
      EngineSnoc(prefix, log[|log| - 1]);
      StopsBoundedByStarts(prefix);
    }
  }

  /** A mount after unmount issues `init` and subscribes, but neither starts nor stops the engine. */
  lemma UnmountedMountIsQuiet(s: State, p: Props, platform: Platform)
    requires !s.mounted && !s.didMount
    ensures var t := Mount(s, p, platform);
      && SameFields(s, t)
      && Count(t.engine, StartCall) == Count(s.engine, StartCall)
      && Count(t.engine, StopCall) == Count(s.engine, StopCall)
  {
    if PassesGate(platform, p) {
      var log1 := s.engine + [Init(p.capture)];
      EngineSnoc(s.engine, Init(p.capture));
      EngineSnoc(log1, SubscribeProcessed);
      EngineSnoc(log1 + [SubscribeProcessed], SubscribeDetected);
    }
  }

  lemma UnmountedStepIsQuiet(s: State, e: Event, platform: Platform)
    requires !s.mounted
    ensures var t := Step(s, e, platform);
      && SameFields(s, t)
      && Count(t.engine, StartCall) == Count(s.engine, StartCall)
      && Count(t.engine, StopCall) == Count(s.engine, StopCall)
      && Reports(t.host) == Reports(s.host)
  {
    match e
    case DidMount(p) =>
      if !s.didMount {
        UnmountedMountIsQuiet(s, p, platform);
      }
    case InitCompleted(err) =>
    case DidUpdate(p) =>
    case WillUnmount =>
    case EngineDetected(data) =>
      if s.detectSubscribed && Detection.GetResponse(data).Normal? {
        HostSnoc(s.host, DetectionDelivered(Detection.GetResponse(data).value));
      }
  }

  /**
   * After unmount no event changes the component's fields, starts or stops the engine, or
   * calls `onError`, whatever the pending callbacks report.
   */
  lemma {:induction false} UnmountedRunIsQuiet(s: State, events: seq<Event>, platform: Platform)
    requires !s.mounted
    ensures SameFields(s, Run(s, events, platform))
    ensures Count(Run(s, events, platform).engine, StartCall) == Count(s.engine, StartCall)
    ensures Count(Run(s, events, platform).engine, StopCall) == Count(s.engine, StopCall)
    ensures Reports(Run(s, events, platform).host) == Reports(s.host)
    decreases |events|
  {
    if events != [] {
      UnmountedStepIsQuiet(s, events[0], platform);
      UnmountedRunIsQuiet(Step(s, events[0], platform), events[1..], platform);
    }
  }

  /**
   * When every mount fails its checks (no media support, or a `type` other than
   * `'barcode'`), the engine is never initialised or started, whatever else happens.
   */
  lemma {:induction false} FailedGateKeepsEngineIdle(s: State, events: seq<Event>, platform: Platform)
    requires !s.initialized && !s.power && s.pending == 0
    requires Count(s.engine, InitCall) == 0 && Count(s.engine, StartCall) == 0
    requires forall i | 0 <= i < |events| :: events[i].DidMount? ==> !PassesGate(platform, events[i].props)
    decreases |events|
    ensures var t := Run(s, events, platform);
      !t.initialized && !t.power && t.pending == 0
      && Count(t.engine, InitCall) == 0 && Count(t.engine, StartCall) == 0
  {
    if events != [] {
      forall i | 0 <= i < |events[1..]| ensures events[1..][i].DidMount? ==> !PassesGate(platform, events[1..][i].props) {
        assert events[1..][i] == events[i + 1];
      }
      FailedGateKeepsEngineIdle(Step(s, events[0], platform), events[1..], platform);
    }
  }

  /** Without media support `init` is never called, in any run from the constructor. */
  lemma UnsupportedMediaNeverInitializes(events: seq<Event>, platform: Platform)
    requires !platform.mediaSupported
    ensures Count(Run(Initial(), events, platform).engine, InitCall) == 0
    ensures Count(Run(Initial(), events, platform).engine, StartCall) == 0
  {
    FailedGateKeepsEngineIdle(Initial(), events, platform);
  }

  // ---------------------------------------------------------------------------
  // Scenarios

  /** A mount whose `init` succeeds: one `init`, one `start`, running, and the target on show. */
  lemma MountThenInitSucceeds(p: Props, platform: Platform, err: Value)
    requires PassesGate(platform, p) && p.onDetectedIsFunction && !Truthy(err)
    ensures
      var t := InitDone(Mount(Initial(), p, platform), err);
      && t.power && t.initialized && !t.loading && t.error == None && t.pending == 0
      && Count(t.engine, InitCall) == 1 && Count(t.engine, StartCall) == 1 && Count(t.engine, StopCall) == 0
      && Render(t) == View(false, Bool(false))
  {
    var m := Mount(Initial(), p, platform);
    var log1 := [Init(p.capture)];
    EngineSnoc([], Init(p.capture));
    EngineSnoc(log1, SubscribeProcessed);
    EngineSnoc(log1 + [SubscribeProcessed], SubscribeDetected);
    EngineSnoc(m.engine, Start);
  }

  /**
   * A mount whose `init` fails: the error is kept, `start` is never called, and `onError`
   * is called once on each later update, not once in all.
   */
  lemma MountThenInitFails(p: Props, platform: Platform, err: Value)
    requires PassesGate(platform, p) && p.onDetectedIsFunction && Truthy(err)
    ensures
      var t := InitDone(Mount(Initial(), p, platform), err);
      var u1 := Update(t, p);
      var u2 := Update(u1, p);
      && t.error == Some(EngineError(err)) && !t.loading && !t.power && t.host == []
      && Count(u2.engine, StartCall) == 0
      && u1.host == [ErrorReported(EngineError(err))]
      && u2.host == [ErrorReported(EngineError(err)), ErrorReported(EngineError(err))]
  {
    var m := Mount(Initial(), p, platform);
    var log1 := [Init(p.capture)];
    EngineSnoc([], Init(p.capture));
    EngineSnoc(log1, SubscribeProcessed);
    EngineSnoc(log1 + [SubscribeProcessed], SubscribeDetected);
  }

  /**
   * Without an `onDetected` function the error is recorded, yet `init` was already issued,
   * and when it succeeds the engine is started and the component counts as running.
   */
  lemma MissingHandlerStillStartsEngine(p: Props, platform: Platform)
    requires PassesGate(platform, p) && !p.onDetectedIsFunction
    ensures
      var m := Mount(Initial(), p, platform);
      var t := InitDone(m, Null);
      && m.error == Some(OnDetectedNotFunction) && !m.loading && !m.detectSubscribed
      && Count(t.engine, InitCall) == 1 && Count(t.engine, StartCall) == 1
      && t.power && t.error == Some(OnDetectedNotFunction)
  {
    var m := Mount(Initial(), p, platform);
    EngineSnoc([], Init(p.capture));
    EngineSnoc([Init(p.capture)], SubscribeProcessed);
    EngineSnoc(m.engine, Start);
  }

  /**
   * While no error is set, repeating `status = false` is idempotent: the second update
   * changes nothing. While an error is set, every update calls `onError` again.
   */
  lemma StopIsIdempotent(s: State, p: Props)
    requires s.error.None? && p.status == Bool(false)
    ensures Update(Update(s, p), p) == Update(s, p)
  {
  }

  /**
   * After a stop (initialised, not powered, no error), repeating `status = true` before the
   * callback arrives is not idempotent: every update issues another `init`, and both
   * callbacks are then pending. Before the first callback of the mount `initialized` is
   * false, and such updates issue nothing.
   */
  lemma ResumeWhilePendingInitializesAgain(s: State, p: Props)
    requires s.mounted && s.error.None? && s.initialized && !s.power && p.status == Bool(true)
    ensures
      var t := Update(Update(s, p), p);
      && SameFields(s, t) && t.pending == s.pending + 2
      && Count(t.engine, InitCall) == Count(s.engine, InitCall) + 2
  {
    var c := Init(p.capture);
    EngineSnoc(s.engine, c);
    EngineSnoc(s.engine + [c], c);
  }

  /**
   * Two pending callbacks that both succeed start the engine twice in a row.
   */
  lemma TwoPendingInitsStartTwice(s: State, err1: Value, err2: Value)
    requires s.mounted && s.pending == 2 && !Truthy(err1) && !Truthy(err2)
    ensures
      var t := InitDone(InitDone(s, err1), err2);
      t.engine == s.engine + [Start] + [Start] && t.power && t.pending == 0
  {
  }

  /**
   * With a `status` that is not a boolean (which the prop types forbid), `power !== status`
   * always holds and `status === true` never does, so an update stops an engine that is
   * not running.
   */
  lemma NonBooleanStatusStopsIdleEngine(s: State, p: Props)
    requires Inv(s) && s.mounted && s.error.None? && s.initialized && !s.power && !p.status.Bool?
    ensures
      var t := Update(s, p);
      t.engine == s.engine + [Stop] && !StopsFollowStarts(t.engine)
  {
    EngineSnoc(s.engine, Stop);
  }

  /** An unmounted component whose handler is registered still hands detections to `onDetected`. */
  lemma DetectionAfterUnmount(s: State, data: Value)
    requires s.detectSubscribed && Detection.GetResponse(data).Normal?
    ensures
      var t := Detect(Unmount(s), data);
      !t.mounted && t.host == s.host + [DetectionDelivered(Detection.GetResponse(data).value)]
  {
  }
}
