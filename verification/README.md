# Barcode scanner component — a Dafny model

The repository is a React component that puts a camera-fed barcode scanner on a page. It drives the
Quagga recognition engine through `init`, `start`, `stop`, `onProcessed` and `onDetected`. It also
reports results and failures to the host application through the `onDetected` and `onError` props.

The model covers the component's single source file, `src/index.jsx`:

- `js.dfy`: module `Js` holds the slice of JavaScript value semantics the component relies on:
  - values, with object literals as finite maps;
  - truthiness, and the `!`, `&&` and `||` operators;
  - property access and object spread.

  Module `Wrappers` holds `Option`.
- `detection.dfy`: module `Detection` holds `getResponse`, the mapping from the engine's raw
  detection payload to the `{result, meta}` object handed to `onDetected`. A nullish payload, or a
  nullish `codeResult`, throws a TypeError.
- `config.dfy`: module `Config` holds `defaultOption`, the shallow merge of the `option` prop over
  it, and the configuration record `initializeQuagga` passes to `init`.
- `lifecycle.dfy`: module `Lifecycle` holds the component's lifecycle as a state machine over values:
  - the state is the fields `mounted`, `loading`, `power`, `initialized` and `error`, plus the
    engine's side of it: the `init` callbacks it still holds, the detection subscription, and logs
    of the calls made on the engine and on the host;
  - there is one step function per lifecycle event;
  - traces of events are run through those steps;
  - an invariant is proved to hold in every reachable state;
  - further lemmas state what the code does in the cases that matter (see below).
- `component.dfy`: module `ScannerComponent` holds the component as a class whose methods update its
  fields in place. Each method is proved to perform exactly the matching `Lifecycle` step. The
  lifecycle methods (`ComponentDidMount`, `InitDone`, `ComponentDidUpdate`, `OnUpdate`,
  `ComponentWillUnmount`, `Detected`) are also proved to keep the invariant. The helpers
  `InitializeQuagga`, `Fail` and `Subscribe` are parts of those steps, and only the whole step is
  proved to keep the invariant. `Render` changes nothing.

Behaviour the model follows as the code has it:

- Unmounting only clears `mounted`. The engine is neither stopped nor unsubscribed.
- Detections are still delivered to `onDetected` after unmount.
- Mounting calls `init` whatever `status` is.
- `init` is issued before `onDetected` is checked. A missing handler records the error, but the
  engine is still initialised, and it is started when `init` succeeds.
- `onError` is called on every update for as long as `error` is set, not once.
- Nothing stops a second `init` while one is pending. Two successful callbacks call `start` twice.
- `status` is compared with `!==` and `===`. A non-boolean `status`, which the prop types forbid,
  makes every update after initialisation call `stop` while no error is set, even on an idle engine.
  While an error is set, the update reports it to `onError` instead.

## Model

| member | source | states |
|---|---|---|
| Detection.GetResponse | src/index.jsx:18-30 | the response exists exactly when neither the payload nor its `codeResult` is nullish; it has exactly the keys `result` and `meta`, and `meta` has exactly angle, direction, format and pattern; the five fields are `code`, `angle`, `direction`, `format`, `pattern` of the payload |
| Detection.ResponseRoundTrip | src/index.jsx:18-30 | every well-shaped response is produced, unchanged, from the payload that carries its fields |
| Detection.ResponseDeterminedByProjection | src/index.jsx:18-30 | two payloads give the same response if and only if they agree on the five fields read; every other payload field is dropped |
| Detection.Ean13Example | src/index.jsx:18-30 | a concrete EAN-13 payload with extra fields maps to the expected response |
| Config.DefaultOption | src/index.jsx:5-12 | exactly the five option keys; `numOfWorkers` is the core count when that is truthy and 4 otherwise; frequency 5, name `Live`, type `LiveStream`, readers `['ean_reader']` |
| Config.MergeOptions | src/index.jsx:145-148 | the merged keys are the union; every own field of `option` wins; every other default is kept |
| Config.DefaultOptionMergesToItself | src/index.jsx:145-148 | with the default `option` prop, which is `defaultOption` itself, the merge changes nothing |
| Config.EffectiveOptions | src/index.jsx:144-148 | the merged options always hold the five option keys |
| Config.FacingMode | src/index.jsx:159 | `'environment'` exactly when the device id is falsy, and `false` exactly when it is truthy |
| Config.Constraints | src/index.jsx:156-161 | exactly width, height, facingMode and deviceId, taken from the props, with the facing mode derived from the device |
| Config.InputStream | src/index.jsx:152-167 | exactly name, type, target, constraints and locator; name and type come from the merged options; the target is `#` plus the id; the debug canvas is off |
| Config.Decoder | src/index.jsx:169-172 | exactly readers and multiple; readers come from the merged options; multiple is false |
| Config.ConfigRecord | src/index.jsx:149-173 | exactly the five top-level keys; numOfWorkers and frequency come from the merged options; locate is true; the stream and decoder sections are as stated above |
| Config.BuildConfig | src/index.jsx:143-173 | exactly the five top-level keys; every field the engine receives, from the props and the core count: the five merged options, localisation on, one result per frame, no debug canvas, the `#` + id target, the dimensions and the device as given, and the rear camera exactly when no device is named |
| Config.ConfigReadBack | src/index.jsx:149-173 | every input of the configuration can be read back from it exactly, so nothing is lost |
| Config.ConfigDeterminedByInputs | src/index.jsx:143-176 | two prop sets give the same configuration if and only if they agree on its inputs; other option fields never reach the engine |
| Lifecycle.Initial | src/index.jsx:33-44 | mounted, loading, not powered, not initialised, no error, not yet mounted by React, nothing pending and no call made; only the loading line shows; the invariant holds |
| Lifecycle.IssueInit | src/index.jsx:143-176 | one more `init`, carrying the current capture props, and one more pending callback; no field of the component changes |
| Lifecycle.Fail | src/index.jsx:75-92 | while mounted, loading ends and the error is recorded; when unmounted, nothing changes |
| Lifecycle.Subscribe | src/index.jsx:69-80 | the processed-frame subscription, then the detection subscription when `onDetected` is a function, or else the recorded `onDetected()` error |
| Lifecycle.Mount | src/index.jsx:46-93 | no media support or a non-`barcode` type: no engine call and the matching error; otherwise `init`, then the subscriptions, with the missing-handler error recorded after `init`; `power` and `initialized` never change |
| Lifecycle.InitDone | src/index.jsx:51-67 | when unmounted, only the pending count drops; a truthy `err` is recorded and `start` is not called; otherwise one `start`, then running, initialised and not loading |
| Lifecycle.Update | src/index.jsx:103-141 | when unmounted, nothing; while an error is set, `onError` with it and nothing else; not initialised, or `status` equal to `power`: nothing; `status === true`: one more `init` and no field change; otherwise `stop`, loading, not powered, and the error cleared |
| Lifecycle.Unmount | src/index.jsx:99-101 | only `mounted` changes |
| Lifecycle.Detect | src/index.jsx:73-74 | once subscribed, each payload `getResponse` accepts reaches `onDetected`, mounted or not; a payload it rejects, or no subscription, delivers nothing; the component's fields, the engine log, the pending callbacks and the subscription never change |
| Lifecycle.Render | src/index.jsx:178-188 | the loading line shows exactly while loading; the target's display is `'none'` while loading and falsy otherwise |
| Lifecycle.InitialInv | src/index.jsx:33-44 | the constructed component satisfies the invariant, and its empty engine log has no stray stop |
| Lifecycle.MountKeepsInv | src/index.jsx:46-93 | mounting keeps the invariant and the stop discipline |
| Lifecycle.InitDoneKeepsInv | src/index.jsx:51-67 | the init callback keeps the invariant and the stop discipline |
| Lifecycle.UpdateKeepsInv | src/index.jsx:103-141 | an update keeps the invariant, and also the stop discipline when `status` is a boolean |
| Lifecycle.StepKeepsInv | src/index.jsx:46-141 | every lifecycle event keeps the invariant |
| Lifecycle.RunKeepsInv | src/index.jsx:46-141 | any sequence of events keeps the invariant, and also the stop discipline when every `status` is a boolean |
| Lifecycle.ReachableInv | src/index.jsx:33-141 | every state reachable from the constructor has: `power` implying initialised and not loading; an error implying not loading; `power` equal to whether the engine was last started; no more starts plus pending callbacks than inits; and, for boolean `status`, no stop without a start before it |
| Lifecycle.StopsBoundedByStarts | src/index.jsx:59-131 | in a log where every `stop` follows a `start`, the stops (plus one while running) never outnumber the starts |
| Lifecycle.UnmountedMountIsQuiet | src/index.jsx:46-93 | a mount while unmounted changes no field and neither starts nor stops the engine |
| Lifecycle.UnmountedStepIsQuiet | src/index.jsx:51-141 | after unmount, no single event changes a field, starts or stops the engine, or calls `onError` |
| Lifecycle.UnmountedRunIsQuiet | src/index.jsx:51-141 | the same for any sequence of events, including callbacks of inits that were still pending |
| Lifecycle.FailedGateKeepsEngineIdle | src/index.jsx:49-50 | while no mount passes both checks, the engine is never initialised or started |
| Lifecycle.UnsupportedMediaNeverInitializes | src/index.jsx:14-16 | without media support no run from the constructor ever calls `init` or `start` |
| Lifecycle.MountThenInitSucceeds | src/index.jsx:46-67 | a mount whose `init` succeeds: one init, one start, running, not loading, and the target shown |
| Lifecycle.MountThenInitFails | src/index.jsx:51-58 | a mount whose `init` fails: the error is kept, `start` is never called, and each of two later updates calls `onError` again |
| Lifecycle.MissingHandlerStillStartsEngine | src/index.jsx:51-80 | without an `onDetected` function the error is recorded, yet `init` was issued and a successful callback starts the engine |
| Lifecycle.StopIsIdempotent | src/index.jsx:111-137 | while no error is set, a repeated `status = false` update changes nothing the second time |
| Lifecycle.ResumeWhilePendingInitializesAgain | src/index.jsx:111-129 | after a stop (initialised, not powered, no error), two `status = true` updates before the callback issue two inits, with two callbacks pending |
| Lifecycle.TwoPendingInitsStartTwice | src/index.jsx:113-127 | two pending successful callbacks call `start` twice in a row |
| Lifecycle.NonBooleanStatusStopsIdleEngine | src/index.jsx:111-131 | a non-boolean `status` stops an engine that is not running, breaking the stop discipline |
| Lifecycle.DetectionAfterUnmount | src/index.jsx:99-101 | a registered handler still delivers detections after unmount |
| ScannerComponent.Component.constructor | src/index.jsx:33-44 | mounted, loading, not powered, not initialised, no error, no call made; the invariant holds |
| ScannerComponent.Component.InitializeQuagga | src/index.jsx:143-176 | performs `IssueInit` on the fields and logs |
| ScannerComponent.Component.Fail | src/index.jsx:75-92 | performs `Lifecycle.Fail` |
| ScannerComponent.Component.Subscribe | src/index.jsx:69-80 | performs `Lifecycle.Subscribe` |
| ScannerComponent.Component.ComponentDidMount | src/index.jsx:46-93 | performs `Lifecycle.Mount` and keeps the invariant and the stop discipline |
| ScannerComponent.Component.InitDone | src/index.jsx:51-67 | performs `Lifecycle.InitDone` and keeps the invariant and the stop discipline |
| ScannerComponent.Component.ComponentDidUpdate | src/index.jsx:95-97 | performs `Lifecycle.Update` and keeps the invariant, and the stop discipline for a boolean `status` |
| ScannerComponent.Component.OnUpdate | src/index.jsx:103-141 | performs `Lifecycle.Update` and keeps the invariant, and the stop discipline for a boolean `status` |
| ScannerComponent.Component.ComponentWillUnmount | src/index.jsx:99-101 | performs `Lifecycle.Unmount`, changing `mounted` only, and keeps the invariant |
| ScannerComponent.Component.Detected | src/index.jsx:74 | performs `Lifecycle.Detect`, changing only the host log |
| ScannerComponent.Component.Render | src/index.jsx:178-185 | the view of `Lifecycle.Render`: the loading line exactly while `loading` |

## Left out

- The JSX markup, `className` and `style` are left out. `render` is kept only as the loading line and
  the target's `display` style.
- PropTypes checking and `defaultProps` resolution are left out. The model takes the props as
  resolved. Of `onDetected` it keeps only whether it is a function, and `onError` is taken to be one.
- The body of the `onProcessed` handler is left out, because it mutates the engine's overlay DOM
  node. The subscription is kept as a log entry.
- `document.querySelector` is a DOM lookup. The configuration keeps the selector string `#` + id in
  its place.
- The module-level probes (`mediaDevices`, `getUserMedia`, `hardwareConcurrency`) become a
  `Platform` parameter fixed for the component.
- The order of object properties is not modelled, because objects are finite maps. Every object
  the component builds is a literal, so its property order is fixed by the source whatever the
  input. Nothing in the component reads that order.
- Numbers are reals, so NaN is not modelled. NaN would be falsy for `hardwareConcurrency`.
- Object spread of a string or an array is left out. JavaScript copies their index properties, but
  the model gives them no properties. The `option` prop is an object by its prop type.
- The engine's asynchrony and its frame decoding are left out. A callback, a detection and a
  React lifecycle call are events in a sequence.
- The TypeError that `getResponse` throws into the engine's handler is left out. The model delivers
  nothing for that payload, and what the engine does with the exception is outside the model.
- The `init` log records the capture props, not the configuration record. `Lifecycle.ConfigOf` gives
  the record that `init` receives for any logged call, and module `Config` states its contents.
- `Lifecycle.Step` ignores a second mount and a callback with no `init` pending. In production
  rendering React mounts an instance once, and the engine calls back only for an `init` it was given.
- ScannerComponent.Component.ComponentDidMount: requires that it has not run before, because in
  production rendering React calls it once per instance. React's development strict mode mounts,
  unmounts and mounts the same instance again. `mounted` is set only in the constructor, so the
  second mount's `init` callback would then be ignored. That mode is not modelled.
- Lifecycle.RunKeepsInv: the stop discipline (no `stop` unless the engine was last started) is proved
  only for boolean `status`. `Lifecycle.NonBooleanStatusStopsIdleEngine` shows that it fails otherwise.
