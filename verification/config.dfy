/**
 * The configuration half of `initializeQuagga`: the shallow merge of the `option`
 * prop over `defaultOption`, and the configuration record handed to the engine's `init`.
 */
module Config {
  import opened Js

  /** The fields of `defaultOption`. */
  const OptionKeys: set<string> := {"frequency", "numOfWorkers", "name", "type", "readers"}

  /** The top-level fields of the configuration record. */
  const ConfigKeys: set<string> := {"numOfWorkers", "locate", "inputStream", "frequency", "decoder"}

  /**
   * `defaultOption`, evaluated once when the module loads: the number of workers is the
   * platform's `hardwareConcurrency`, or 4 when that is falsy (absent or zero).
   */
  function DefaultOption(hardwareConcurrency: Value): (d: map<string, Value>)
    ensures d.Keys == OptionKeys
    ensures Truthy(hardwareConcurrency) ==> d["numOfWorkers"] == hardwareConcurrency
    ensures !Truthy(hardwareConcurrency) ==> d["numOfWorkers"] == Num(4.0)
    ensures d["frequency"] == Num(5.0) && d["name"] == Str("Live") && d["type"] == Str("LiveStream")
    ensures d["readers"] == Arr([Str("ean_reader")])
  {
    map[
      "frequency" := Num(5.0),
      "numOfWorkers" := Or(hardwareConcurrency, Num(4.0)),
      "name" := Str("Live"),
      "type" := Str("LiveStream"),
      "readers" := Arr([Str("ean_reader")])]
  }

  /**
   * `{...defaultOption, ...option}`: every own field of `option` wins, every other field
   * of the defaults is kept, and nothing else appears.
   */
  function MergeOptions(defaults: map<string, Value>, option: Value): (opts: map<string, Value>)
    ensures opts.Keys == defaults.Keys + OwnProperties(option).Keys
    ensures forall k :: k in OwnProperties(option) ==> opts[k] == OwnProperties(option)[k]
    ensures forall k :: k in defaults && k !in OwnProperties(option) ==> opts[k] == defaults[k]
  {
    defaults + OwnProperties(option)
  }

  /** The props `initializeQuagga` reads. */
  datatype CaptureProps = CaptureProps(id: string, width: Value, height: Value, deviceId: Value, option: Value)

  /** `!deviceId && 'environment'`: the rear camera when no device is named, otherwise `false`. */
  function FacingMode(deviceId: Value): (f: Value)
    ensures f == Str("environment") <==> !Truthy(deviceId)
    ensures f == Bool(false) <==> Truthy(deviceId)
  {
    And(Not(deviceId), Str("environment"))
  }

  /** The five option fields are all present. */
  predicate HasOptionKeys(opts: map<string, Value>) {
    "frequency" in opts && "numOfWorkers" in opts && "name" in opts && "type" in opts && "readers" in opts
  }

  /** `inputStream.constraints`: dimensions and device as given, and the facing mode derived from the device. */
  function Constraints(p: CaptureProps): (c: Value)
    ensures c.Obj? && c.props.Keys == {"width", "height", "facingMode", "deviceId"}
    ensures Get(c, "width") == p.width && Get(c, "height") == p.height && Get(c, "deviceId") == p.deviceId
    ensures Get(c, "facingMode") == FacingMode(p.deviceId)
  {
    Obj(map[
      "width" := p.width,
      "height" := p.height,
      "facingMode" := FacingMode(p.deviceId),
      "deviceId" := p.deviceId])
  }

  /** `inputStream`: the stream name and type from the merged options, the target selector, and the debug canvas off. */
  function InputStream(opts: Value, p: CaptureProps): (stream: Value)
    ensures stream.Obj? && stream.props.Keys == {"name", "type", "target", "constraints", "locator"}
    ensures Get(stream, "name") == Get(opts, "name") && Get(stream, "type") == Get(opts, "type")
    ensures Get(stream, "target") == Str("#" + p.id)
    ensures Get(stream, "constraints") == Constraints(p)
    ensures Get(Get(Get(stream, "locator"), "debug"), "showCanvas") == Bool(false)
  {
    Obj(map[
      "name" := Get(opts, "name"),
      "type" := Get(opts, "type"),
      "target" := Str("#" + p.id),
      "constraints" := Constraints(p),
      "locator" := Obj(map["debug" := Obj(map["showCanvas" := Bool(false)])])])
  }

  /** `decoder`: the readers from the merged options, one result per frame. */
  function Decoder(opts: Value): (decoder: Value)
    ensures decoder.Obj? && decoder.props.Keys == {"readers", "multiple"}
    ensures Get(decoder, "readers") == Get(opts, "readers") && Get(decoder, "multiple") == Bool(false)
  {
    Obj(map["readers" := Get(opts, "readers"), "multiple" := Bool(false)])
  }

  /** The options `initializeQuagga` works from: the `option` prop merged over `defaultOption`. */
  function EffectiveOptions(p: CaptureProps, hardwareConcurrency: Value): (opts: map<string, Value>)
    ensures HasOptionKeys(opts)
  {
    MergeOptions(DefaultOption(hardwareConcurrency), p.option)
  }

  /**
   * The configuration record `initializeQuagga` builds from the merged options `opts`:
   * the worker count and the sampling frequency from `opts`, localisation always on, and
   * the stream and decoder sections above.
   */
  function ConfigRecord(opts: Value, p: CaptureProps): (config: Value)
    ensures config.Obj? && config.props.Keys == ConfigKeys
    ensures Get(config, "numOfWorkers") == Get(opts, "numOfWorkers")
    ensures Get(config, "frequency") == Get(opts, "frequency")
    ensures Get(config, "locate") == Bool(true)
    ensures Get(config, "inputStream") == InputStream(opts, p)
    ensures Get(config, "decoder") == Decoder(opts)
  {
    Obj(map[
      "numOfWorkers" := Get(opts, "numOfWorkers"),
      "locate" := Bool(true),
      "inputStream" := InputStream(opts, p),
      "frequency" := Get(opts, "frequency"),
      "decoder" := Decoder(opts)])
  }

  /**
   * The configuration passed to `Quagga.init`, from the props and the platform's core count.
   * The render target, which the source looks up with `document.querySelector('#' + id)`,
   * is kept as that selector. What reaches the engine: the five options as merged,
   * localisation on, one result per frame, no debug canvas, the dimensions and the device
   * as given, and the rear camera exactly when no device is named.
   */
  function BuildConfig(p: CaptureProps, hardwareConcurrency: Value): (config: Value)
    ensures
      var opts := EffectiveOptions(p, hardwareConcurrency);
      var stream := Get(config, "inputStream");
      var constraints := Get(stream, "constraints");
      && config.Obj? && config.props.Keys == ConfigKeys
      && Get(config, "numOfWorkers") == opts["numOfWorkers"]
      && Get(config, "frequency") == opts["frequency"]
      && Get(stream, "name") == opts["name"]
      && Get(stream, "type") == opts["type"]
      && Get(Get(config, "decoder"), "readers") == opts["readers"]
      && Get(config, "locate") == Bool(true)
      && Get(Get(config, "decoder"), "multiple") == Bool(false)
      && Get(Get(Get(stream, "locator"), "debug"), "showCanvas") == Bool(false)
      && Get(stream, "target") == Str("#" + p.id)
      && Get(constraints, "width") == p.width
      && Get(constraints, "height") == p.height
      && Get(constraints, "deviceId") == p.deviceId
      && (Get(constraints, "facingMode") == Str("environment") <==> !Truthy(p.deviceId))
      && (Get(constraints, "facingMode") == Bool(false) <==> Truthy(p.deviceId))
  {
    ConfigRecord(Obj(EffectiveOptions(p, hardwareConcurrency)), p)
  }

  /** Everything the configuration record depends on. */
  datatype ConfigInputs = ConfigInputs(
    numOfWorkers: Value, name: Value, streamType: Value, frequency: Value, readers: Value,
    width: Value, height: Value, deviceId: Value, id: string)

  /** The inputs as the props and the platform give them: the five merged options, the dimensions, the device and the id. */
  function Inputs(p: CaptureProps, hardwareConcurrency: Value): ConfigInputs {
    var opts := EffectiveOptions(p, hardwareConcurrency);
    ConfigInputs(opts["numOfWorkers"], opts["name"], opts["type"], opts["frequency"], opts["readers"],
                 p.width, p.height, p.deviceId, p.id)
  }

  /** The inputs as they can be read back out of a configuration record. */
  function ReadBack(config: Value): ConfigInputs {
    var stream := Get(config, "inputStream");
    var constraints := Get(stream, "constraints");
    var target := Get(stream, "target");
    ConfigInputs(
      Get(config, "numOfWorkers"), Get(stream, "name"), Get(stream, "type"),
      Get(config, "frequency"), Get(Get(config, "decoder"), "readers"),
      Get(constraints, "width"), Get(constraints, "height"), Get(constraints, "deviceId"),
      if target.Str? && |target.s| > 0 then target.s[1..] else "")
  }

  /** Nothing the configuration depends on is lost: it can be read back exactly. */
  lemma ConfigReadBack(p: CaptureProps, hardwareConcurrency: Value)
    ensures ReadBack(BuildConfig(p, hardwareConcurrency)) == Inputs(p, hardwareConcurrency)
  {
    var target := Get(Get(BuildConfig(p, hardwareConcurrency), "inputStream"), "target");
    assert target.s[1..] == p.id by {
      assert target.s == "#" + p.id;
    }
  }

  /**
   * Two prop sets give the same configuration exactly when they agree on its inputs; in
   * particular option fields other than the five known ones never reach the engine.
   */
  lemma ConfigDeterminedByInputs(p: CaptureProps, hcP: Value, q: CaptureProps, hcQ: Value)
    ensures BuildConfig(p, hcP) == BuildConfig(q, hcQ) <==> Inputs(p, hcP) == Inputs(q, hcQ)
  {
    ConfigReadBack(p, hcP);
    ConfigReadBack(q, hcQ);
    if Inputs(p, hcP) == Inputs(q, hcQ) {
      var a := BuildConfig(p, hcP);
      var b := BuildConfig(q, hcQ);
      assert a.props.Keys == b.props.Keys;
      assert forall k | k in a.props :: a.props[k] == b.props[k];
    }
  }

  /** The default `option` prop is `defaultOption` itself, and merging it over itself changes nothing. */
  lemma DefaultOptionMergesToItself(hardwareConcurrency: Value)
    ensures MergeOptions(DefaultOption(hardwareConcurrency), Obj(DefaultOption(hardwareConcurrency)))
         == DefaultOption(hardwareConcurrency)
  {
  }
}
