/**
 * `getResponse`: the mapping from the engine's raw detection payload
 * `{codeResult: {code, direction, format, ...}, angle, pattern, ...}`
 * to the `{result, meta: {angle, direction, format, pattern}}` handed to `onDetected`.
 */
module Detection {
  import opened Js

  const ResponseKeys: set<string> := {"result", "meta"}
  const MetaKeys: set<string> := {"angle", "direction", "format", "pattern"}

  /** The shape of every response: exactly `result` and `meta`, and `meta` holds exactly the four fields. */
  predicate IsResponse(v: Value) {
    && v.Obj?
    && v.props.Keys == ResponseKeys
    && v.props["meta"].Obj?
    && v.props["meta"].props.Keys == MetaKeys
  }

  /** The five payload fields a response is made of, in the order code, angle, direction, format, pattern. */
  function Projection(data: Value): seq<Value> {
    var codeResult := Get(data, "codeResult");
    [Get(codeResult, "code"), Get(data, "angle"), Get(codeResult, "direction"),
     Get(codeResult, "format"), Get(data, "pattern")]
  }

  /**
   * The arrow function `getResponse`. Its parameter is destructured, so a nullish
   * payload or a nullish `codeResult` throws a TypeError; a missing field is
   * `undefined` in the response, and every other field of the payload is dropped.
   */
  function GetResponse(data: Value): (r: Completion)
    ensures r.Normal? <==> !Nullish(data) && !Nullish(Get(data, "codeResult"))
    ensures r.Normal? ==> IsResponse(r.value)
    ensures r.Normal? ==>
      var meta := Get(r.value, "meta");
      [Get(r.value, "result"), Get(meta, "angle"), Get(meta, "direction"),
       Get(meta, "format"), Get(meta, "pattern")] == Projection(data)
  {
    if Nullish(data) || Nullish(Get(data, "codeResult")) then
      TypeError
    else
      var codeResult := Get(data, "codeResult");
      Normal(Obj(map[
        "result" := Get(codeResult, "code"),
        "meta" := Obj(map[
          "angle" := Get(data, "angle"),
          "direction" := Get(codeResult, "direction"),
          "format" := Get(codeResult, "format"),
          "pattern" := Get(data, "pattern")])]))
  }

  /** A minimal raw payload carrying the fields of a response: the inverse direction of `GetResponse`. */
  function ToPayload(response: Value): Value {
    var meta := Get(response, "meta");
    Obj(map[
      "codeResult" := Obj(map[
        "code" := Get(response, "result"),
        "direction" := Get(meta, "direction"),
        "format" := Get(meta, "format")]),
      "angle" := Get(meta, "angle"),
      "pattern" := Get(meta, "pattern")])
  }

  /** Every response is produced, unchanged, from the payload that carries its fields. */
  lemma ResponseRoundTrip(response: Value)
    requires IsResponse(response)
    ensures GetResponse(ToPayload(response)) == Normal(response)
  {
    var meta := response.props["meta"];
    var payload := ToPayload(response);
    var codeResult := Get(payload, "codeResult");
    var rebuiltMeta := map[
      "angle" := Get(payload, "angle"),
      "direction" := Get(codeResult, "direction"),
      "format" := Get(codeResult, "format"),
      "pattern" := Get(payload, "pattern")];
    assert rebuiltMeta == meta.props;
    var rebuilt := map["result" := Get(codeResult, "code"), "meta" := Obj(rebuiltMeta)];
    assert rebuilt == response.props;
  }

  /** Two payloads give the same response exactly when they agree on the five fields it is made of. */
  lemma ResponseDeterminedByProjection(a: Value, b: Value)
    requires GetResponse(a).Normal? && GetResponse(b).Normal?
    ensures GetResponse(a) == GetResponse(b) <==> Projection(a) == Projection(b)
  {
    if GetResponse(a) == GetResponse(b) {
      var r := GetResponse(a).value;
      var meta := Get(r, "meta");
      assert Projection(a) == [Get(r, "result"), Get(meta, "angle"), Get(meta, "direction"),
                               Get(meta, "format"), Get(meta, "pattern")];
    }
  }

  /** The worked example of an EAN-13 detection: nothing is lost, nothing is added. */
  lemma Ean13Example()
    ensures
      var pattern := Arr([Num(0.0), Num(1.0), Num(1.0), Num(0.0)]);
      var payload := Obj(map[
        "codeResult" := Obj(map["code" := Str("012345678905"), "direction" := Num(1.0),
                                "format" := Str("ean_13"), "decodedCodes" := Arr([])]),
        "angle" := Num(3.2),
        "pattern" := pattern,
        "box" := Arr([])]);
      GetResponse(payload) == Normal(Obj(map[
        "result" := Str("012345678905"),
        "meta" := Obj(map["angle" := Num(3.2), "direction" := Num(1.0),
                          "format" := Str("ean_13"), "pattern" := pattern])]))
  {
  }
}
