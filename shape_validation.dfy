/** The structural checks of a loaded configuration: `validateR2AConfig`
    in react2app, `validateN2AConfig` in next2app (both throw on a value
    that is not an object) and `validateR2AConfig` in the cli package
    (which answers `false` instead). The three share one predicate. */
module ShapeValidation {
  import opened Wrappers
  import opened Text
  import opened Js
  import opened Errors

  /** `ERROR_MESSAGES.CONFIG.PARSE_ERROR` with code `CONFIG_PARSE_ERROR`. */
  const ParseError: Error := Error(ConfigErr, "R2A config file parse error", ConfigParseError, None)

  /** `k in v` for a value whose `typeof` is `"object"` and that is not
      `null`: an own key of an object, an index or `length` of an array. */
  predicate HasKey(v: Value, k: string) {
    match v
    case Obj(m) => k in m
    case Arr(xs) => k == "length" || (IsIndexKey(k) && ParseNat(k) < |xs|)
    case _ => false
  }

  /** `typeof x === "string" || x === undefined`. */
  predicate StringOrUndefined(v: Value) {
    v.Str? || v.Undefined?
  }

  /** The shape all three checks accept. */
  predicate WellShaped(config: Value) {
    && HasKey(config, "ios")
    && StringOrUndefined(Get(config, "entry"))
    && HasKey(config, "android")
    && StringOrUndefined(Get(config, "output"))
  }

  /** `!config || typeof config !== "object"`. */
  predicate NotAnObject(config: Value) {
    !Truthy(config) || !IsObjectType(config)
  }

  /** react2app `validateR2AConfig` and next2app `validateN2AConfig`,
      which have the same body. */
  function ValidateShape(config: Value): Result<bool, Error> {
    if NotAnObject(config) then Err(ParseError)
    else Ok(WellShaped(config))
  }

  /** cli `validateR2AConfig`: the guard appears twice and the final
      `return true` follows a `return`, so neither changes the result. */
  function ValidateShapeCli(config: Value): bool {
    if NotAnObject(config) then false
    else if NotAnObject(config) then false
    else WellShaped(config)
  }

  /** The throwing checks fail with `PARSE_ERROR` exactly on values that
      are falsy or not objects: `undefined`, `null`, booleans, numbers and
      strings. Otherwise they answer whether `ios` and `android` are keys
      and `entry` and `output` are each a string or `undefined`. */
  lemma ValidateShapeSpec(config: Value)
    ensures ValidateShape(config).Err? <==> !(config.Obj? || config.Arr?)
    ensures ValidateShape(config).Err? ==> ValidateShape(config).error == ParseError
    ensures config.Obj? ==> ValidateShape(config) == Ok(
      && "ios" in config.fields && "android" in config.fields
      && StringOrUndefined(Get(config, "entry")) && StringOrUndefined(Get(config, "output")))
  {
  }

  /** No array passes: `"ios"` is not an index. */
  lemma ArraysAreRejected(xs: seq<Value>)
    ensures ValidateShape(Arr(xs)) == Ok(false)
    ensures !ValidateShapeCli(Arr(xs))
  {
    assert "ios"[0] == 'i' && !IsDigit('i');
  }

  /** The cli check answers `false` exactly where the others throw, and
      agrees with them everywhere else. */
  lemma CliAgrees(config: Value)
    ensures ValidateShape(config).Err? ==> !ValidateShapeCli(config)
    ensures ValidateShape(config).Ok? ==> ValidateShapeCli(config) == ValidateShape(config).value
  {
  }

  /** Only the presence of `ios` and `android` is checked, not their
      values. */
  lemma PlatformValuesIgnored(m: map<string, Value>, ios: Value, android: Value)
    requires "ios" in m && "android" in m
    ensures ValidateShape(Obj(m["ios" := ios]["android" := android])) == ValidateShape(Obj(m))
  {
    var m2 := m["ios" := ios]["android" := android];
    assert Get(Obj(m2), "entry") == Get(Obj(m), "entry");
    assert Get(Obj(m2), "output") == Get(Obj(m), "output");
  }

  /** Keys other than `ios`, `android`, `entry` and `output` do not affect
      the result. */
  lemma UnrelatedKeysIgnored(m: map<string, Value>, k: string, v: Value)
    requires k !in {"ios", "android", "entry", "output"}
    ensures ValidateShape(Obj(m[k := v])) == ValidateShape(Obj(m))
    ensures ValidateShapeCli(Obj(m[k := v])) == ValidateShapeCli(Obj(m))
  {
    assert Get(Obj(m[k := v]), "entry") == Get(Obj(m), "entry");
    assert Get(Obj(m[k := v]), "output") == Get(Obj(m), "output");
  }
}
