/** JavaScript values as the tools see them after `JSON.parse` or after
    loading a configuration module, with the few language rules the core
    depends on: truthiness, `typeof x === "object"`, property reads, and
    what object spread (`{...x}`) copies. */
module Js {
  import opened Wrappers
  import opened Text

  /** A JavaScript value. Numbers are integers here; objects map their own
      keys to values (the order of keys is not modelled). */
  datatype Value =
    | Undefined
    | Null
    | Bool(b: bool)
    | Num(n: int)
    | Str(s: string)
    | Arr(items: seq<Value>)
    | Obj(fields: map<string, Value>)

  /** `if (v)`: `undefined`, `null`, `false`, `0` and `""` are falsy. */
  predicate Truthy(v: Value) {
    match v
    case Undefined => false
    case Null => false
    case Bool(b) => b
    case Num(n) => n != 0
    case Str(s) => s != ""
    case Arr(_) => true
    case Obj(_) => true
  }

  /** `typeof v === "object"`: objects, arrays and `null`. */
  predicate IsObjectType(v: Value) {
    v.Null? || v.Arr? || v.Obj?
  }

  /** `v == null`: reading a property of such a value throws a TypeError. */
  predicate IsNullish(v: Value) {
    v.Undefined? || v.Null?
  }

  /** A key that names an array index: a canonical decimal numeral. */
  predicate IsIndexKey(k: string) {
    |k| >= 1 && AllDigits(k) && (k[0] != '0' || k == "0")
  }

  /** `v[k]` for a value that is not `null` or `undefined`: an own field of
      an object, an element or the length of an array, a character or the
      length of a string, and `undefined` for everything else. */
  function Get(v: Value, k: string): Value {
    match v
    case Obj(m) => if k in m then m[k] else Undefined
    case Arr(xs) =>
      if k == "length" then Num(|xs|)
      else if IsIndexKey(k) && ParseNat(k) < |xs| then xs[ParseNat(k)]
      else Undefined
    case Str(s) =>
      if k == "length" then Num(|s|)
      else if IsIndexKey(k) && ParseNat(k) < |s| then Str([s[ParseNat(k)]])
      else Undefined
    case _ => Undefined
  }

  /** `v?.[k]`: `undefined` when `v` is `null` or `undefined`. */
  function GetOpt(v: Value, k: string): Value {
    if IsNullish(v) then Undefined else Get(v, k)
  }

  /** The index keys of `xs` from `from` on, each mapped to its element. */
  function IndexFields(xs: seq<Value>, from: nat): map<string, Value>
    decreases |xs| - from
  {
    if from >= |xs| then map[] else IndexFields(xs, from + 1)[NatToString(from) := xs[from]]
  }

  /** The own enumerable properties that `{...v}` copies: the fields of an
      object, the indices of an array or of a string, and nothing for
      `null`, `undefined`, booleans and numbers. */
  function Spread(v: Value): (m: map<string, Value>)
    ensures v.Obj? ==> m == v.fields
    ensures !(v.Obj? || v.Arr? || v.Str?) ==> m == map[]
  {
    match v
    case Obj(fields) => fields
    case Arr(xs) => IndexFields(xs, 0)
    case Str(s) => IndexFields(seq(|s|, i requires 0 <= i < |s| => Str([s[i]])), 0)
    case _ => map[]
  }

  /** The key `k` as it ends up in a written JSON file after `{..., k: o}`:
      present with the value, or absent when the value is `undefined`
      (`JSON.stringify` drops such keys). */
  function Put(m: map<string, Value>, k: string, o: Option<Value>): (r: map<string, Value>)
    ensures o.Some? ==> k in r && r[k] == o.value
    ensures o.None? ==> k !in r
  {
    if o.Some? then m[k := o.value] else m - {k}
  }

  /** A string field of a configuration: a string, or `undefined`. */
  function OptStr(o: Option<string>): Option<Value> {
    if o.Some? then Some(Str(o.value)) else None
  }

  /** A number field of a configuration: a number, or `undefined`. */
  function OptNum(o: Option<int>): Option<Value> {
    if o.Some? then Some(Num(o.value)) else None
  }
}
