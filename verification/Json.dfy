/** Decoded JSON, as Go's `any`. Numbers are reals: float64 rounding is not the
    point of anything proved here. */
module Json {
  datatype Value =
    | Null
    | Bool(flag: bool)
    | Number(number: real)
    | String(text: string)
    | Array(items: seq<Value>)
    | Object(fields: Fields)

  type Fields = map<string, Value>

  /** Go's `object[key]`: nil both for a missing key and for an explicit null. */
  function At(fields: Fields, key: string): Value {
    if key in fields then fields[key] else Null
  }

  /** `value, _ := v.(map[string]any)`: the empty map when `v` is no object. */
  function AsObject(v: Value): Fields {
    if v.Object? then v.fields else map[]
  }

  /** `value, _ := v.([]any)`. */
  function AsArray(v: Value): seq<Value> {
    if v.Array? then v.items else []
  }

  /** `value, _ := v.(string)`. */
  function AsText(v: Value): string {
    if v.String? then v.text else ""
  }

  /** Go's `int(f)` for a float64: truncation toward zero. */
  function Truncate(n: real): int {
    if n >= 0.0 then n.Floor else -((-n).Floor)
  }
}
