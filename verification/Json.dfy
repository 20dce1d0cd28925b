/** The JSON values that settings and schemas are made of; numbers are whole. */
module Json {
  import opened Prelude

  datatype Value =
    | Null
    | Bool(b: bool)
    | Num(n: int)
    | Str(s: string)
    | Arr(items: seq<Value>)
    | Obj(fields: map<string, Value>)

  type Settings = map<string, Value>

  /** `value[key]`: null for a missing field and for anything that is not an object. */
  function At(v: Value, key: string): Value {
    if v.Obj? && key in v.fields then v.fields[key] else Null
  }

  /** `value.get(key)`, which tells a missing field from a null one. */
  function Field(v: Value, key: string): Option<Value> {
    if v.Obj? then Get(v.fields, key) else None
  }

  function Or(v: Option<Value>, default: Value): Value { if v.Some? then v.value else default }

  function AsBool(v: Value, default: bool): bool { if v.Bool? then v.b else default }

  function AsStr(v: Value, default: string): string { if v.Str? then v.s else default }
}
