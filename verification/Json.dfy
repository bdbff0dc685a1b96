/**
 JSON values as serde_json holds them. An object is a map, so two objects with the same
 entries are equal; code that walks an object's entries is modelled for every order of them.
 */
module Json {
  import opened Wrappers

  /** Integers and floats are different numbers; a float is taken as an exact real. */
  datatype Number = Int(i: int) | Float(r: real)

  datatype Value =
    | Null
    | Bool(b: bool)
    | Num(n: Number)
    | Str(s: string)
    | Arr(items: seq<Value>)
    | Obj(fields: map<string, Value>)
  {
    /** `Value::get` with a key: anything but an object has no entries. */
    function Get(key: string): Option<Value> {
      if Obj? && key in fields then Some(fields[key]) else None
    }
  }

  function Fields(v: Value): map<string, Value> {
    if v.Obj? then v.fields else map[]
  }

  function Items(v: Value): seq<Value> {
    if v.Arr? then v.items else []
  }

  /** The strings among the items, as `filter_map(Value::as_str)`. */
  function Strings(items: seq<Value>): set<string> {
    set v | v in items && v.Str? :: v.s
  }
}
