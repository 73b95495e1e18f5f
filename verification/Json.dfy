/** JSON values as the provider crates handle them: already parsed, objects keyed by name. */
module Json {
  import opened Options

  datatype Json =
    | Null
    | Bool(b: bool)
    | Num(n: int)
    | Str(s: string)
    | Arr(items: seq<Json>)
    | Obj(fields: map<string, Json>)
  {
    /** `value.get(key)`: the field of an object, nothing for any other value. */
    function Get(key: string): Option<Json> {
      if Obj? && key in fields then Some(fields[key]) else None
    }

    /** `value.get(key).and_then(as_str)`. */
    function GetStr(key: string): Option<string> {
      match Get(key)
      case Some(Str(s)) => Some(s)
      case _ => None
    }

    /** `value.get(key).and_then(as_bool)`. */
    function GetBool(key: string): Option<bool> {
      match Get(key)
      case Some(Bool(b)) => Some(b)
      case _ => None
    }

    /** `value.get(key).and_then(as_array)`. */
    function GetArr(key: string): Option<seq<Json>> {
      match Get(key)
      case Some(Arr(items)) => Some(items)
      case _ => None
    }
  }

  const EMPTY_OBJECT: Json := Obj(map[])
}
