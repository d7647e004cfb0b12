/** JSON values as `serde_json::Value` holds them. Integers and other numbers are kept apart because
    `as_i64` and `as_u64` answer only for integers in range. */
module Json {
  import opened Prelude

  datatype Value =
    | Null
    | Bool(b: bool)
    | Int(n: int)
    | Float(r: real)
    | Str(s: string)
    | Array(items: seq<Value>)
    | Object(fields: map<string, Value>)
  {
    function Get(key: string): Option<Value> {
      if Object? && key in fields then Some(fields[key]) else None
    }

    function GetStr(key: string): Option<string> {
      match Get(key)
      case Some(Str(s)) => Some(s)
      case _ => None
    }

    function GetBool(key: string): Option<bool> {
      match Get(key)
      case Some(Bool(b)) => Some(b)
      case _ => None
    }

    function GetU64(key: string): Option<nat> {
      match Get(key)
      case Some(Int(n)) => if 0 <= n <= U64_MAX then Some(n) else None
      case _ => None
    }

    // `as_i64` followed by `i32::try_from`; every i32 is an i64, so one range test does both.
    function GetI32(key: string): Option<int> {
      match Get(key)
      case Some(Int(n)) => if -0x8000_0000 <= n < 0x8000_0000 then Some(n) else None
      case _ => None
    }
  }
}
