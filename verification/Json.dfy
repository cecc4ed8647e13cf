/** Decoded JSON documents as Go's `interface{}` trees, with the type assertions the proxy applies to them. */
module Json {
  import opened Strings

  /**
   * `Num` is a decoded JSON number (a Go float64), `Int` a Go int the proxy put into a tree itself. They are
   * different dynamic types, and `IntVal` only accepts the first.
   */
  datatype Value =
    | Null
    | Bool(b: bool)
    | Num(n: real)
    | Int(i: int)
    | Str(s: string)
    | Arr(items: seq<Value>)
    | Obj(fields: map<string, Value>)

  type Object = map<string, Value>

  /** `m[k]`: a missing key reads as nil. */
  function Get(m: Object, k: string): Value {
    if k in m then m[k] else Null
  }

  /** `m, _ := v.(map[string]interface{})`: a failed assertion leaves the nil map, in which every key is missing. */
  function AsObject(v: Value): Object {
    if v.Obj? then v.fields else map[]
  }

  /** `a, _ := v.([]interface{})` */
  function AsArray(v: Value): seq<Value> {
    if v.Arr? then v.items else []
  }

  function First(vs: seq<Value>): Value {
    if vs == [] then Null else vs[0]
  }

  function StrVal(v: Value, default: string): string {
    if v.Str? then v.s else default
  }

  /** `int(f)` truncates toward zero. */
  function IntVal(v: Value): int {
    if v.Num? then (if v.n >= 0.0 then v.n.Floor else -(-v.n).Floor) else 0
  }
}
