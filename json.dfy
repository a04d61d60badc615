/** The JSON-like values a request body, a query string and a response carry. */
module Json {
  import opened Wrappers
  import opened Props

  /** Numbers are integers here; an object is its ordered property list. */
  datatype Value = Null | Bool(b: bool) | Num(n: int) | Str(s: string) | Obj(fields: Props<Value>)

  /** JavaScript truthiness: `null`, `false`, `0` and `""` are falsy, every object is truthy. */
  predicate Truthy(v: Value)
  {
    match v
    case Null => false
    case Bool(b) => b
    case Num(n) => n != 0
    case Str(s) => s != ""
    case Obj(_) => true
  }

  /**
   * `t[p0][p1]...[pn]`: every step but the last must land on an object (a
   * primitive has no properties here); the empty path names `t` itself.
   */
  function GetPath(t: Props<Value>, path: seq<string>): Option<Value>
    decreases |path|
  {
    if path == [] then Some(Obj(t))
    else match Get(t, path[0])
      case None => None
      case Some(v) =>
        if |path| == 1 then Some(v)
        else if v.Obj? then GetPath(v.fields, path[1..])
        else None
  }
}
