/** The JavaScript values an ECharts option is made of, with JavaScript's
    notion of truthiness, so that `||`, `??` and `if (!x)` read as in the
    source. */
module Json {
  import opened Wrappers

  /** `Fixed(n, d)` is the string `n.toFixed(d)`, left unevaluated. */
  datatype Val =
    | Undef
    | Bool(b: bool)
    | Num(n: int)
    | Str(s: string)
    | Fixed(n: int, digits: nat)
    | Arr(items: seq<Val>)
    | Obj(fields: map<string, Val>)

  /** JavaScript truthiness: `undefined`, `false`, `0` and `""` are falsy;
      every array and object is truthy, and so is any `toFixed` text. */
  predicate Truthy(v: Val) {
    match v
    case Undef => false
    case Bool(b) => b
    case Num(n) => n != 0
    case Str(s) => s != ""
    case _ => true
  }

  /** `o.key`: `undefined` when `o` is not an object or lacks the key. */
  function Get(o: Val, key: string): Val {
    if o.Obj? && key in o.fields then o.fields[key] else Undef
  }

  /** `a[0]`: `undefined` when `a` is not a non-empty array. */
  function First(a: Val): Val {
    if a.Arr? && |a.items| > 0 then a.items[0] else Undef
  }

  /** `s || fallback` for an optional string. */
  function OrElse(s: Option<string>, fallback: string): string {
    if s.Some? && s.value != "" then s.value else fallback
  }

  /** An optional string as a property value (`undefined` when absent). */
  function OptStr(s: Option<string>): Val {
    if s.Some? then Str(s.value) else Undef
  }
}
