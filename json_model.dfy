/**
 * Loosely typed JSON values as the Python code sees them after `json.loads`,
 * with the Python built-ins the code applies to them: truthiness, `or`,
 * `dict.get`, `str()`, `in`, and hashability.
 */
module JsonModel {
  import opened Wrappers
  import Text

  /** A decoded JSON value. Numbers are integers only; a dict is a map (Python dict equality ignores order). */
  datatype Json =
    | Null
    | Bool(b: bool)
    | Int(i: int)
    | Str(s: string)
    | Arr(items: seq<Json>)
    | Obj(fields: map<string, Json>)

  /** Python truthiness: `bool(v)`, `if v`, `not v`. */
  predicate Truthy(v: Json) {
    match v
    case Null => false
    case Bool(b) => b
    case Int(i) => i != 0
    case Str(s) => s != ""
    case Arr(xs) => xs != []
    case Obj(m) => m != map[]
  }

  /** Python `a or b`. */
  function Or(a: Json, b: Json): Json {
    if Truthy(a) then a else b
  }

  /** Python `v in (None, "")`. */
  predicate NullOrEmpty(v: Json) {
    v == Null || v == Str("")
  }

  /** Python `d.get(k, default)` on a dict. */
  function Get(m: map<string, Json>, k: string, default: Json): Json {
    if k in m then m[k] else default
  }

  /** Python `v.get(k, default)`: only a dict has `.get`. */
  function DictGet(v: Json, k: string, default: Json): Result<Json> {
    if v.Obj? then Success(Get(v.fields, k, default)) else Failure(AttributeError("get"))
  }

  /** A value usable as a dict key (lists and dicts are unhashable). */
  predicate Hashable(v: Json) {
    !v.Arr? && !v.Obj?
  }

  function Digit(d: nat): char
    requires d < 10
  {
    "0123456789"[d]
  }

  function NatToString(n: nat): string
    decreases n
  {
    if n < 10 then [Digit(n)] else NatToString(n / 10) + [Digit(n % 10)]
  }

  function IntToString(i: int): string {
    if i < 0 then "-" + NatToString(-i) else NatToString(i)
  }

  /** Python `str(v)` (and `format(v, "")`); containers are only sketched, see README. */
  function PyStr(v: Json): string {
    match v
    case Null => "None"
    case Bool(b) => if b then "True" else "False"
    case Int(i) => IntToString(i)
    case Str(s) => s
    case Arr(_) => "[...]"
    case Obj(_) => "{...}"
  }

  /** Python `item in container` for a string item. */
  function PyContains(container: Json, item: string): Result<bool> {
    match container
    case Arr(xs) => Success(Str(item) in xs)
    case Str(s) => Success(Text.IsSubstring(item, s))
    case Obj(m) => Success(item in m)
    case _ => Failure(TypeError("argument of type is not iterable"))
  }

  /** Python `v in xs` for a list of strings: only an equal string is found. */
  predicate InStrings(v: Json, xs: seq<string>) {
    v.Str? && v.s in xs
  }

  /** A list of strings as a JSON array. */
  function StrArr(xs: seq<string>): (r: Json)
    ensures r.Arr? && |r.items| == |xs|
    ensures forall i :: 0 <= i < |xs| ==> r.items[i] == Str(xs[i])
  {
    Arr(seq(|xs|, i requires 0 <= i < |xs| => Str(xs[i])))
  }
}
