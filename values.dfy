// The dynamic values stored in a paper dict, and the Python built-ins the
// pipeline applies to them: truthiness, dict.get, int(), str(), equality
// across numeric types and prefix slicing.

module Values {
  import opened Base
  import opened Text

  /** A JSON-like Python value as found in a paper dict. */
  datatype Value =
    | NoneV
    | BoolV(b: bool)
    | IntV(i: int)
    | RealV(r: real)
    | StrV(s: string)
    | ListV(items: seq<Value>)
    | DictV(fields: map<string, Value>)

  /** A paper is a dict from field names to values. */
  type PaperDict = map<string, Value>

  /** Python's `len(v)`: strings, lists and dicts have one; None stands for the TypeError of any other value. */
  function PyLen(v: Value): Option<nat>
  {
    match v
    case StrV(s) => Some(|s|)
    case ListV(items) => Some(|items|)
    case DictV(fields) => Some(|fields|)
    case _ => None
  }

  /** Python truthiness. */
  predicate Truthy(v: Value)
  {
    match v
    case NoneV => false
    case BoolV(b) => b
    case IntV(i) => i != 0
    case RealV(r) => r != 0.0
    case StrV(s) => s != []
    case ListV(xs) => xs != []
    case DictV(m) => m != map[]
  }

  /** dict.get(k, d). */
  function Get(p: PaperDict, k: string, d: Value): (r: Value)
    ensures k in p ==> r == p[k]
    ensures k !in p ==> r == d
  {
    if k in p then p[k] else d
  }

  /** Python `a == b`: numbers compare by value across int, float and bool. */
  predicate PyEq(a: Value, b: Value)
  {
    match (NumOf(a), NumOf(b))
    case (Some(x), Some(y)) => x == y
    case _ => a == b
  }

  /** The numeric value of an int, float or bool. */
  function NumOf(v: Value): Option<real>
  {
    match v
    case IntV(i) => Some(i as real)
    case RealV(r) => Some(r)
    case BoolV(b) => Some(if b then 1.0 else 0.0)
    case _ => None
  }

  /** int(r) for a float truncates toward zero. */
  function Trunc(r: real): (n: int)
    ensures r >= 0.0 ==> n == r.Floor
    ensures r < 0.0 ==> n == -((-r).Floor)
  {
    if r >= 0.0 then r.Floor else -((-r).Floor)
  }

  /** The value a dict or set key hashes as: numbers by their numeric value, anything else as itself. */
  function Canon(v: Value): Value
  {
    match NumOf(v)
    case Some(x) => RealV(x)
    case None => v
  }

  /** Two keys land on the same dict or set entry exactly when Python's `==` holds between them. */
  lemma CanonPyEq(a: Value, b: Value)
    ensures Canon(a) == Canon(b) <==> PyEq(a, b)
  {
  }

  /** Python int(v); None stands for the ValueError or TypeError it raises. */
  function PyInt(v: Value): (r: Option<int>)
    ensures v.IntV? ==> r == Some(v.i)
    ensures v.NoneV? || v.ListV? || v.DictV? ==> r == None
  {
    match v
    case IntV(i) => Some(i)
    case BoolV(b) => Some(if b then 1 else 0)
    case RealV(r) => Some(Trunc(r))
    case StrV(s) => ParseInt(s)
    case _ => None
  }

  /** Python str(v). */
  function PyStr(v: Value): (r: string)
    ensures v.StrV? ==> r == v.s
    ensures v.IntV? ==> r == IntToString(v.i)
    ensures v.NoneV? ==> r == "None"
  {
    match v
    case ListV(xs) => "[" + ReprList(xs) + "]"
    case _ => ScalarStr(v)
  }

  /** str(v) for a value that is not a list. */
  function ScalarStr(v: Value): string
  {
    match v
    case NoneV => "None"
    case BoolV(b) => if b then "True" else "False"
    case IntV(i) => IntToString(i)
    case RealV(r) => IntToString(Trunc(r)) + ".0"
    case StrV(s) => s
    case ListV(_) => "[]"
    case DictV(_) => "{}"
  }

  /** repr(v): strings are quoted, everything else prints as str(v). */
  function Repr(v: Value): string
  {
    match v
    case StrV(s) => "'" + s + "'"
    case ListV(xs) => "[" + ReprList(xs) + "]"
    case _ => ScalarStr(v)
  }

  function ReprList(xs: seq<Value>): string
    decreases xs
  {
    if xs == [] then ""
    else if |xs| == 1 then Repr(xs[0])
    else Repr(xs[0]) + ", " + ReprList(xs[1..])
  }

  /** Python `s[:n]` for a list or string. */
  function Slice<T>(s: seq<T>, n: int): (r: seq<T>)
    ensures |r| <= |s| && r == s[..|r|]
    ensures 0 <= n <= |s| ==> |r| == n
    ensures n >= |s| ==> r == s
    ensures n < 0 ==> |r| == (if |s| + n >= 0 then |s| + n else 0)
  {
    if n >= |s| then s
    else if n >= 0 then s[..n]
    else if |s| + n >= 0 then s[..|s| + n]
    else []
  }

  /** `v.lower().strip()` for a string value; None where Python raises AttributeError. */
  function NormTitle(v: Value): (r: Option<string>)
    ensures v.StrV? <==> r.Some?
    ensures v.StrV? ==> r.value == Strip(Lower(v.s))
  {
    if v.StrV? then Some(Strip(Lower(v.s))) else None
  }

  /** The title key used by the deduplication and merge stages: `paper.get('title', '')`, normalised. */
  function TitleKey(p: PaperDict): Option<string>
  {
    NormTitle(Get(p, "title", StrV("")))
  }

  /** A paper dict with `k` set to `v`. */
  function Set(p: PaperDict, k: string, v: Value): (r: PaperDict)
    ensures k in r && r[k] == v
    ensures forall j :: j in p && j != k ==> j in r && r[j] == p[j]
    ensures r.Keys == p.Keys + {k}
  {
    p[k := v]
  }

  /** A sort key read from a numeric field (`p.get(k, 0)`); anything that is not a number reads as 0. */
  function NumField(p: PaperDict, k: string): real
  {
    match NumOf(Get(p, k, IntV(0)))
    case Some(x) => x
    case None => 0.0
  }

  predicate IsNotNone(v: Value)
  {
    !v.NoneV?
  }

  /** Python min(a, b) on numbers. */
  function MinReal(a: real, b: real): (r: real)
    ensures r <= a && r <= b && (r == a || r == b)
  {
    if b < a then b else a
  }
}
