/**
 * The slice of Python's data model that the core relies on: dynamically typed
 * values, `dict.get`, truthiness, `s[:k]` slicing and `str()` of integers.
 */
module Py {

  /** A JSON-like Python value, as stored in the duck-typed result dictionaries. */
  datatype Value =
    | Str(s: string)
    | Int(i: int)
    | Real(r: real)
    | Bool(b: bool)
    | Null
    | Obj(d: map<string, Value>)
    | Arr(items: seq<Value>)

  /** A `dict[str, Any]`. */
  type Dict = map<string, Value>

  /** `d.get(key, default)` */
  function Get(d: Dict, key: string, default: Value): Value {
    if key in d then d[key] else default
  }

  /** Python's `bool(v)`. */
  predicate Truthy(v: Value) {
    match v
    case Str(s) => s != ""
    case Int(i) => i != 0
    case Real(r) => r != 0.0
    case Bool(b) => b
    case Null => false
    case Obj(d) => d != map[]
    case Arr(items) => items != []
  }

  /** Python's `a or b`: the first operand when it is truthy, the second otherwise. */
  function Or(a: Value, b: Value): Value {
    if Truthy(a) then a else b
  }

  /** The end index Python uses for `s[:k]` on a sequence of length n (negative k counts from the end). */
  function SliceEnd(n: nat, k: int): (e: nat)
    ensures e <= n
  {
    if k >= n then n else if k >= 0 then k else if n + k >= 0 then n + k else 0
  }

  /** Python's `s[:k]`. */
  function Prefix<T>(s: seq<T>, k: int): seq<T> {
    s[..SliceEnd(|s|, k)]
  }

  /** For a non-negative bound, `s[:k]` keeps exactly the first min(k, |s|) elements. */
  lemma PrefixNonNegative<T>(s: seq<T>, k: int)
    requires k >= 0
    ensures |Prefix(s, k)| == if k < |s| then k else |s|
    ensures forall i | 0 <= i < |Prefix(s, k)| :: Prefix(s, k)[i] == s[i]
  {
  }

  function DigitChar(d: nat): (c: char)
    requires d < 10
  {
    ['0', '1', '2', '3', '4', '5', '6', '7', '8', '9'][d]
  }

  /** `str(n)` for a non-negative integer: its decimal digits, most significant first. */
  function NatToString(n: nat): (r: string)
    ensures |r| >= 1
    ensures n >= 10 ==> |r| >= 2
    decreases n
  {
    if n < 10 then [DigitChar(n)] else NatToString(n / 10) + [DigitChar(n % 10)]
  }

  /** `str(i)` for any integer. */
  function IntToString(i: int): string {
    if i < 0 then "-" + NatToString(-i) else NatToString(i)
  }

  /** Distinct numbers print differently; chunk ids built from indices rely on this. */
  lemma {:induction false} NatToStringInjective(a: nat, b: nat)
    requires NatToString(a) == NatToString(b)
    ensures a == b
    decreases a
  {
    var sa, sb := NatToString(a), NatToString(b);
    if a < 10 || b < 10 {
      assert a < 10 && b < 10;
      assert sa[0] == DigitChar(a) && sb[0] == DigitChar(b);
    } else {
      assert sa[|sa| - 1] == DigitChar(a % 10) && sb[|sb| - 1] == DigitChar(b % 10);
      assert NatToString(a / 10) == sa[..|sa| - 1] == sb[..|sb| - 1] == NatToString(b / 10);
      NatToStringInjective(a / 10, b / 10);
    }
  }

  /** Python's `str(v)` for the scalar values the core prints; containers and floats are not rendered. */
  function Show(v: Value): string {
    match v
    case Str(s) => s
    case Int(i) => IntToString(i)
    case Bool(b) => if b then "True" else "False"
    case Null => "None"
    case _ => ""
  }
}
