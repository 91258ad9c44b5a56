/**
 * The dynamically typed values that reach the settings code: what a TOML
 * document decodes to, and what callers pass to `normalize_bool`.
 * `Truthy`, `IntOf` and `ToStr` are Python's `bool()`, `int()` and `str()`
 * on them.
 */
module Values {
  import opened Wrappers
  import opened Strings
  import opened Numbers

  /**
   * `Float` carries a finite value and the text `repr()` gives for it;
   * `Infinity` and `NaN` are the floats TOML spells `inf`, `-inf` and
   * `nan`; `Other` stands for any further object (a TOML date, say) with
   * the text `str()` gives for it.
   */
  datatype Value =
    | Null
    | Bool(b: bool)
    | Int(i: int)
    | Float(x: real, text: string)
    | Infinity(negative: bool)
    | NaN
    | Str(s: string)
    | List(items: seq<Value>)
    | Table(entries: seq<(string, Value)>)
    | Other(text: string)

  /** `bool(v)`: false exactly for None, False, zero, and empty strings, lists and tables. */
  predicate Truthy(v: Value) {
    match v
    case Null => false
    case Bool(b) => b
    case Int(i) => i != 0
    case Float(x, _) => x != 0.0
    case Infinity(_) => true
    case NaN => true
    case Str(s) => s != ""
    case List(items) => items != []
    case Table(entries) => entries != []
    case Other(_) => true
  }

  /** `int(x)` of a real: truncation toward zero. */
  function TruncateReal(x: real): (r: int)
    ensures x >= 0.0 ==> r as real <= x < r as real + 1.0
    ensures x < 0.0 ==> r as real - 1.0 < x <= r as real
  {
    if x >= 0.0 then x.Floor else -((-x).Floor)
  }

  /**
   * `int(v)`: None where Python raises; that is a ValueError or a
   * TypeError, except for an infinity, where it is an OverflowError.
   */
  function IntOf(v: Value): (r: Option<int>)
    ensures v.Int? ==> r == Some(v.i)
    ensures v.Bool? ==> r == Some(if v.b then 1 else 0)
    ensures v.Null? || v.List? || v.Table? || v.Other? || v.Infinity? || v.NaN? ==> r.None?
  {
    match v
    case Bool(b) => Some(if b then 1 else 0)
    case Int(i) => Some(i)
    case Float(x, _) => Some(TruncateReal(x))
    case Str(s) => ParseInt(s)
    case _ => None
  }

  /** The values on which `int()` raises OverflowError rather than ValueError or TypeError. */
  predicate IntOverflows(v: Value) {
    v.Infinity?
  }

  function BoolText(b: bool): string {
    if b then "True" else "False"
  }

  /** `repr(v)` of an element inside a list or table; a string is always put between single quotes. */
  function Repr(v: Value): string
    decreases v, 1
  {
    match v
    case Str(s) => "'" + s + "'"
    case _ => ToStr(v)
  }

  /** `str(v)`. */
  function ToStr(v: Value): string
    decreases v, 0
  {
    match v
    case Null => "None"
    case Bool(b) => BoolText(b)
    case Int(i) => IntToString(i)
    case Float(_, text) => text
    case Infinity(negative) => if negative then "-inf" else "inf"
    case NaN => "nan"
    case Str(s) => s
    case List(items) => "[" + Join(ReprAll(items), ", ") + "]"
    case Table(entries) => "{" + Join(ReprEntries(entries), ", ") + "}"
    case Other(text) => text
  }

  function ReprAll(items: seq<Value>): (r: seq<string>)
    ensures |r| == |items|
    decreases items
  {
    if items == [] then [] else [Repr(items[0])] + ReprAll(items[1..])
  }

  function ReprEntries(entries: seq<(string, Value)>): (r: seq<string>)
    ensures |r| == |entries|
    decreases entries
  {
    if entries == [] then []
    else
      assert entries[0].1 < entries[0];
      ["'" + entries[0].0 + "': " + Repr(entries[0].1)] + ReprEntries(entries[1..])
  }

  /** `[str(item) for item in items]`. */
  function StrAll(items: seq<Value>): (r: seq<string>)
    ensures |r| == |items|
    ensures forall k :: 0 <= k < |items| && items[k].Str? ==> r[k] == items[k].s
  {
    if items == [] then [] else [ToStr(items[0])] + StrAll(items[1..])
  }

  /** `str()` undoes `int()` on integers: reading back a written integer gives it again. */
  lemma IntOfToStr(i: int)
    ensures IntOf(Str(ToStr(Int(i)))) == Some(i)
  {
    ParseIntRoundTrip(i);
  }

  /** Stringifying a list of strings gives the same strings. */
  lemma {:induction false} StrAllOfStrings(ss: seq<string>)
    ensures StrAll(seq(|ss|, k requires 0 <= k < |ss| => Str(ss[k]))) == ss
  {
    var vs := seq(|ss|, k requires 0 <= k < |ss| => Str(ss[k]));
    var r := StrAll(vs);
    assert forall k :: 0 <= k < |ss| ==> r[k] == ss[k];
  }
}
