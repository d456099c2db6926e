/**
 * The Python values that the add-layer operations inspect: keyword arguments, names,
 * colormap names, contrast limits and paths. Only the distinctions the code draws are
 * kept: None, booleans, numbers, strings and lists (tuples and other sequences are lists).
 */
module PyValues {
  import opened Base

  datatype Value =
    | Nothing                    // Python's None
    | Bool(b: bool)
    | Int(i: int)
    | Real(x: real)              // a float, only ever passed along
    | Str(s: string)
    | List(items: seq<Value>)

  /**
   * `is_iterable` of napari's utils: None, strings and numpy scalars (booleans and
   * numbers) are not iterable; a list is.
   */
  predicate IsIterable(v: Value) {
    v.List?
  }

  /** Python truthiness, as used by `if is_pyramid:`. */
  predicate Truthy(v: Value) {
    match v
    case Nothing => false
    case Bool(b) => b
    case Int(i) => i != 0
    case Real(x) => x != 0.0
    case Str(s) => s != ""
    case List(items) => items != []
  }

  /** The value of keyword `key`, or the parameter's default when the caller left it out. */
  function Arg(kw: map<string, Value>, key: string, default: Value): Value {
    if key in kw then kw[key] else default
  }

  /** The pattern `if x is None: x = default`. */
  function OrDefault(v: Value, default: Value): Value {
    if v == Nothing then default else v
  }

  /** `v[0]`: the first item of a list, the first character of a string, or the exception. */
  function First(v: Value): (r: Result<Value>)
    ensures r.Ok? <==> (v.List? && v.items != []) || (v.Str? && v.s != "")
    ensures v.List? && v.items != [] ==> r == Ok(v.items[0])
    ensures v.Str? && v.s != "" ==> r == Ok(Str(v.s[..1]))
    ensures (v.List? && v.items == []) || (v.Str? && v.s == "") ==> r == Err(IndexOutOfRange)
    ensures !v.List? && !v.Str? ==> r == Err(NotSubscriptable)
  {
    match v
    case List(items) => if items == [] then Err(IndexOutOfRange) else Ok(items[0])
    case Str(s) => if s == "" then Err(IndexOutOfRange) else Ok(Str(s[..1]))
    case _ => Err(NotSubscriptable)
  }

  /** A value used as a tuple index: an int, or a bool (a subclass of int in Python). */
  function AsIndex(v: Value): (r: Option<int>)
    ensures r.Some? <==> v.Int? || v.Bool?
    ensures v.Int? ==> r == Some(v.i)
    ensures v.Bool? ==> r == Some(if v.b then 1 else 0)
  {
    match v
    case Int(i) => Some(i)
    case Bool(b) => Some(if b then 1 else 0)
    case _ => None
  }

  /**
   * Python indexing `s[i]` of a tuple: negative indices count from the end, and an
   * index outside `-|s| .. |s|-1` raises IndexError.
   */
  function PyIndex<T>(s: seq<T>, i: int): (r: Result<T>)
    ensures r.Ok? <==> -|s| <= i < |s|
    ensures r.Ok? ==> r.value == s[(i + |s|) % |s|]
    ensures r.Err? ==> r.error == IndexOutOfRange
  {
    if 0 <= i < |s| then Ok(s[i])
    else if -|s| <= i < 0 then Ok(s[|s| + i])
    else Err(IndexOutOfRange)
  }

  /** `c.lower()` on ASCII letters. */
  function LowerChar(c: char): (r: char)
    ensures 'A' <= c <= 'Z' ==> r as int == c as int + 32
    ensures !('A' <= c <= 'Z') ==> r == c
  {
    if 'A' <= c <= 'Z' then (c as int + 32) as char else c
  }

  /** `s.lower()`, character by character. */
  function Lower(s: string): (r: string)
    ensures |r| == |s|
    ensures forall i :: 0 <= i < |s| ==> r[i] == LowerChar(s[i])
  {
    if s == [] then [] else [LowerChar(s[0])] + Lower(s[1..])
  }

  /** No upper-case ASCII letter left. */
  predicate IsLower(s: string) {
    forall i :: 0 <= i < |s| ==> !('A' <= s[i] <= 'Z')
  }

  /** Lower-casing leaves no upper-case letter and changes nothing the second time. */
  lemma LowerIsLower(s: string)
    ensures IsLower(Lower(s))
    ensures Lower(Lower(s)) == Lower(s)
    ensures IsLower(s) ==> Lower(s) == s
  {
  }
}
