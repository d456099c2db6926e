/**
 * The per-channel argument streams that add_image zips together when it splits an image
 * along `channel_axis`: a finite list, `itertools.repeat(v)` (one value for every channel)
 * or `itertools.cycle(items)`.
 */
module Streams {
  import opened Base
  import opened PyValues

  datatype Stream =
    | Repeat(v: Value)            // itertools.repeat(v): endless
    | Items(items: seq<Value>)     // iterating a list
    | Cycle(items: seq<Value>)     // itertools.cycle(items): endless unless items is empty
  {
    /** How many items the stream yields; None when it never ends. */
    function Length(): Option<nat> {
      match this
      case Repeat(_) => None
      case Items(items) => Some(|items|)
      case Cycle(items) => if items == [] then Some(0) else None
    }

    /** The stream yields at least `c` items. */
    predicate Reaches(c: nat) {
      Length().None? || c <= Length().value
    }

    /** The `k`-th item the stream yields. */
    function At(k: nat): (r: Value)
      requires Reaches(k + 1)
      ensures Repeat? ==> r == v
      ensures Items? ==> r == items[k]
      ensures Cycle? ==> r == items[k % |items|]
    {
      match this
      case Repeat(v) => v
      case Items(items) => items[k]
      case Cycle(items) => items[k % |items|]
    }
  }

  /** `ensure_iterable(v)`: an iterable is iterated as it is, anything else is repeated. */
  function EnsureIterable(v: Value): (r: Stream)
    ensures IsIterable(v) ==> r == Items(v.items)
    ensures !IsIterable(v) ==> r == Repeat(v)
  {
    if IsIterable(v) then Items(v.items) else Repeat(v)
  }

  /**
   * The number of tuples `zip(range(n), s_0, s_1, ...)` yields: it stops at the first
   * exhausted argument, so it is the minimum of `n` and of the lengths of the finite streams.
   */
  function ZipCount(n: nat, streams: seq<Stream>): (c: nat)
    ensures c <= n
    ensures forall i :: 0 <= i < |streams| ==> streams[i].Reaches(c)
    ensures c == n || exists i :: 0 <= i < |streams| && streams[i].Length() == Some(c)
  {
    if streams == [] then n
    else
      var rest := ZipCount(n, streams[1..]);
      assert forall i :: 1 <= i < |streams| ==> streams[i] == streams[1..][i - 1];
      match streams[0].Length()
      case None => rest
      case Some(m) => if m < rest then m else rest
  }
}
