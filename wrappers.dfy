/** Option and Result, the nullable and the throwing returns of the JavaScript code. */
module Wrappers {

  /** `null`/`undefined` versus a value. */
  datatype Option<+T> = None | Some(value: T) {
    function GetOr(default: T): T {
      match this
      case Some(v) => v
      case None => default
    }
  }

  /** A returned value versus a thrown error. */
  datatype Result<+T, +E> = Success(value: T) | Failure(error: E)

  /** `filter((x) => x !== null)`: the present values, in order. */
  function FilterSome<T>(xs: seq<Option<T>>): (r: seq<T>)
    ensures |r| <= |xs|
    ensures xs == [] ==> r == []
  {
    if xs == [] then []
    else if xs[0].Some? then [xs[0].value] + FilterSome(xs[1..])
    else FilterSome(xs[1..])
  }

  lemma FilterSomeAppend<T>(xs: seq<Option<T>>, ys: seq<Option<T>>)
    ensures FilterSome(xs + ys) == FilterSome(xs) + FilterSome(ys)
  {
    if xs == [] {
      assert xs + ys == ys;
    } else {
      assert (xs + ys)[1..] == xs[1..] + ys;
      FilterSomeAppend(xs[1..], ys);
    }
  }

  /** Filtering one more entry at the end adds its value when present and nothing otherwise;
      with `FilterSome([]) == []` this fixes the filter on every list, order and repeats
      included. */
  lemma FilterSomeSnoc<T>(xs: seq<Option<T>>, x: Option<T>)
    ensures FilterSome(xs + [x]) == FilterSome(xs) + (if x.Some? then [x.value] else [])
  {
    FilterSomeAppend(xs, [x]);
    assert FilterSome([x]) == (if x.Some? then [x.value] else []) by {
      assert [x][1..] == [];
    }
  }

  /** The filtered list holds exactly the present values. */
  lemma {:induction false} FilterSomeMembers<T>(xs: seq<Option<T>>, t: T)
    ensures t in FilterSome(xs) <==> Some(t) in xs
  {
    if xs != [] {
      FilterSomeMembers(xs[1..], t);
      assert xs == [xs[0]] + xs[1..];
    }
  }

  /** A list with no missing entries loses nothing. */
  lemma {:induction false} FilterSomeAll<T>(xs: seq<Option<T>>)
    requires forall i :: 0 <= i < |xs| ==> xs[i].Some?
    ensures |FilterSome(xs)| == |xs|
    ensures forall i :: 0 <= i < |xs| ==> FilterSome(xs)[i] == xs[i].value
  {
    if xs != [] {
      FilterSomeAll(xs[1..]);
    }
  }
}
