/** Optional values, used wherever PHP returns null for "not found". */
module Wrappers {
  datatype Option<+T> = None | Some(value: T) {
    function GetOr(default: T): T
    {
      match this
      case Some(v) => v
      case None => default
    }
  }

  /** The present values, in order. */
  function Somes<T>(xs: seq<Option<T>>): (r: seq<T>)
    ensures forall x :: x in r ==> Some(x) in xs
  {
    if |xs| == 0 then []
    else (if xs[0].Some? then [xs[0].value] else []) + Somes(xs[1..])
  }

  /** When every value is present, all of them are kept. */
  lemma {:induction false} SomesAllPresent<T>(xs: seq<Option<T>>, ys: seq<T>)
    requires |xs| == |ys| && forall i :: 0 <= i < |xs| ==> xs[i] == Some(ys[i])
    ensures Somes(xs) == ys
  {
    if |xs| > 0 {
      SomesAllPresent(xs[1..], ys[1..]);
      assert ys == [ys[0]] + ys[1..];
    }
  }
}
