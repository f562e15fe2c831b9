/** Sequence helpers used by the data object model. */
module Sequences {

  /** The elements of `xs` in the opposite order. */
  function Reverse<T(!new)>(xs: seq<T>): (r: seq<T>)
    ensures |r| == |xs|
    ensures forall i :: 0 <= i < |xs| ==> r[i] == xs[|xs| - 1 - i]
    ensures forall x :: x in r <==> x in xs
    decreases |xs|
  {
    if xs == [] then []
    else
      var init := xs[..|xs| - 1];
      assert xs == init + [xs[|xs| - 1]];
      [xs[|xs| - 1]] + Reverse(init)
  }
}
