/** Role membership tests shared by the void gate and the menu handler. */
module Roles {

  /** `any(x in ys for x in xs)`: some element of `xs` occurs in `ys`. */
  function AnyIn(xs: seq<string>, ys: seq<string>): (r: bool)
    ensures r <==> exists i :: 0 <= i < |xs| && xs[i] in ys
  {
    if xs == [] then false else xs[0] in ys || AnyIn(xs[1..], ys)
  }

  /** The test is the emptiness test of the intersection of the two role
      lists: an empty list on either side never intersects. */
  lemma AnyInIsIntersection(xs: seq<string>, ys: seq<string>)
    ensures AnyIn(xs, ys) <==> (set x | x in xs) * (set y | y in ys) != {}
    ensures xs == [] || ys == [] ==> !AnyIn(xs, ys)
  {
    if AnyIn(xs, ys) {
      var i :| 0 <= i < |xs| && xs[i] in ys;
      assert xs[i] in (set x | x in xs) * (set y | y in ys);
    }
  }

  /** Which list is iterated does not matter: `any(x in ys for x in xs)` and
      `any(y in xs for y in ys)` agree. */
  lemma AnyInSymmetric(xs: seq<string>, ys: seq<string>)
    ensures AnyIn(xs, ys) == AnyIn(ys, xs)
  {
  }
}
