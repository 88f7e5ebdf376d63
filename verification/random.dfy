/**
  The two random helpers of game.js, with the value of `Math.random()` passed
  in as a real `u` in [0, 1). Floating-point rounding is not modelled: `u` is an
  exact real.
 */
module Random {

  /** `randomInt(min, max)`: floor(u * (max - min + 1)) + min. */
  function RandomInt(lo: int, hi: int, u: real): (r: int)
    requires 0.0 <= u < 1.0
    ensures lo <= hi ==> lo <= r <= hi
  {
    (u * (hi - lo + 1) as real).Floor + lo
  }

  /** Every value of a non-empty range is the draw of some `u`: a draw may be
      modelled as an arbitrary integer of the closed range. */
  lemma RandomIntReaches(lo: int, hi: int, v: int)
    requires lo <= v <= hi
    ensures var u := (v - lo) as real / (hi - lo + 1) as real;
            0.0 <= u < 1.0 && RandomInt(lo, hi, u) == v
  {
    var k := (hi - lo + 1) as real;
    var u := (v - lo) as real / k;
    assert u * k == (v - lo) as real;
    assert ((v - lo) as real).Floor == v - lo;
  }

  /** `randomChoice(arr)`: the element at floor(u * |arr|). */
  function RandomChoice<T>(xs: seq<T>, u: real): (x: T)
    requires |xs| > 0
    requires 0.0 <= u < 1.0
    ensures x in xs
  {
    xs[RandomInt(0, |xs| - 1, u)]
  }

  /** Every element can be chosen: a choice may be modelled as an index in range. */
  lemma RandomChoiceReaches<T>(xs: seq<T>, i: int)
    requires 0 <= i < |xs|
    ensures var u := i as real / |xs| as real;
            0.0 <= u < 1.0 && RandomChoice(xs, u) == xs[i]
  {
    RandomIntReaches(0, |xs| - 1, i);
  }
}
