/**
 * The two pieces of JavaScript number arithmetic the wheel relies on, over
 * exact reals: the remainder operator `%`, whose quotient is truncated toward
 * zero so that the result takes the sign of the dividend, and `Math.floor`
 * (Dafny's `.Floor`). The wheel only ever takes remainders by 360, so the
 * remainder is stated for that divisor. `Mod360` is the mathematical
 * (Euclidean) remainder, the reference the JavaScript one is compared with.
 */
module JsMath {

  /** Truncation toward zero, the quotient JavaScript's `%` uses. */
  function Trunc(x: real): (t: int)
    ensures 0.0 <= x ==> t as real <= x < t as real + 1.0
    ensures x < 0.0 ==> t as real - 1.0 < x <= t as real
  {
    if x >= 0.0 then x.Floor else -((-x).Floor)
  }

  /** `x % 360` as JavaScript computes it: strictly inside (-360, 360), with the sign of `x`. */
  function Rem360(x: real): (r: real)
    ensures 0.0 <= x ==> 0.0 <= r < 360.0
    ensures x < 0.0 ==> -360.0 < r <= 0.0
  {
    x - 360.0 * Trunc(x / 360.0) as real
  }

  /** The Euclidean remainder by 360: always in [0, 360). */
  function Mod360(x: real): (r: real)
    ensures 0.0 <= r < 360.0
  {
    x - 360.0 * (x / 360.0).Floor as real
  }

  /** `Mod360(x)` is the only value in [0, 360) that differs from `x` by whole turns. */
  lemma Mod360Unique(x: real, y: real, k: int)
    requires 0.0 <= y < 360.0 && x == y + 360.0 * k as real
    ensures Mod360(x) == y
  {
    assert (x / 360.0).Floor == k;
  }

  /** Adding whole turns does not change the Euclidean remainder. */
  lemma Mod360Periodic(x: real, k: int)
    ensures Mod360(x + 360.0 * k as real) == Mod360(x)
  {
    var q := (x / 360.0).Floor;
    Mod360Unique(x + 360.0 * k as real, Mod360(x), q + k);
  }

  /** JavaScript's remainder differs from its dividend by whole turns, so both have the same Euclidean remainder. */
  lemma Rem360Congruent(x: real)
    ensures Mod360(Rem360(x)) == Mod360(x)
  {
    var t := Trunc(x / 360.0);
    Mod360Periodic(Rem360(x), t);
  }
}
