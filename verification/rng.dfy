/** The view's single pseudo-random generator, seen only through its results. */
module Rng {

  /** One result of `nextFloat()`: a value in [0, 1). */
  type Unit = u: real | 0.0 <= u < 1.0

  /** The generator is seeded once and never reseeded, so over the whole
      session it is one infinite sequence of draws; element `k` is the
      `k`-th call's result. */
  type Stream = nat -> Unit

  /** `nextInt(lo, hi)` read off one draw: a whole number in [lo, hi). */
  function NextInt(lo: int, hi: int, u: Unit): (r: int)
    requires lo < hi
    ensures lo <= r < hi
  {
    var n := (hi - lo) as real;
    assert n * u < n by { assert n * (1.0 - u) > 0.0; }
    lo + (n * u).Floor
  }
}
