// The single seeded random stream (`XorShiftRng`) and the distributions the
// core samples from it (`Uniform`, `Normal`, `Bernoulli` of rand_distr).
//
// The generator itself is not modelled: its k-th output is given by two
// abstract sequences, `unit(k)` (a uniform draw in [0, 1)) and `gauss(k)`
// (a standard normal draw). Every sample consumes exactly one output, so the
// order of sampling, which the game's reproducibility rests on, is visible
// in `drawn`.

module Random {

  /** A uniform draw `u` in [0, 1) mapped onto [lo, hi). */
  function Scaled(u: real, lo: real, hi: real): (r: real)
    requires 0.0 <= u < 1.0 && lo < hi
    ensures lo <= r < hi
  {
    lo + Stretch(hi - lo, u)
  }

  function Stretch(w: real, u: real): (r: real)
    requires w > 0.0 && 0.0 <= u < 1.0
    ensures 0.0 <= r < w
  {
    w * u
  }

  /** A uniform draw `u` in [0, 1) mapped onto the indices 0 .. n-1. */
  function PickIndex(u: real, n: nat): (i: nat)
    requires 0.0 <= u < 1.0 && n > 0
    ensures i < n
  {
    Stretch(n as real, u).Floor
  }

  /** A stream of uniform draws, each in [0, 1). */
  ghost predicate Uniforms(unit: nat -> real) {
    forall k: nat :: 0.0 <= unit(k) < 1.0
  }

  class Rng {
    const unit: nat -> real
    const gauss: nat -> real
    var drawn: nat

    ghost predicate Valid() {
      Uniforms(unit)
    }

    constructor (unit: nat -> real, gauss: nat -> real)
      requires Uniforms(unit)
      ensures Valid() && drawn == 0
      ensures this.unit == unit && this.gauss == gauss
    {
      this.unit := unit;
      this.gauss := gauss;
      drawn := 0;
    }

    /** `Uniform::new(lo, hi).sample(rng)`; the distribution panics unless lo < hi. */
    method Uniform(lo: real, hi: real) returns (r: real)
      requires Valid() && lo < hi
      modifies this
      ensures drawn == old(drawn) + 1
      ensures r == Scaled(unit(old(drawn)), lo, hi)
      ensures lo <= r < hi
    {
      r := Scaled(unit(drawn), lo, hi);
      drawn := drawn + 1;
    }

    /** `Uniform::new(0, n).sample(rng)` over integers; panics when n == 0. */
    method Index(n: nat) returns (i: nat)
      requires Valid() && n > 0
      modifies this
      ensures drawn == old(drawn) + 1
      ensures i == PickIndex(unit(old(drawn)), n)
      ensures i < n
    {
      i := PickIndex(unit(drawn), n);
      drawn := drawn + 1;
    }

    /** `Normal::new(mean, sd).unwrap().sample(rng)`; `new` fails (and
        `unwrap` panics) on a negative standard deviation. */
    method Normal(mean: real, sd: real) returns (r: real)
      requires sd >= 0.0
      modifies this
      ensures drawn == old(drawn) + 1
      ensures r == mean + sd * gauss(old(drawn))
    {
      r := mean + sd * gauss(drawn);
      drawn := drawn + 1;
    }

    /** `Bernoulli::new(p).unwrap().sample(rng)`; `new` fails outside [0, 1]. */
    method Bernoulli(p: real) returns (b: bool)
      requires 0.0 <= p <= 1.0
      modifies this
      ensures drawn == old(drawn) + 1
      ensures b == (unit(old(drawn)) < p)
    {
      b := unit(drawn) < p;
      drawn := drawn + 1;
    }
  }
}
