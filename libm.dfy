/** The platform's math library (`<cmath>`), kept abstract.

    The transcendental functions are values of arrow type, so no property of
    them is assumed beyond what `Sound` states.  `Sound` holds only the facts
    the model needs for its divisions to be defined and for the smoothing
    coefficient to stay in [0, 1]; every other fact a property relies on is a
    `requires` of the lemma that states it.  The witness below is a concrete
    set of functions satisfying `Sound`, so the assumptions are consistent. */
module Libm {

  datatype Fns = Fns(
    sin: real -> real,
    cos: real -> real,
    tanh: real -> real,
    exp: real -> real,
    log: real -> real,
    log10: real -> real,
    pow: (real, real) -> real,
    sqrt: real -> real)

  ghost predicate Sound(f: Fns) {
    // std::pow(10.0, e) is positive for every exponent
    && (forall e :: f.pow(10.0, e) > 0.0)
    // std::log is strictly increasing on the positive reals
    && (forall x, y :: 0.0 < x < y ==> f.log(x) < f.log(y))
    // std::exp is positive, and below 1 for negative arguments
    && (forall x :: f.exp(x) > 0.0)
    && (forall x :: x < 0.0 ==> f.exp(x) < 1.0)
  }

  type Math = f: Fns | Sound(f)
    witness Fns(
      (x: real) => 0.0,
      (x: real) => 1.0,
      (x: real) => 0.0,
      (x: real) => if x < 0.0 then 1.0 / (1.0 - x) else 1.0 + x,
      (x: real) => x,
      (x: real) => x,
      (b: real, e: real) => 1.0,
      (x: real) => x)

  /** Equal arguments give equal results (stated once so that arguments
      equal only by arithmetic can be matched). */
  lemma Congruent(f: real -> real, a: real, b: real)
    requires a == b
    ensures f(a) == f(b)
  {
  }
}
