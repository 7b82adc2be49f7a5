/** The two expression macros of utils.hpp, as pure functions over reals.
    Both macros are only defined when no macro of the same name exists; this
    model assumes the definitions of utils.hpp are the ones in force. */
module Utils {

  /** The `signbit` macro: -1 for a negative argument and 1 otherwise, so that
      zero counts as positive. (It is not the C library's `signbit`.) The
      macro's value is an `int`; every use multiplies it into a `float`, so it
      is a real here. */
  function SignBit(x: real): (r: real)
    ensures r == 1.0 || r == -1.0
    ensures r < 0.0 <==> x < 0.0
  {
    if x < 0.0 then -1.0 else 1.0
  }

  /** `fabs` */
  function Abs(x: real): (r: real)
    ensures r >= 0.0
    ensures r == x || r == -x
  {
    if x < 0.0 then -x else x
  }

  /** Multiplying by the sign gives the magnitude, zero included. */
  lemma SignBitTimesIsAbs(x: real)
    ensures SignBit(x) * x == Abs(x)
    ensures SignBit(x) * x >= 0.0
  {
  }

  /** The `clamp` macro, with its comparisons in the macro's order: below `lo`
      gives `lo`, otherwise above `hi` gives `hi`, otherwise `x`. When the
      bounds are crossed (`lo > hi`) the result is still one of the three. */
  function Clamp(x: real, lo: real, hi: real): (r: real)
    ensures lo <= hi ==> lo <= r <= hi
    ensures lo <= x <= hi ==> r == x
    ensures r == x || r == lo || r == hi
    ensures x < lo ==> r == lo
    ensures !(x < lo) && x > hi ==> r == hi
  {
    if x < lo then lo else if x > hi then hi else x
  }

  /** Clamping twice to the same ordered bounds is clamping once. */
  lemma ClampIdempotent(x: real, lo: real, hi: real)
    requires lo <= hi
    ensures Clamp(Clamp(x, lo, hi), lo, hi) == Clamp(x, lo, hi)
  {
  }

  /** With symmetric bounds `[-t, t]`, clamping keeps the sign and never
      increases the magnitude. */
  lemma ClampSymmetric(x: real, t: real)
    requires t >= 0.0
    ensures Abs(Clamp(x, -t, t)) <= Abs(x)
    ensures Abs(Clamp(x, -t, t)) <= t
    ensures x >= 0.0 ==> Clamp(x, -t, t) >= 0.0
    ensures x <= 0.0 ==> Clamp(x, -t, t) <= 0.0
  {
  }
}
