/**
  The random source of the generator, made explicit.

  Every `Math.random()` call of the board service reads the next value of a
  stream of reals in [0, 1).  A method that draws takes the stream and the
  position of its first unused value, and returns the position after the
  values it consumed, so a whole generation is a function of the stream.
*/
module Draws {

  /** One value of `Math.random()`: a real in [0, 1), exact (no floating point). */
  type Unit = x: real | 0.0 <= x < 1.0

  /** The successive values of `Math.random()`. */
  type Stream = nat -> Unit

  /**
    `Math.floor(u * n)`: a uniform index below `n`, and 0 when `n` is 0.  The
    product is written as repeated addition (`Times`), which keeps the
    arithmetic linear; ScaledIsFloor states the floor on the real product.
  */
  function Scaled(u: Unit, n: nat): (k: nat)
    ensures n > 0 ==> k < n
    ensures n == 0 ==> k == 0
  {
    TimesBelow(u, n);
    Times(u, n).Floor
  }

  /** `u * n`, as `n` additions of `u`. */
  function Times(u: real, n: nat): (x: real) {
    if n == 0 then 0.0 else Times(u, n - 1) + u
  }

  /** `Times` is the product. */
  lemma {:induction false} TimesIsProduct(u: real, n: nat)
    ensures Times(u, n) == u * n as real
  {
    if n > 0 {
      TimesIsProduct(u, n - 1);
    }
  }

  /** For `u` in [0, 1), `u * n` lies in [0, n). */
  lemma {:induction false} TimesBelow(u: Unit, n: nat)
    ensures 0.0 <= Times(u, n)
    ensures n > 0 ==> Times(u, n) < n as real
  {
    if n > 0 {
      TimesBelow(u, n - 1);
    }
  }

  /** `Scaled(u, n)` is the largest integer not above `u * n`. */
  lemma ScaledIsFloor(u: Unit, n: nat)
    ensures Scaled(u, n) as real <= u * n as real < Scaled(u, n) as real + 1.0
  {
    TimesIsProduct(u, n);
  }
}
