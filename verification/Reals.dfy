/**
Products of reals by name. Proofs hide `Times` and use the laws below, so that the solver sees
only linear arithmetic.
*/
module Reals {

  /** A product as a name. */
  function Times(x: real, y: real): real { x * y }

  lemma TimesNonneg(x: real, y: real)
    requires x >= 0.0 && y >= 0.0
    ensures Times(x, y) >= 0.0
  {
  }

  lemma TimesPositive(x: real, y: real)
    requires x > 0.0 && y > 0.0
    ensures Times(x, y) > 0.0
  {
  }

  lemma TimesMono(x: real, y: real, z: real)
    requires x <= y && z >= 0.0
    ensures Times(z, x) <= Times(z, y)
  {
    TimesNonneg(z, y - x);
  }

  lemma TimesStrict(x: real, y: real, z: real)
    requires x < y && z > 0.0
    ensures Times(z, x) < Times(z, y)
  {
    TimesPositive(z, y - x);
  }

  lemma TimesLinear(z: real, x: real, y: real)
    ensures Times(z, x + y) == Times(z, x) + Times(z, y)
    ensures Times(z, x - y) == Times(z, x) - Times(z, y)
  {
  }

  lemma TimesSwap(x: real, y: real, z: real)
    ensures Times(x, y) == Times(y, x) && Times(x, Times(y, z)) == Times(y, Times(x, z)) == Times(Times(x, y), z)
  {
  }

  lemma TimesNeg(x: real, y: real)
    ensures Times(-x, y) == -Times(x, y) && Times(x, -y) == -Times(x, y)
  {
  }

  lemma TimesOne(x: real)
    ensures Times(x, 1.0) == x && Times(1.0, x) == x && Times(x, 0.0) == 0.0
  {
  }

  /** A share between nothing and all of an amount. */
  lemma ShareOf(t: real, x: real)
    requires 0.0 <= t <= 1.0 && x >= 0.0
    ensures 0.0 <= Times(t, x) <= x
  {
    hide Times;
    TimesNonneg(t, x);
    TimesMono(t, 1.0, x);
    TimesOne(x);
    TimesSwap(t, x, 0.0);
  }

  lemma DivTimes(x: real, y: real)
    requires y != 0.0
    ensures Times(y, x / y) == x
  {
  }

  /** Cancelling a positive factor. */
  lemma TimesCancel(z: real, x: real, y: real)
    requires z > 0.0 && Times(z, x) == Times(z, y)
    ensures x == y
  {
    if x < y { TimesStrict(x, y, z); }
    if y < x { TimesStrict(y, x, z); }
  }
}
