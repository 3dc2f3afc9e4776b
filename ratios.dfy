/** Shares of counts, as the statistics views compute them in floating point. */
module Ratios {
  /** Multiplying by a positive number keeps a strict order. */
  lemma MulStrict(a: real, b: real, c: real)
    requires a < b && c > 0.0
    ensures a * c < b * c
  {
    assert b * c - a * c == (b - a) * c;
  }

  /** A share of a whole lies between 0 and 1, and is 1 for the whole itself. */
  lemma ShareBounds(part: nat, whole: nat)
    requires part <= whole && whole > 0
    ensures 0.0 <= part as real / whole as real <= 1.0
    ensures part == whole ==> part as real / whole as real == 1.0
  {
    var p, w := part as real, whole as real;
    var q := p / w;
    assert q * w == p;
    if q > 1.0 {
      MulStrict(1.0, q, w);
    }
    if q < 0.0 {
      MulStrict(q, 0.0, w);
    }
    if part == whole && q < 1.0 {
      MulStrict(q, 1.0, w);
    }
  }
}
