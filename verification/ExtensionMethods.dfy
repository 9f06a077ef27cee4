/**
  Linear rescaling helpers (the `float` extension methods of the scripts).
  Both divide by the width of the input range, so the engine code yields an
  infinity or NaN when that width is zero; here a zero-width range is
  excluded by a precondition.
 */
module ExtensionMethods {

  /**
    Maps `input` from the range [inputMin, inputMax] onto [min, max]: the
    result sits as far along [min, max] as `input` sits along the input range.
   */
  function Remap(input: real, inputMin: real, inputMax: real, min: real, max: real): (r: real)
    requires inputMax != inputMin
    ensures input == inputMin ==> r == min
    ensures input == inputMax ==> r == max
    ensures (r - min) * (inputMax - inputMin) == (input - inputMin) * (max - min)
  {
    var q := (input - inputMin) * (max - min) / (inputMax - inputMin);
    QuotientTimesDivisor((input - inputMin) * (max - min), inputMax - inputMin);
    ProportionalStep(input, inputMin, inputMax, min, max, q);
    min + q
  }

  /**
    Where `value` sits along [min, max], as a fraction: 0 at `min`, 1 at `max`,
    and stepping that fraction of the way from `min` to `max` gives `value` back.
   */
  function Remap01(value: real, min: real, max: real): (r: real)
    requires max != min
    ensures value == min ==> r == 0.0
    ensures value == max ==> r == 1.0
    ensures min + r * (max - min) == value
  {
    var r := (value - min) / (max - min);
    QuotientTimesDivisor(value - min, max - min);
    FractionAlong(value, min, max, r);
    r
  }

  /** Remap onto the unit range is Remap01. */
  lemma RemapToUnitIsRemap01(value: real, min: real, max: real)
    requires max != min
    ensures Remap(value, min, max, 0.0, 1.0) == Remap01(value, min, max)
  {
    var r, f := Remap(value, min, max, 0.0, 1.0), Remap01(value, min, max);
    SameFraction(value, min, max, r, f);
  }

  /** Remap01 keeps the order of its inputs over an increasing range. */
  lemma Remap01Monotone(v: real, w: real, min: real, max: real)
    requires min < max && v <= w
    ensures Remap01(v, min, max) <= Remap01(w, min, max)
  {
    var rv, rw := Remap01(v, min, max), Remap01(w, min, max);
    OrderedFractions(v, w, min, max, rv, rw);
  }

  /** A value inside an increasing range is sent into [0, 1]. */
  lemma Remap01InUnitRange(value: real, min: real, max: real)
    requires min < max && min <= value <= max
    ensures 0.0 <= Remap01(value, min, max) <= 1.0
  {
    Remap01Monotone(min, value, min, max);
    Remap01Monotone(value, max, min, max);
  }

  /** Remapping there and back again returns the input, when the target range is not empty. */
  lemma RemapRoundTrip(input: real, inputMin: real, inputMax: real, min: real, max: real)
    requires inputMax != inputMin && max != min
    ensures Remap(Remap(input, inputMin, inputMax, min, max), min, max, inputMin, inputMax) == input
  {
    var y := Remap(input, inputMin, inputMax, min, max);
    var x := Remap(y, min, max, inputMin, inputMax);
    ThereAndBack(input, inputMin, inputMax, min, max, y, x);
  }

  // The arithmetic below is stated over plain reals, so that no quotient is in
  // sight while the products are compared.

  lemma QuotientTimesDivisor(n: real, d: real)
    requires d != 0.0
    ensures (n / d) * d == n
  {
  }

  lemma ProportionalStep(input: real, inputMin: real, inputMax: real, min: real, max: real, q: real)
    requires inputMax != inputMin
    requires q * (inputMax - inputMin) == (input - inputMin) * (max - min)
    ensures input == inputMin ==> min + q == min
    ensures input == inputMax ==> min + q == max
    ensures (min + q - min) * (inputMax - inputMin) == (input - inputMin) * (max - min)
  {
    if input == inputMin {
      assert (input - inputMin) * (max - min) == 0.0;
      CancelNonZero(q, 0.0, inputMax - inputMin);
    }
    if input == inputMax {
      assert (input - inputMin) * (max - min) == (max - min) * (inputMax - inputMin);
      CancelNonZero(q, max - min, inputMax - inputMin);
    }
  }

  lemma FractionAlong(value: real, min: real, max: real, r: real)
    requires max != min && r * (max - min) == value - min
    ensures value == min ==> r == 0.0
    ensures value == max ==> r == 1.0
    ensures min + r * (max - min) == value
  {
    if value == min {
      CancelNonZero(r, 0.0, max - min);
    }
    if value == max {
      CancelNonZero(r, 1.0, max - min);
    }
  }

  lemma SameFraction(value: real, min: real, max: real, r: real, f: real)
    requires max != min
    requires (r - 0.0) * (max - min) == (value - min) * (1.0 - 0.0)
    requires min + f * (max - min) == value
    ensures r == f
  {
    CancelNonZero(r, f, max - min);
  }

  lemma OrderedFractions(v: real, w: real, min: real, max: real, rv: real, rw: real)
    requires min < max && v <= w
    requires min + rv * (max - min) == v && min + rw * (max - min) == w
    ensures rv <= rw
  {
    assert (rw - rv) * (max - min) == w - v;
    NonNegativeFactor(rw - rv, max - min);
  }

  lemma ThereAndBack(input: real, inputMin: real, inputMax: real, min: real, max: real, y: real, x: real)
    requires inputMax != inputMin && max != min
    requires (y - min) * (inputMax - inputMin) == (input - inputMin) * (max - min)
    requires (x - inputMin) * (max - min) == (y - min) * (inputMax - inputMin)
    ensures x == input
  {
    CancelNonZero(x - inputMin, input - inputMin, max - min);
  }

  lemma CancelNonZero(a: real, b: real, k: real)
    requires k != 0.0 && a * k == b * k
    ensures a == b
  {
    assert (a - b) * k == 0.0;
  }

  lemma NonNegativeFactor(x: real, k: real)
    requires 0.0 < k && 0.0 <= x * k
    ensures 0.0 <= x
  {
  }
}
