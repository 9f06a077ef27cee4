/**
  Squash-and-stretch: two scale factors, one per axis, that a caller pushes
  away from 1 (always so that they sum to 2) and that drift back toward 1 a
  fixed fraction of the way every frame, while the object's local scale is
  multiplied by them (ScaleStep). Because the scale of the frame before is
  multiplied, the distortions compound and a squash is never undone
  (SquashNeverRecovers); IntendedScale is the display the comments describe,
  the factors applied to a fixed base scale, and IntendedScaleSettles shows
  that it does come back.
 */
module SquashStretch {
  import opened UnityMath

  /** Mathf.Min(1, 0.2f): the fraction of the remaining way back to 1 covered per frame. */
  const RECOVERY_RATE: real := 0.2

  /** One frame of recovery of a squash factor toward 1 ("no distortion"). */
  function Recover(f: real): (r: real)
    ensures r - 1.0 == 0.8 * (f - 1.0)
    ensures f == 1.0 ==> r == 1.0
  {
    f + (1.0 - f) * RECOVERY_RATE
  }

  /** Each frame of recovery shrinks the distance from 1 by exactly 20%. */
  lemma RecoverShrinksDistance(f: real)
    ensures Abs(Recover(f) - 1.0) == 0.8 * Abs(f - 1.0)
    ensures f != 1.0 ==> Abs(Recover(f) - 1.0) < Abs(f - 1.0)
  {
  }

  /** One frame of recovery keeps a pair of factors summing to 2. */
  lemma RecoverKeepsSum(x: real, y: real)
    requires x + y == 2.0
    ensures Recover(x) + Recover(y) == 2.0
  {
  }

  /**
    What one frame does to the local scale: x and y are multiplied by the
    factors, z is kept. A factor of 1 leaves its axis alone, and an axis
    collapses to 0 exactly when its scale or its factor is 0.
   */
  function ScaleStep(scale: Vector3, squashX: real, squashY: real): (r: Vector3)
    ensures r.z == scale.z
    ensures squashX == 1.0 ==> r.x == scale.x
    ensures squashY == 1.0 ==> r.y == scale.y
    ensures r.x == 0.0 <==> scale.x == 0.0 || squashX == 0.0
    ensures r.y == 0.0 <==> scale.y == 0.0 || squashY == 0.0
  {
    Vector3(scale.x * squashX, scale.y * squashY, scale.z)
  }

  /** A factor after `n` frames of recovery. */
  function RecoverFrames(f: real, n: nat): real
    decreases n
  {
    if n == 0 then f else RecoverFrames(Recover(f), n - 1)
  }

  function Pow(b: real, n: nat): real {
    if n == 0 then 1.0 else b * Pow(b, n - 1)
  }

  /** After `n` frames the distance from 1 has shrunk by a factor 0.8^n. */
  lemma {:induction false} RecoverFramesClosedForm(f: real, n: nat)
    ensures RecoverFrames(f, n) - 1.0 == Pow(0.8, n) * (f - 1.0)
    decreases n
  {
    if n > 0 {
      RecoverFramesClosedForm(Recover(f), n - 1);
      calc {
        RecoverFrames(f, n) - 1.0;
        Pow(0.8, n - 1) * (Recover(f) - 1.0);
        Pow(0.8, n - 1) * (0.8 * (f - 1.0));
        { assert Pow(0.8, n) == 0.8 * Pow(0.8, n - 1); }
        Pow(0.8, n) * (f - 1.0);
      }
    }
  }

  /** Any number of frames of recovery keeps a pair of factors summing to 2. */
  lemma {:induction false} RecoverFramesKeepsSum(x: real, y: real, n: nat)
    requires x + y == 2.0
    ensures RecoverFrames(x, n) + RecoverFrames(y, n) == 2.0
    decreases n
  {
    if n > 0 {
      RecoverKeepsSum(x, y);
      RecoverFramesKeepsSum(Recover(x), Recover(y), n - 1);
    }
  }

  /** 0.8^n lies in [0, 1]. */
  lemma {:induction false} DecayFactorInUnit(n: nat)
    ensures 0.0 <= Pow(0.8, n) <= 1.0
  {
    if n > 0 {
      DecayFactorInUnit(n - 1);
    }
  }

  /** 0.8^n shrinks at least as fast as 1 / (1 + n/4). */
  lemma {:induction false} DecayRate(n: nat)
    ensures Pow(0.8, n) * (1.0 + 0.25 * n as real) <= 1.0
  {
    if n > 0 {
      DecayRate(n - 1);
      DecayFactorInUnit(n - 1);
      var q := Pow(0.8, n - 1);
      var m := (n - 1) as real;
      assert Pow(0.8, n) * (1.0 + 0.25 * n as real) == 0.8 * (q * (1.0 + 0.25 * m)) + 0.2 * q;
    }
  }

  /**
    A squash factor comes back to 1: after `n` frames its distance from 1 is
    at most the initial distance divided by 1 + n/4.
   */
  lemma SettlingBound(f: real, n: nat)
    ensures Abs(RecoverFrames(f, n) - 1.0) * (1.0 + 0.25 * n as real) <= Abs(f - 1.0)
  {
    SettlingDistance(f, n);
    DecayFactorInUnit(n);
    DecayRate(n);
    ShrunkBound(Pow(0.8, n), Abs(f - 1.0), 1.0 + 0.25 * n as real);
  }

  /** Recovery never takes a factor further from 1. */
  lemma DistanceNeverGrows(f: real, n: nat)
    ensures Abs(RecoverFrames(f, n) - 1.0) <= Abs(f - 1.0)
  {
    SettlingDistance(f, n);
    DecayFactorInUnit(n);
    FractionBound(Abs(RecoverFrames(f, n) - 1.0), Pow(0.8, n), Abs(f - 1.0));
  }

  /** A fraction in [0, 1] of a non-negative amount is at most that amount. */
  lemma FractionBound(x: real, p: real, d: real)
    requires x == p * d && 0.0 <= p <= 1.0 && 0.0 <= d
    ensures x <= d
  {
    NonNegativeScales(d, p, 1.0);
  }

  /** The distance from 1 after `n` frames is 0.8^n times the initial distance. */
  lemma SettlingDistance(f: real, n: nat)
    ensures Abs(RecoverFrames(f, n) - 1.0) == Pow(0.8, n) * Abs(f - 1.0)
  {
    RecoverFramesClosedForm(f, n);
    DecayFactorInUnit(n);
    AbsScaled(Pow(0.8, n), f - 1.0);
  }

  lemma AbsScaled(p: real, d: real)
    requires 0.0 <= p
    ensures Abs(p * d) == p * Abs(d)
  {
    if d < 0.0 {
      assert p * d == -(p * -d);
    }
  }

  /** A non-negative amount shrunk by p and then grown by k, with p * k <= 1, is no bigger than before. */
  lemma ShrunkBound(p: real, d: real, k: real)
    requires 0.0 <= p && 0.0 <= d && p * k <= 1.0
    ensures (p * d) * k <= d
  {
    assert (p * d) * k == d * (p * k);
    NonNegativeScales(d, p * k, 1.0);
  }

  /** The local scale after `n` frames that start with the given factors; z is never touched. */
  function ScaleAfterFrames(scale: Vector3, squashX: real, squashY: real, n: nat): (r: Vector3)
    ensures r.z == scale.z
    decreases n
  {
    if n == 0 then scale
    else ScaleAfterFrames(ScaleStep(scale, squashX, squashY), Recover(squashX), Recover(squashY), n - 1)
  }

  /** The product of the factors a squash factor takes over `n` frames of recovery. */
  function FactorProduct(f: real, n: nat): real
    decreases n
  {
    if n == 0 then 1.0 else f * FactorProduct(Recover(f), n - 1)
  }

  /**
    As written, the local scale after `n` frames is the starting scale times
    the product of every factor shown so far, not times the current factor.
   */
  lemma {:induction false} ScaleAfterFramesIsProduct(scale: Vector3, squashX: real, squashY: real, n: nat)
    ensures ScaleAfterFrames(scale, squashX, squashY, n)
         == Vector3(scale.x * FactorProduct(squashX, n), scale.y * FactorProduct(squashY, n), scale.z)
  {
    FramesPerAxis(scale, squashX, squashY, n);
    AxisIsProduct(scale.x, squashX, n);
    AxisIsProduct(scale.y, squashY, n);
  }

  /** One axis of the local scale after `n` frames: multiplied by each factor in turn. */
  function AxisAfterFrames(s: real, f: real, n: nat): real
    decreases n
  {
    if n == 0 then s else AxisAfterFrames(s * f, Recover(f), n - 1)
  }

  lemma {:induction false} FramesPerAxis(scale: Vector3, squashX: real, squashY: real, n: nat)
    ensures ScaleAfterFrames(scale, squashX, squashY, n)
         == Vector3(AxisAfterFrames(scale.x, squashX, n), AxisAfterFrames(scale.y, squashY, n), scale.z)
    decreases n
  {
    if n > 0 {
      var next := ScaleStep(scale, squashX, squashY);
      FramesPerAxis(next, Recover(squashX), Recover(squashY), n - 1);
      assert next.x == scale.x * squashX && next.y == scale.y * squashY;
    }
  }

  lemma {:induction false} AxisIsProduct(s: real, f: real, n: nat)
    ensures AxisAfterFrames(s, f, n) == s * FactorProduct(f, n)
    decreases n
  {
    if n > 0 {
      AxisIsProduct(s * f, Recover(f), n - 1);
      Associate(s, f, FactorProduct(Recover(f), n - 1));
    }
  }

  lemma Associate(a: real, b: real, c: real)
    ensures (a * b) * c == a * (b * c)
  {
  }

  /**
    Because every frame multiplies the CURRENT scale, a squash is never undone:
    after SetSquashX(2.0) the y factor is 0, the first frame sets scale.y to 0,
    and no later frame can bring it back, although the factors return to 1.
   */
  lemma {:induction false} SquashNeverRecovers(scale: Vector3, n: nat)
    requires n >= 1
    ensures ScaleAfterFrames(scale, 2.0, 0.0, n).y == 0.0
    ensures ScaleAfterFrames(scale, 2.0, 0.0, n).z == scale.z
  {
    ZeroStaysZero(ScaleStep(scale, 2.0, 0.0), Recover(2.0), Recover(0.0), n - 1);
  }

  lemma {:induction false} ZeroStaysZero(scale: Vector3, squashX: real, squashY: real, n: nat)
    requires scale.y == 0.0
    ensures ScaleAfterFrames(scale, squashX, squashY, n).y == 0.0
    ensures ScaleAfterFrames(scale, squashX, squashY, n).z == scale.z
    decreases n
  {
    if n > 0 {
      ZeroStaysZero(ScaleStep(scale, squashX, squashY), Recover(squashX), Recover(squashY), n - 1);
    }
  }

  /**
    The evidently intended display: the factors applied to a fixed base scale
    rather than to the scale of the previous frame.
   */
  function IntendedScale(base: Vector3, squashX: real, squashY: real): (r: Vector3)
    ensures squashX == 1.0 && squashY == 1.0 ==> r == base
    ensures r.x - base.x == base.x * (squashX - 1.0)
    ensures r.y - base.y == base.y * (squashY - 1.0)
    ensures r.z == base.z
  {
    Vector3(base.x * squashX, base.y * squashY, base.z)
  }

  /**
    With the intended display a squash is temporary: n frames after it, the
    object shows its base scale times factors whose distance from 1 is 0.8^n
    times the first one, and 0.8^n tends to 0 (DecayRate), where the display
    is the base scale itself.
   */
  lemma IntendedScaleRecovers(base: Vector3, squashX: real, squashY: real, n: nat)
    ensures IntendedScale(base, RecoverFrames(squashX, n), RecoverFrames(squashY, n))
         == IntendedScale(base, Faded(squashX, Pow(0.8, n)), Faded(squashY, Pow(0.8, n)))
  {
    RecoverFramesClosedForm(squashX, n);
    RecoverFramesClosedForm(squashY, n);
  }

  /** The offset `e` is at most the offset `e0` divided by `k`, in size. */
  predicate ShrunkBy(e: real, e0: real, k: real) {
    Abs(e) * k <= Abs(e0)
  }

  /** The factor `p` times as far from 1 as `f`. */
  function Faded(f: real, p: real): real {
    1.0 + p * (f - 1.0)
  }

  /** The scale `p` times as far from `base` as `shown` is, on x and y; z as in `shown`. */
  function Displaced(base: Vector3, shown: Vector3, p: real): Vector3 {
    Vector3(base.x + p * (shown.x - base.x), base.y + p * (shown.y - base.y), shown.z)
  }

  /**
    With the intended display the shown scale comes back to the base scale:
    n frames after a squash the object is 0.8^n times as far from its base
    scale as in the first frame, so on each axis at most the first offset
    divided by 1 + n/4.
   */
  lemma IntendedScaleSettles(base: Vector3, squashX: real, squashY: real, n: nat)
    ensures IntendedScale(base, RecoverFrames(squashX, n), RecoverFrames(squashY, n))
         == Displaced(base, IntendedScale(base, squashX, squashY), Pow(0.8, n))
    ensures var first := IntendedScale(base, squashX, squashY);
      var shown := IntendedScale(base, RecoverFrames(squashX, n), RecoverFrames(squashY, n));
      ShrunkBy(shown.x - base.x, first.x - base.x, 1.0 + 0.25 * n as real) &&
      ShrunkBy(shown.y - base.y, first.y - base.y, 1.0 + 0.25 * n as real)
  {
    IntendedScaleRecovers(base, squashX, squashY, n);
    DecayFactorInUnit(n);
    DecayRate(n);
    FadeToBase(base, squashX, squashY, RecoverFrames(squashX, n), RecoverFrames(squashY, n),
      Pow(0.8, n), 1.0 + 0.25 * n as real);
  }

  /**
    IntendedScaleSettles for factors `rx`, `ry` whose offsets from 1 are p
    times those of `squashX`, `squashY`, with p in [0, 1/k].
   */
  lemma FadeToBase(base: Vector3, squashX: real, squashY: real, rx: real, ry: real, p: real, k: real)
    requires IntendedScale(base, rx, ry) == IntendedScale(base, Faded(squashX, p), Faded(squashY, p))
    requires 0.0 <= p && p * k <= 1.0
    ensures IntendedScale(base, rx, ry) == Displaced(base, IntendedScale(base, squashX, squashY), p)
    ensures var first := IntendedScale(base, squashX, squashY);
      var shown := IntendedScale(base, rx, ry);
      ShrunkBy(shown.x - base.x, first.x - base.x, k) &&
      ShrunkBy(shown.y - base.y, first.y - base.y, k)
  {
    DistortionScales(base, squashX, squashY, p);
    DisplacedShrinks(base, IntendedScale(base, squashX, squashY), p, k);
  }

  /** Moving both factors to p times their offset from 1 moves the shown scale p times as far from the base. */
  lemma DistortionScales(base: Vector3, squashX: real, squashY: real, p: real)
    ensures IntendedScale(base, Faded(squashX, p), Faded(squashY, p))
         == Displaced(base, IntendedScale(base, squashX, squashY), p)
  {
    ScaledOffset(base.x, squashX, p);
    ScaledOffset(base.y, squashY, p);
  }

  lemma ScaledOffset(b: real, f: real, p: real)
    ensures b * Faded(f, p) == b + p * (b * f - b)
  {
  }

  /** With p >= 0 and p * k <= 1, the displaced scale is off the base by at most the first offset divided by k. */
  lemma DisplacedShrinks(base: Vector3, shown: Vector3, p: real, k: real)
    requires 0.0 <= p && p * k <= 1.0
    ensures Abs(Displaced(base, shown, p).x - base.x) * k <= Abs(shown.x - base.x)
    ensures Abs(Displaced(base, shown, p).y - base.y) * k <= Abs(shown.y - base.y)
  {
    OffsetShrinks(Displaced(base, shown, p).x - base.x, shown.x - base.x, p, k);
    OffsetShrinks(Displaced(base, shown, p).y - base.y, shown.y - base.y, p, k);
  }

  /** An offset p times another, with p >= 0 and p * k <= 1, is at most the other divided by k. */
  lemma OffsetShrinks(e: real, e0: real, p: real, k: real)
    requires e == p * e0 && 0.0 <= p && p * k <= 1.0
    ensures Abs(e) * k <= Abs(e0)
  {
    AbsScaled(p, e0);
    ShrunkBound(p, Abs(e0), k);
  }

  lemma NonNegativeScales(a: real, x: real, y: real)
    requires 0.0 <= a && x <= y
    ensures a * x <= a * y
  {
    assert a * (y - x) >= 0.0;
  }

  /** The component: the two factors and the object's local scale. */
  class Squasheable {
    var squashX: real
    var squashY: real
    var localScale: Vector3

    /** The factors always sum to 2. */
    ghost predicate Valid()
      reads this`squashX, this`squashY
    {
      squashX + squashY == 2.0
    }

    /** Both factors start at 1: no distortion. */
    constructor (scale: Vector3)
      ensures Valid()
      ensures squashX == 1.0 && squashY == 1.0 && localScale == scale
    {
      squashX, squashY := 1.0, 1.0;
      localScale := scale;
    }

    /** Multiplies the local scale by the factors, then moves each factor 20% of the way back to 1. */
    method LateUpdate()
      requires Valid()
      modifies this`squashX, this`squashY, this`localScale
      ensures Valid()
      ensures localScale == ScaleStep(old(localScale), old(squashX), old(squashY))
      ensures squashX == Recover(old(squashX)) && squashY == Recover(old(squashY))
    {
      var scale := localScale;
      scale := scale.(x := localScale.x * squashX);
      scale := scale.(y := localScale.y * squashY);
      localScale := scale;

      RecoverKeepsSum(squashX, squashY);
      squashX := squashX + (1.0 - squashX) * RECOVERY_RATE;
      squashY := squashY + (1.0 - squashY) * RECOVERY_RATE;
    }

    /** Squashes along x; y takes up the difference so the factors sum to 2. */
    method SetSquashX(scaleX: real)
      modifies this`squashX, this`squashY
      ensures Valid()
      ensures squashX == scaleX && squashY == 2.0 - scaleX
    {
      squashX := scaleX;
      squashY := 2.0 - scaleX;
    }

    /** Squashes along y (`setSquashY` in the source); x takes up the difference so the factors sum to 2. */
    method SetSquashY(scaleY: real)
      modifies this`squashX, this`squashY
      ensures Valid()
      ensures squashY == scaleY && squashX == 2.0 - scaleY
    {
      squashX := 2.0 - scaleY;
      squashY := scaleY;
    }
  }
}
