/** Angle arithmetic shared by the stimulus generator: the JavaScript remainder
    operator on numbers, normalisation into [0, 360), the acute/right/obtuse
    classification and the band each category is clamped into. Angles are
    exact reals. */
module Angles {

  /** Truncation toward zero, as JavaScript's `%` uses for its quotient. */
  function Trunc(x: real): (n: int)
    ensures x >= 0.0 ==> n as real <= x < n as real + 1.0
    ensures x < 0.0 ==> n as real - 1.0 < x <= n as real
  {
    if x >= 0.0 then x.Floor else -((-x).Floor)
  }

  /** `a % 360` in JavaScript: the remainder takes the sign of `a`. */
  function Rem360(a: real): (r: real)
    ensures a >= 0.0 ==> 0.0 <= r < 360.0
    ensures a < 0.0 ==> -360.0 < r <= 0.0
    ensures (a - r) / 360.0 == Trunc(a / 360.0) as real
  {
    a - 360.0 * Trunc(a / 360.0) as real
  }

  /** `a % 180` in JavaScript. */
  function Rem180(a: real): (r: real)
    ensures a >= 0.0 ==> 0.0 <= r < 180.0
    ensures a < 0.0 ==> -180.0 < r <= 0.0
    ensures (a - r) / 180.0 == Trunc(a / 180.0) as real
  {
    a - 180.0 * Trunc(a / 180.0) as real
  }

  /** `normalizeAngle`: `((angle % 360) + 360) % 360`. */
  function Normalize(a: real): (r: real)
    ensures 0.0 <= r < 360.0
  {
    Rem360(Rem360(a) + 360.0)
  }

  /** The normalised angle differs from the input by a whole number of turns. */
  lemma NormalizeCongruent(a: real)
    ensures (a - Normalize(a)) / 360.0 == ((a - Normalize(a)) / 360.0).Floor as real
  {
    var r1 := Rem360(a);
    var r2 := Rem360(r1 + 360.0);
    assert a - r1 == 360.0 * Trunc(a / 360.0) as real;
    assert r1 + 360.0 - r2 == 360.0 * Trunc((r1 + 360.0) / 360.0) as real;
    assert a - r2 == 360.0 * (Trunc(a / 360.0) + Trunc((r1 + 360.0) / 360.0) - 1) as real;
  }

  /** An angle already in [0, 360) is returned unchanged. */
  lemma NormalizeFixesRange(a: real)
    requires 0.0 <= a < 360.0
    ensures Normalize(a) == a
  {
    assert Trunc(a / 360.0) == 0;
    assert Rem360(a) == a;
    assert Trunc((a + 360.0) / 360.0) == 1;
  }

  /** Normalising twice is normalising once. */
  lemma NormalizeIdempotent(a: real)
    ensures Normalize(Normalize(a)) == Normalize(a)
  {
    NormalizeFixesRange(Normalize(a));
  }

  datatype Category = Acute | Right | Obtuse

  /** `getAngleCategory`: right when `angle % 180` is exactly 90, acute below
      90 (including every negative remainder), obtuse otherwise. */
  function CategoryOf(angle: real): Category {
    var m := Rem180(angle);
    if m == 90.0 then Right
    else if m < 90.0 then Acute
    else Obtuse
  }

  /** On normalised angles the category depends only on the angle's position
      in the half-turn: 90 and 270 are right, [0,90) and [180,270) are acute,
      the rest obtuse. */
  lemma CategoryOfNormalized(a: real)
    requires 0.0 <= a < 360.0
    ensures CategoryOf(a) == Right <==> a == 90.0 || a == 270.0
    ensures CategoryOf(a) == Acute <==> a < 90.0 || (180.0 <= a < 270.0)
    ensures CategoryOf(a) == Obtuse <==> (90.0 < a < 180.0) || 270.0 < a
  {
    if a < 180.0 {
      assert Trunc(a / 180.0) == 0;
      assert Rem180(a) == a;
    } else {
      assert Trunc(a / 180.0) == 1;
      assert Rem180(a) == a - 180.0;
    }
  }

  /** A negative angle with a nonzero remainder is acute, because the
      truncating remainder is negative. */
  lemma NegativeAngleIsAcute(a: real)
    requires -180.0 < a < 0.0
    ensures CategoryOf(a) == Acute
  {
    assert Trunc(a / 180.0) == 0;
  }

  /** The band of angles `generateStimuli` clamps new options into. */
  function BandLow(c: Category): int {
    match c
    case Acute => 0
    case Obtuse => 100
    case Right => 80
  }

  function BandHigh(c: Category): int {
    match c
    case Acute => 80
    case Obtuse => 180
    case Right => 100
  }

  predicate InBand(x: real, c: Category) {
    BandLow(c) as real <= x <= BandHigh(c) as real
  }

  /** `Math.max(lo, Math.min(hi, x))` with the category's band. */
  function ClampToBand(x: real, c: Category): (r: real)
    ensures InBand(r, c)
    ensures InBand(x, c) ==> r == x
    ensures x < BandLow(c) as real ==> r == BandLow(c) as real
    ensures x > BandHigh(c) as real ==> r == BandHigh(c) as real
  {
    var lo := BandLow(c) as real;
    var hi := BandHigh(c) as real;
    var m := if hi < x then hi else x;
    if lo < m then m else lo
  }

  function Abs(x: real): real {
    if x < 0.0 then -x else x
  }
}
