/**
 * The angle arithmetic of tdogl.Camera: C#'s remainder on floats, the yaw wrap
 * and the pitch clamp of NormalizeAngles, and the degree/radian conversions the
 * field of view goes through. Every quantity is an exact real.
 */
module CameraMath {

  /** The yaw is kept in [0, FullTurn) degrees. */
  const FullTurn: real := 360.0

  /** The pitch is kept in [-MaxVerticalAngle, MaxVerticalAngle] degrees; below 90 to avoid gimbal lock. */
  const MaxVerticalAngle: real := 85.0

  type PositiveReal = r: real | 0.0 < r witness 1.0

  /**
   * pi for the degree/radian conversions. Its value is left open: the proofs
   * use only that it is positive.
   */
  const Pi: PositiveReal

  /** Rounding toward zero, the rounding C#'s `%` on floats is defined by. */
  function Trunc(x: real): (t: int)
    ensures 0.0 <= x ==> t as real <= x < t as real + 1.0
    ensures x < 0.0 ==> t as real - 1.0 < x <= t as real
  {
    if 0.0 <= x then x.Floor else -((-x).Floor)
  }

  /** `a` and `b` differ by a whole number of turns: they point the same way. */
  ghost predicate WholeTurnsApart(a: real, b: real) {
    ((a - b) / FullTurn).Floor as real == (a - b) / FullTurn
  }

  /**
   * C#'s `x % 360.0f` on floats: `x - 360 * trunc(x / 360)`. The result has the
   * sign of the dividend, so it is negative for a negative `x`, unlike a
   * floor-based modulo.
   */
  function FloatRemainder(x: real): (r: real)
    ensures -FullTurn < r < FullTurn
    ensures 0.0 <= x ==> 0.0 <= r
    ensures x <= 0.0 ==> r <= 0.0
    ensures WholeTurnsApart(r, x)
    ensures -FullTurn < x < FullTurn ==> r == x
  {
    var t := Trunc(x / FullTurn);
    var r := x - FullTurn * t as real;
    assert (r - x) / FullTurn == (-t) as real;
    assert ((-t) as real).Floor == -t;
    r
  }

  /**
   * The yaw normalisation of NormalizeAngles: the C# remainder by 360, then
   * 360 added when that is negative. The result is the one angle in [0, 360)
   * that is a whole number of turns away from `h`, and an angle already in
   * range is left as it is.
   */
  function WrapYaw(h: real): (r: real)
    ensures 0.0 <= r < FullTurn
    ensures WholeTurnsApart(r, h)
    ensures 0.0 <= h < FullTurn ==> r == h
  {
    var a := FloatRemainder(h);
    if a < 0.0 then
      var k := ((a - h) / FullTurn).Floor;
      assert (a + FullTurn - h) / FullTurn == (k + 1) as real;
      a + FullTurn
    else
      a
  }

  /** The distance between two angles on the real line. */
  function Distance(a: real, b: real): (d: real) {
    if a <= b then b - a else a - b
  }

  /**
   * The pitch normalisation of NormalizeAngles: clamped, not wrapped, to
   * [-85, 85]. The result is the angle of that range nearest to `v`.
   */
  function ClampPitch(v: real): (r: real)
    ensures -MaxVerticalAngle <= r <= MaxVerticalAngle
    ensures -MaxVerticalAngle <= v <= MaxVerticalAngle ==> r == v
    ensures forall w :: -MaxVerticalAngle <= w <= MaxVerticalAngle ==> Distance(v, r) <= Distance(v, w)
  {
    if v > MaxVerticalAngle then MaxVerticalAngle
    else if v < -MaxVerticalAngle then -MaxVerticalAngle
    else v
  }

  /** MathHelper.ToRadians. */
  function ToRadians(degrees: real): (radians: real)
    ensures (radians < 0.0) == (degrees < 0.0)
    ensures degrees == 180.0 ==> radians == Pi
  {
    degrees * Pi / 180.0
  }

  /** MathHelper.ToDegrees. */
  function ToDegrees(radians: real): (degrees: real)
    ensures (degrees < 0.0) == (radians < 0.0)
    ensures radians == Pi ==> degrees == 180.0
  {
    assert 0.0 < 180.0 / Pi;
    assert radians * 180.0 / Pi == radians * (180.0 / Pi);
    radians * 180.0 / Pi
  }

  /** Converting degrees to radians and back gives the degrees back. */
  lemma DegreesRoundTrip(degrees: real)
    ensures ToDegrees(ToRadians(degrees)) == degrees
  {
    var radians := ToRadians(degrees);
    assert radians * 180.0 == degrees * Pi;
    assert radians * 180.0 / Pi == degrees * Pi / Pi;
    assert degrees * Pi / Pi == degrees;
    assert ToDegrees(radians) == radians * 180.0 / Pi;
  }

  /** Converting radians to degrees and back gives the radians back. */
  lemma RadiansRoundTrip(radians: real)
    ensures ToRadians(ToDegrees(radians)) == radians
  {
    var degrees := ToDegrees(radians);
    assert degrees * Pi == radians * 180.0;
    assert degrees * Pi / 180.0 == radians * 180.0 / 180.0;
  }

  /** Two angles a whole number of turns from a third are a whole number of turns apart. */
  lemma WholeTurnsTransitive(a: real, b: real, c: real)
    requires WholeTurnsApart(a, b) && WholeTurnsApart(b, c)
    ensures WholeTurnsApart(a, c)
  {
    var i := ((a - b) / FullTurn).Floor;
    var j := ((b - c) / FullTurn).Floor;
    assert (a - c) / FullTurn == (a - b) / FullTurn + (b - c) / FullTurn;
    assert (a - c) / FullTurn == (i + j) as real;
  }

  /** Being a whole number of turns apart does not depend on the order. */
  lemma WholeTurnsSymmetric(a: real, b: real)
    requires WholeTurnsApart(a, b)
    ensures WholeTurnsApart(b, a)
  {
    var i := ((a - b) / FullTurn).Floor;
    var q := (a - b) / FullTurn;
    assert (b - a) / FullTurn == -q;
    assert -q == (-i) as real;
    assert ((-i) as real).Floor == -i;
  }

  /** WrapYaw has one answer: any angle in [0, 360) a whole number of turns from `h` is WrapYaw(h). */
  lemma WrapYawUnique(h: real, r: real)
    requires 0.0 <= r < FullTurn
    requires WholeTurnsApart(r, h)
    ensures r == WrapYaw(h)
  {
    var w := WrapYaw(h);
    WholeTurnsSymmetric(w, h);
    WholeTurnsTransitive(r, h, w);
    var k := ((r - w) / FullTurn).Floor;
    assert -1.0 < (r - w) / FullTurn < 1.0;
    assert k == 0;
  }

  /**
   * Offsetting the yaw twice, normalising after each step, ends where one
   * offset by the sum would: the stored yaw tracks the total of all offsets
   * modulo 360.
   */
  lemma WrapYawAfterOffset(h: real, d: real)
    ensures WrapYaw(WrapYaw(h) + d) == WrapYaw(h + d)
  {
    var w := WrapYaw(h);
    var r := WrapYaw(h + d);
    assert WholeTurnsApart(w + d, h + d) by {
      assert (w + d) - (h + d) == w - h;
    }
    WholeTurnsSymmetric(w + d, h + d);
    WholeTurnsTransitive(r, h + d, w + d);
    WrapYawUnique(w + d, r);
  }

  /** Normalising twice changes nothing more than normalising once. */
  lemma NormalizeIdempotent(h: real, v: real)
    ensures WrapYaw(WrapYaw(h)) == WrapYaw(h)
    ensures ClampPitch(ClampPitch(v)) == ClampPitch(v)
  {
  }
}
