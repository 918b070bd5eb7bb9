/**
 * The scalar arithmetic of the orbit controller: clamping into limits that
 * may be infinite, THREE.Spherical.makeSafe, the zoom scale, the rotation
 * angles and the per-tick application of the accumulated deltas to the
 * spherical pose (radius, polar angle phi, azimuthal angle theta).
 */
module SphericalMath {
  import opened Wrappers

  /** Math.PI, as the double it denotes, written out. */
  const Pi: real := 3.141592653589793
  /** The margin makeSafe keeps phi away from the poles by. */
  const Eps: real := 0.000001
  /** The fixed screen sizes a drag is measured against (`#referenceWidth`, `#referenceHeight`). */
  const ReferenceWidth: real := 575.0
  const ReferenceHeight: real := 625.0

  /**
   * A limit that may be infinite. In a lower limit None is -Infinity, in an
   * upper limit None is +Infinity.
   */
  type Bound = Option<real>

  /** Math.min(hi, x) */
  function Min(hi: Bound, x: real): real {
    if hi.Some? && hi.value < x then hi.value else x
  }

  /** Math.max(lo, x) */
  function Max(lo: Bound, x: real): real {
    if lo.Some? && lo.value > x then lo.value else x
  }

  /** x lies between the two limits. */
  predicate Within(lo: Bound, hi: Bound, x: real) {
    (lo.None? || lo.value <= x) && (hi.None? || x <= hi.value)
  }

  /** The limits describe a non-empty interval. */
  predicate Ordered(lo: Bound, hi: Bound) {
    lo.None? || hi.None? || lo.value <= hi.value
  }

  /**
   * Math.max(lo, Math.min(hi, x)): the clamp the controller applies to theta,
   * phi, the radius and the orthographic zoom. When the limits are crossed the
   * lower one wins.
   */
  function Clamp(lo: Bound, hi: Bound, x: real): (r: real)
  {
    Max(lo, Min(hi, x))
  }

  /**
   * The clamp lands inside ordered limits, keeps a value already inside
   * them, and otherwise takes the limit crossed; crossed limits give the
   * lower one.
   */
  lemma ClampBounds(lo: Bound, hi: Bound, x: real)
    ensures lo.Some? ==> lo.value <= Clamp(lo, hi, x)
    ensures Ordered(lo, hi) ==> Within(lo, hi, Clamp(lo, hi, x))
    ensures Within(lo, hi, x) ==> Clamp(lo, hi, x) == x
    ensures !Ordered(lo, hi) ==> Clamp(lo, hi, x) == lo.value
    ensures Ordered(lo, hi) && lo.Some? && x < lo.value ==> Clamp(lo, hi, x) == lo.value
    ensures Ordered(lo, hi) && hi.Some? && x > hi.value ==> Clamp(lo, hi, x) == hi.value
  {
  }

  /** Clamping a clamped value changes nothing, whatever the limits. */
  lemma ClampIdempotent(lo: Bound, hi: Bound, x: real)
    ensures Clamp(lo, hi, Clamp(lo, hi, x)) == Clamp(lo, hi, x)
  {
  }

  /** THREE.Spherical.makeSafe: phi is pulled into [Eps, Pi - Eps]. */
  function MakeSafe(phi: real): (r: real)
  {
    Clamp(Some(Eps), Some(Pi - Eps), phi)
  }

  /** makeSafe's library contract: phi ends in [Eps, Pi - Eps] and is kept when already there. */
  lemma MakeSafeBounds(phi: real)
    ensures Eps <= MakeSafe(phi) <= Pi - Eps
    ensures Eps <= phi <= Pi - Eps ==> MakeSafe(phi) == phi
  {
  }

  /** b to the power n. */
  function Pow(b: real, n: nat): real {
    if n == 0 then 1.0 else b * Pow(b, n - 1)
  }

  lemma {:induction false} PowInUnit(b: real, n: nat)
    requires 0.0 < b <= 1.0
    ensures 0.0 < Pow(b, n) <= 1.0
    ensures n > 0 && b < 1.0 ==> Pow(b, n) < 1.0
  {
    if n > 0 {
      PowInUnit(b, n - 1);
      assert Pow(b, n) == b * Pow(b, n - 1);
    }
  }

  /**
   * getZoomScale: Math.pow(0.95, zoomSpeed). A positive factor below one for
   * every positive speed, so dollying in divides by it and dollying out
   * multiplies by it.
   */
  function ZoomScale(zoomSpeed: nat): (r: real)
    ensures 0.0 < r <= 1.0
    ensures zoomSpeed > 0 ==> r < 1.0
    ensures zoomSpeed == 1 ==> r == 0.95
  {
    PowInUnit(0.95, zoomSpeed);
    Pow(0.95, zoomSpeed)
  }

  /** The zoom scale of a pinch: the zoom scale times the mobile zoom factor. */
  function PinchZoomScale(zoomSpeed: nat, factor: real): (r: real)
    requires factor > 0.0
    ensures r > 0.0
    ensures factor == 1.0 ==> r == ZoomScale(zoomSpeed)
  {
    ZoomScale(zoomSpeed) * factor
  }

  /**
   * getAutoRotationAngle: 2 * PI / 60 / 60 * autoRotateSpeed, so that
   * 3600 ticks at speed one make one full turn.
   */
  function AutoRotationAngle(autoRotateSpeed: real): (r: real)
    ensures 3600.0 * r == 2.0 * Pi * autoRotateSpeed
  {
    2.0 * Pi / 60.0 / 60.0 * autoRotateSpeed
  }

  /**
   * The angle a drag of `pixels` turns the view by: 2 * PI * pixels / reference * speed.
   * A drag across one whole reference length turns it once around.
   */
  function DragAngle(pixels: real, reference: real, speed: real): (r: real)
    requires reference > 0.0
    ensures pixels == reference ==> r == 2.0 * Pi * speed
    ensures pixels == 0.0 ==> r == 0.0
  {
    2.0 * Pi * pixels / reference * speed
  }

  /** A position on the sphere around the target (THREE.Spherical). */
  datatype Spherical = Spherical(radius: real, phi: real, theta: real)

  /** The accumulated, not yet applied angular change (`#sphericalDelta`). */
  datatype Delta = Delta(theta: real, phi: real)

  /** The configured limits of distance, polar angle and azimuth angle. */
  datatype Limits = Limits(
    minDistance: Bound, maxDistance: Bound,
    minPolarAngle: Bound, maxPolarAngle: Bound,
    minAzimuthAngle: Bound, maxAzimuthAngle: Bound)

  /**
   * The spherical part of one update: the deltas are added, theta and phi
   * clamped, phi made safe, the radius multiplied by the scale and clamped.
   */
  function Apply(s: Spherical, d: Delta, scale: real, lim: Limits): (r: Spherical)
  {
    var theta := Clamp(lim.minAzimuthAngle, lim.maxAzimuthAngle, s.theta + d.theta);
    var phi := MakeSafe(Clamp(lim.minPolarAngle, lim.maxPolarAngle, s.phi + d.phi));
    var radius := Clamp(lim.minDistance, lim.maxDistance, s.radius * scale);
    Spherical(radius, phi, theta)
  }

  /**
   * After an update theta and the radius lie within ordered limits and phi
   * within the makeSafe margin; a value the limits admit is taken unclamped.
   */
  lemma ApplyBounds(s: Spherical, d: Delta, scale: real, lim: Limits)
    ensures Ordered(lim.minAzimuthAngle, lim.maxAzimuthAngle) ==>
      Within(lim.minAzimuthAngle, lim.maxAzimuthAngle, Apply(s, d, scale, lim).theta)
    ensures Ordered(lim.minDistance, lim.maxDistance) ==>
      Within(lim.minDistance, lim.maxDistance, Apply(s, d, scale, lim).radius)
    ensures Eps <= Apply(s, d, scale, lim).phi <= Pi - Eps
    ensures Within(lim.minAzimuthAngle, lim.maxAzimuthAngle, s.theta + d.theta) ==>
      Apply(s, d, scale, lim).theta == s.theta + d.theta
    ensures Within(lim.minDistance, lim.maxDistance, s.radius * scale) ==>
      Apply(s, d, scale, lim).radius == s.radius * scale
  {
  }

  /** The polar limits leave room for makeSafe: neither lies beyond the margin. */
  predicate PolarLimitsSafe(lim: Limits) {
    && Ordered(lim.minPolarAngle, lim.maxPolarAngle)
    && (lim.minPolarAngle.None? || lim.minPolarAngle.value <= Pi - Eps)
    && (lim.maxPolarAngle.None? || lim.maxPolarAngle.value >= Eps)
  }

  /**
   * With polar limits that leave room for makeSafe, phi ends inside them
   * even after makeSafe moved it.
   */
  lemma ApplyKeepsPolarLimits(s: Spherical, d: Delta, scale: real, lim: Limits)
    requires PolarLimitsSafe(lim)
    ensures Within(lim.minPolarAngle, lim.maxPolarAngle, Apply(s, d, scale, lim).phi)
  {
    var c := Clamp(lim.minPolarAngle, lim.maxPolarAngle, s.phi + d.phi);
    assert Within(lim.minPolarAngle, lim.maxPolarAngle, c);
    var r := MakeSafe(c);
    assert Apply(s, d, scale, lim).phi == r;
    if c < Eps {
      assert r == Eps;
    } else if c > Pi - Eps {
      assert r == Pi - Eps;
    } else {
      assert r == c;
    }
  }

  /** makeSafe after a clamp, applied twice, is applied once. */
  lemma SafeClampIdempotent(lo: Bound, hi: Bound, x: real)
    ensures MakeSafe(Clamp(lo, hi, MakeSafe(Clamp(lo, hi, x)))) == MakeSafe(Clamp(lo, hi, x))
  {
    var c := Clamp(lo, hi, x);
    var m := MakeSafe(c);
    if m != c {
      var c2 := Clamp(lo, hi, m);
      if Ordered(lo, hi) {
        if c < Eps {
          assert m == Eps;
          assert c2 == Eps || (hi.Some? && c2 == hi.value && hi.value < Eps);
        } else {
          assert m == Pi - Eps;
          assert c2 == Pi - Eps || (lo.Some? && c2 == lo.value && lo.value > Pi - Eps);
        }
      }
    }
  }

  /**
   * Applying no delta at unit scale to a pose that `Apply` produced returns
   * the same pose: a settled pose stays put.
   */
  lemma {:induction false} ApplySettles(s: Spherical, d: Delta, scale: real, lim: Limits)
    ensures var p := Apply(s, d, scale, lim); Apply(p, Delta(0.0, 0.0), 1.0, lim) == p
  {
    var p := Apply(s, d, scale, lim);
    ClampIdempotent(lim.minAzimuthAngle, lim.maxAzimuthAngle, s.theta + d.theta);
    ClampIdempotent(lim.minDistance, lim.maxDistance, s.radius * scale);
    SafeClampIdempotent(lim.minPolarAngle, lim.maxPolarAngle, s.phi + d.phi);
    assert p.radius * 1.0 == p.radius;
  }

  /**
   * The damping step of an update: the deltas decay by (1 - dampingFactor)
   * when damping is on and are zeroed otherwise.
   */
  function Decay(d: Delta, enableDamping: bool, dampingFactor: real): (r: Delta)
  {
    if enableDamping then
      Delta(d.theta * (1.0 - dampingFactor), d.phi * (1.0 - dampingFactor))
    else
      Delta(0.0, 0.0)
  }

  /** Without damping the deltas vanish; a damping factor of one stops them, zero keeps them. */
  lemma DecayCases(d: Delta, enableDamping: bool, dampingFactor: real)
    ensures !enableDamping ==> Decay(d, enableDamping, dampingFactor) == Delta(0.0, 0.0)
    ensures enableDamping && dampingFactor == 1.0 ==> Decay(d, enableDamping, dampingFactor) == Delta(0.0, 0.0)
    ensures enableDamping && dampingFactor == 0.0 ==> Decay(d, enableDamping, dampingFactor) == d
  {
  }

  lemma SameFactor(x: real, a: real, b: real)
    requires a == b
    ensures x * a == x * b
  {
  }

  lemma ScaleStep(x: real, p: real, k: real, xp: real, kp: real)
    requires xp == x * p && kp == k * p
    ensures xp * k == x * kp
  {
  }

  /** n damping steps in a row. */
  function DecayN(d: Delta, dampingFactor: real, n: nat): Delta {
    if n == 0 then d else Decay(DecayN(d, dampingFactor, n - 1), true, dampingFactor)
  }

  lemma {:induction false} DecayThetaGeometric(d: Delta, k: real, n: nat)
    ensures DecayN(d, 1.0 - k, n).theta == d.theta * Pow(k, n)
  {
    if n > 0 {
      DecayThetaGeometric(d, k, n - 1);
      var prev := DecayN(d, 1.0 - k, n - 1);
      var x, p := prev.theta, Pow(k, n - 1);
      assert DecayN(d, 1.0 - k, n).theta == x * (1.0 - (1.0 - k));
      SameFactor(x, 1.0 - (1.0 - k), k);
      ScaleStep(d.theta, p, k, x, Pow(k, n));
    }
  }

  lemma {:induction false} DecayPhiGeometric(d: Delta, k: real, n: nat)
    ensures DecayN(d, 1.0 - k, n).phi == d.phi * Pow(k, n)
  {
    if n > 0 {
      DecayPhiGeometric(d, k, n - 1);
      var prev := DecayN(d, 1.0 - k, n - 1);
      var x, p := prev.phi, Pow(k, n - 1);
      assert DecayN(d, 1.0 - k, n).phi == x * (1.0 - (1.0 - k));
      SameFactor(x, 1.0 - (1.0 - k), k);
      ScaleStep(d.phi, p, k, x, Pow(k, n));
    }
  }

  /**
   * After n damped ticks the delta is the initial one times (1 - dampingFactor)^n:
   * the rotation eases out geometrically.
   */
  lemma DecayGeometric(d: Delta, dampingFactor: real, n: nat)
    ensures DecayN(d, dampingFactor, n) ==
      Delta(d.theta * Pow(1.0 - dampingFactor, n), d.phi * Pow(1.0 - dampingFactor, n))
  {
    var k := 1.0 - dampingFactor;
    assert 1.0 - k == dampingFactor;
    DecayThetaGeometric(d, k, n);
    DecayPhiGeometric(d, k, n);
  }
}
