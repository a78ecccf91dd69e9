/**
 * The demo's clamp helper and its orbiting camera controller.
 *
 * `Clamped` is a template over the value type; the demo instantiates it at
 * `float` (inside the controller) and at `int` (when stepping through the
 * environment list), so both instantiations are given here. Floating point
 * is modelled by exact reals: rounding is not captured.
 */
module FsOrbitController {

  /** std::max<T>(lo, std::min<T>(hi, value)), with std::min(a, b) being
    * `b < a ? b : a` and std::max(a, b) being `a < b ? b : a`. */
  function Clamped(value: real, lo: real, hi: real): (r: real)
    ensures lo <= hi ==> lo <= r <= hi
    ensures lo <= value <= hi ==> r == value
    ensures lo <= hi && value < lo ==> r == lo
    ensures lo <= hi && hi < value ==> r == hi
    ensures hi < lo ==> r == lo
  {
    var m := if value < hi then value else hi;
    if lo < m then m else lo
  }

  /** The same template at `int`. */
  function ClampedInt(value: int, lo: int, hi: int): (r: int)
    ensures lo <= hi ==> lo <= r <= hi
    ensures lo <= value <= hi ==> r == value
    ensures lo <= hi && value < lo ==> r == lo
    ensures lo <= hi && hi < value ==> r == hi
    ensures hi < lo ==> r == lo
  {
    var m := if value < hi then value else hi;
    if lo < m then m else lo
  }

  /** Clamping twice is clamping once, for any bounds. */
  lemma ClampedIdempotent(value: real, lo: real, hi: real)
    ensures Clamped(Clamped(value, lo, hi), lo, hi) == Clamped(value, lo, hi)
  {
    if lo <= hi {
      assert lo <= Clamped(value, lo, hi) <= hi;
    } else {
      assert Clamped(value, lo, hi) == lo;
    }
  }

  /** `Clamp` writes the clamped value back through its reference; here the
    * caller assigns the returned value. */
  method Clamp(value: real, lo: real, hi: real) returns (clamped: real)
    ensures lo <= hi ==> lo <= clamped <= hi
    ensures clamped == Clamped(value, lo, hi)
  {
    clamped := Clamped(value, lo, hi);
  }

  /** The demo's environment stepping: the next index stays a valid index of
    * a non-empty list whatever the increment. */
  lemma NextEnvironmentInBounds(current: int, increment: int, count: int)
    requires count >= 1
    ensures 0 <= ClampedInt(current + increment, 0, count - 1) < count
    ensures 0 <= current + increment < count ==>
              ClampedInt(current + increment, 0, count - 1) == current + increment
  {
  }

  /** M_PI. */
  const Pi: real := 3.141592653589793
  const TwoPi: real := 2.0 * Pi

  /** The angle the first loop of EnforcePanBounds leaves: 2π is subtracted
    * while the angle is above π. */
  function DownWrapped(theta: real): real
    decreases theta.Floor
  {
    if theta > Pi then DownWrapped(theta - TwoPi) else theta
  }

  /** The angle the second loop leaves: 2π is added while the angle is below -π. */
  function UpWrapped(theta: real): real
    decreases (-theta).Floor
  {
    if theta < -Pi then UpWrapped(theta + TwoPi) else theta
  }

  /** The angle EnforcePanBounds leaves in `theta`. */
  function Wrapped(theta: real): real
  {
    UpWrapped(DownWrapped(theta))
  }

  /** How many times the first loop subtracts 2π. */
  function DownTurns(theta: real): nat
    decreases theta.Floor
  {
    if theta > Pi then 1 + DownTurns(theta - TwoPi) else 0
  }

  /** How many times the second loop adds 2π. */
  function UpTurns(theta: real): nat
    decreases (-theta).Floor
  {
    if theta < -Pi then 1 + UpTurns(theta + TwoPi) else 0
  }

  /** The first loop removes whole turns, ends at or below π, and does not
    * overshoot below -π. */
  lemma {:induction false} DownWrappedSpec(theta: real)
    ensures DownWrapped(theta) == theta - TwoPi * DownTurns(theta) as real
    ensures DownWrapped(theta) <= Pi
    ensures theta > Pi ==> DownWrapped(theta) > -Pi
    ensures theta <= Pi ==> DownWrapped(theta) == theta
    decreases theta.Floor
  {
    if theta > Pi {
      DownWrappedSpec(theta - TwoPi);
    }
  }

  /** The second loop adds whole turns, ends at or above -π, and does not
    * overshoot above π. */
  lemma {:induction false} UpWrappedSpec(theta: real)
    ensures UpWrapped(theta) == theta + TwoPi * UpTurns(theta) as real
    ensures UpWrapped(theta) >= -Pi
    ensures theta < -Pi ==> UpWrapped(theta) < Pi
    ensures theta >= -Pi ==> UpWrapped(theta) == theta
    decreases (-theta).Floor
  {
    if theta < -Pi {
      UpWrappedSpec(theta + TwoPi);
    }
  }

  /** The wrapped angle lies in [-π, π], differs from the input by a whole
    * number of turns, and an angle already in range is left alone. */
  lemma WrappedSpec(theta: real)
    ensures -Pi <= Wrapped(theta) <= Pi
    ensures Wrapped(theta) == theta + TwoPi * ((UpTurns(DownWrapped(theta)) as int - DownTurns(theta) as int) as real)
    ensures -Pi <= theta <= Pi ==> Wrapped(theta) == theta
  {
    DownWrappedSpec(theta);
    UpWrappedSpec(DownWrapped(theta));
  }

  /** One zoom step: the radius grows by radius * gain * delta, then is
    * clamped to the radius limits. */
  function DollyStep(radius: real, gain: real, delta: real, lo: real, hi: real): real
  {
    Clamped(radius + radius * gain * delta, lo, hi)
  }

  /** For a positive in-range radius, a step whose gain and delta agree in
    * sign never moves the camera in, and one whose signs disagree never
    * moves it out; the result stays within the limits. */
  lemma DollyDirection(radius: real, gain: real, delta: real, lo: real, hi: real)
    requires 0.0 < lo <= radius <= hi
    ensures lo <= DollyStep(radius, gain, delta, lo, hi) <= hi
    ensures gain * delta >= 0.0 ==> DollyStep(radius, gain, delta, lo, hi) >= radius
    ensures gain * delta <= 0.0 ==> DollyStep(radius, gain, delta, lo, hi) <= radius
  {
    var gd := gain * delta;
    assert radius * gain * delta == radius * gd;
    if gd >= 0.0 {
      assert radius * gd >= 0.0;
    } else {
      assert radius * (-gd) >= 0.0;
      assert radius * gd == -(radius * (-gd));
    }
  }

  /** A 2D input delta (filament::math::float2). */
  datatype Delta2 = Delta2(x: real, y: real)

  /** The camera controller. Its limits and gains are public fields in the
    * source and keep their defaults unless a caller changes them. */
  class OrbitController {
    var radius: real
    var theta: real
    var phi: real

    var phiMin: real
    var phiMax: real
    var radiusMin: real
    var radiusMax: real

    var mousePanGain: real
    var nonmousePanGain: real
    var mouseDollyGain: real
    var nonmouseDollyGain: real

    /** The limits describe non-empty ranges. */
    predicate Valid()
      reads this`phiMin, this`phiMax, this`radiusMin, this`radiusMax
    {
      phiMin <= phiMax && radiusMin <= radiusMax
    }

    /** The pose inside the limits. */
    predicate InBounds()
      reads this`theta, this`phi, this`radius, this`phiMin, this`phiMax,
            this`radiusMin, this`radiusMax
    {
      -Pi <= theta <= Pi && phiMin <= phi <= phiMax && radiusMin <= radius <= radiusMax
    }

    constructor()
      ensures radius == 5.0 && theta == 0.0 && phi == 0.0
      ensures phiMin == -0.48 * Pi && phiMax == 0.48 * Pi
      ensures radiusMin == 1.5 && radiusMax == 150.0
      ensures mousePanGain == 0.01 && nonmousePanGain == 0.1
      ensures mouseDollyGain == -0.1 && nonmouseDollyGain == 0.05
      ensures Valid() && InBounds()
    {
      radius := 5.0;
      theta := 0.0;
      phi := 0.0;
      phiMin := -0.48 * Pi;
      phiMax := 0.48 * Pi;
      radiusMin := 1.5;
      radiusMax := 150.0;
      mousePanGain := 0.01;
      nonmousePanGain := 0.1;
      mouseDollyGain := -0.1;
      nonmouseDollyGain := 0.05;
    }

    /** Brings theta into [-π, π] by whole turns, then clamps phi. */
    method EnforcePanBounds()
      modifies this`theta, this`phi
      ensures theta == Wrapped(old(theta))
      ensures phi == Clamped(old(phi), phiMin, phiMax)
      ensures -Pi <= theta <= Pi
      ensures Valid() ==> phiMin <= phi <= phiMax
      ensures Valid() && old(InBounds()) ==> InBounds()
    {
      ghost var t0 := theta;
      while theta > Pi
        modifies this`theta
        invariant DownWrapped(theta) == DownWrapped(t0)
        decreases theta.Floor
      {
        theta := theta - TwoPi;
      }
      ghost var t1 := theta;
      while theta < -Pi
        modifies this`theta
        invariant UpWrapped(theta) == UpWrapped(t1)
        decreases (-theta).Floor
      {
        theta := theta + TwoPi;
      }
      WrappedSpec(t0);
      phi := Clamp(phi, phiMin, phiMax);
    }

    method MousePan(delta: Delta2)
      modifies this`theta, this`phi
      ensures theta == Wrapped(old(theta) - mousePanGain * delta.x)
      ensures phi == Clamped(old(phi) + mousePanGain * delta.y, phiMin, phiMax)
      ensures -Pi <= theta <= Pi
      ensures Valid() ==> phiMin <= phi <= phiMax
      ensures Valid() && old(InBounds()) ==> InBounds()
    {
      theta := theta - mousePanGain * delta.x;
      phi := phi + mousePanGain * delta.y;
      ghost var t, p := theta, phi;
      EnforcePanBounds();
      assert t == old(theta) - mousePanGain * delta.x;
      assert theta == Wrapped(old(theta) - mousePanGain * delta.x);
      assert phi == Clamped(p, phiMin, phiMax);
    }

    method NonmousePan(delta: Delta2)
      modifies this`theta, this`phi
      ensures theta == Wrapped(old(theta) + nonmousePanGain * delta.x)
      ensures phi == Clamped(old(phi) + nonmousePanGain * delta.y, phiMin, phiMax)
      ensures -Pi <= theta <= Pi
      ensures Valid() ==> phiMin <= phi <= phiMax
      ensures Valid() && old(InBounds()) ==> InBounds()
    {
      theta := theta + nonmousePanGain * delta.x;
      phi := phi + nonmousePanGain * delta.y;
      ghost var t, p := theta, phi;
      EnforcePanBounds();
      assert t == old(theta) + nonmousePanGain * delta.x;
      assert theta == Wrapped(old(theta) + nonmousePanGain * delta.x);
      assert phi == Clamped(p, phiMin, phiMax);
    }

    method MouseDolly(delta: real)
      modifies this`radius
      ensures radius == DollyStep(old(radius), mouseDollyGain, delta, radiusMin, radiusMax)
      ensures Valid() ==> radiusMin <= radius <= radiusMax
      ensures Valid() && old(InBounds()) ==> InBounds()
    {
      radius := radius + radius * mouseDollyGain * delta;
      radius := Clamp(radius, radiusMin, radiusMax);
    }

    method NonmouseDolly(delta: real)
      modifies this`radius
      ensures radius == DollyStep(old(radius), nonmouseDollyGain, delta, radiusMin, radiusMax)
      ensures Valid() ==> radiusMin <= radius <= radiusMax
      ensures Valid() && old(InBounds()) ==> InBounds()
    {
      radius := radius + radius * nonmouseDollyGain * delta;
      radius := Clamp(radius, radiusMin, radiusMax);
    }
  }

  /** A mouse pan, a keyboard pan and the two zooms, in this order, bring a
    * controller with ordered limits inside them, whatever pose it started
    * in. (That each operation keeps an in-bounds controller in bounds is
    * its own last postcondition.) */
  method PanAndZoom(c: OrbitController, pan: Delta2, zoom: real)
    requires c.Valid()
    modifies c`theta, c`phi, c`radius
    ensures c.InBounds()
  {
    c.MousePan(pan);
    c.NonmousePan(pan);
    c.MouseDolly(zoom);
    c.NonmouseDolly(zoom);
  }
}
