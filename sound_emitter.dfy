/** AISoundEmitter: a sphere trigger whose radius decays from a source radius towards a
    target radius over `decayRate` seconds, and is switched off once it has shrunk to 0. */
module SoundEmitter {
  import opened Engine

  /** The rate at which the interpolator advances: the inverse of the decay time, or 0 for
      decay times up to 0.02 seconds. */
  function InterpolatorSpeed(decayRate: real): (r: real)
    ensures decayRate > 0.02 ==> r * decayRate == 1.0 && r > 0.0
    ensures decayRate <= 0.02 ==> r == 0.0
  {
    if decayRate > 0.02 then 1.0 / decayRate else 0.0
  }

  /** The interpolator after the fixed ticks `dts`, oldest first. */
  function InterpolatorAfter(interpolator: real, dts: seq<real>, speed: real): real
    decreases |dts|
  {
    if dts == [] then interpolator
    else Clamp01(InterpolatorAfter(interpolator, dts[..|dts| - 1], speed) + dts[|dts| - 1] * speed)
  }

  /** How far the ticks `dts` push the interpolator before clamping. */
  function Progress(dts: seq<real>, speed: real): real
    decreases |dts|
  {
    if dts == [] then 0.0 else Progress(dts[..|dts| - 1], speed) + dts[|dts| - 1] * speed
  }

  /** The unclamped progress is the elapsed time times the speed. */
  lemma {:induction false} ProgressIsElapsedTimesSpeed(dts: seq<real>, speed: real)
    ensures Progress(dts, speed) == Elapsed(dts) * speed
    decreases |dts|
  {
    if dts != [] {
      var init := dts[..|dts| - 1];
      ProgressIsElapsedTimesSpeed(init, speed);
      Distribute(Elapsed(init), dts[|dts| - 1], speed);
    }
  }

  /** With non-negative ticks the interpolator never falls back: it is at least its start
      advanced by the progress of the ticks, up to 1. */
  lemma {:induction false} InterpolatorAdvances(interpolator: real, dts: seq<real>, speed: real)
    requires 0.0 <= interpolator <= 1.0 && speed >= 0.0
    requires forall i :: 0 <= i < |dts| ==> dts[i] >= 0.0
    ensures Min(1.0, interpolator + Progress(dts, speed)) <= InterpolatorAfter(interpolator, dts, speed) <= 1.0
    decreases |dts|
  {
    if dts != [] {
      var init := dts[..|dts| - 1];
      assert forall i :: 0 <= i < |init| ==> init[i] >= 0.0;
      InterpolatorAdvances(interpolator, init, speed);
      MulNonNegative(dts[|dts| - 1], speed);
      ClampedStep(InterpolatorAfter(interpolator, init, speed), interpolator + Progress(init, speed), dts[|dts| - 1] * speed);
    }
  }

  /** One clamped step of size `step >= 0` keeps a lower bound `Min(1, a)` moving with it. */
  lemma ClampedStep(prev: real, a: real, step: real)
    requires Min(1.0, a) <= prev <= 1.0 && step >= 0.0
    ensures Min(1.0, a + step) <= Clamp01(prev + step) <= 1.0
  {
  }

  /** Once the ticks add up to the decay time, the radius has reached its target. */
  lemma DecayCompletes(src: real, target: real, interpolator: real, dts: seq<real>, decayRate: real)
    requires 0.0 <= interpolator <= 1.0 && decayRate > 0.02
    requires forall i :: 0 <= i < |dts| ==> dts[i] >= 0.0
    requires Elapsed(dts) >= decayRate
    ensures InterpolatorAfter(interpolator, dts, InterpolatorSpeed(decayRate)) == 1.0
    ensures Lerp(src, target, InterpolatorAfter(interpolator, dts, InterpolatorSpeed(decayRate))) == target
  {
    var speed := InterpolatorSpeed(decayRate);
    InterpolatorAdvances(interpolator, dts, speed);
    ProgressIsElapsedTimesSpeed(dts, speed);
    MulNonNegative(Elapsed(dts) - decayRate, speed);
    Distribute(Elapsed(dts) - decayRate, decayRate, speed);
    assert Progress(dts, speed) >= 1.0;
  }

  /** While shrinking (target not above source), a later interpolator never gives a larger
      radius. */
  lemma ShrinkIsMonotone(src: real, target: real, t1: real, t2: real)
    requires target <= src && t1 <= t2
    ensures Lerp(src, target, t2) <= Lerp(src, target, t1)
  {
    var c1 := Clamp01(t1);
    var c2 := Clamp01(t2);
    assert c1 <= c2;
    MulNonNegative(src - target, c2 - c1);
    Distribute(c1, c2 - c1, target - src);
    assert (target - src) * c2 == (target - src) * c1 - (src - target) * (c2 - c1);
  }

  /** SetRadius's choice of the radius the decay restarts from: an instant or growing resize
      jumps to the new radius, a shrink starts from the current one. */
  function ResizeSource(newRadius: real, radius: real, instantResize: bool): (r: real)
    ensures instantResize ==> r == newRadius
    ensures r == Max(newRadius, radius) || r == newRadius
    ensures !instantResize ==> r == Max(newRadius, radius)
  {
    if instantResize || newRadius > radius then newRadius else radius
  }

  /** A shrink is continuous: the first tick after it, at interpolator 0, keeps the current
      radius; any other resize shows the new radius from the first tick on. */
  lemma ResizeStartsAtSource(newRadius: real, radius: real, instantResize: bool, t: real)
    requires t <= 0.0 || instantResize || newRadius >= radius
    ensures t <= 0.0 ==> Lerp(ResizeSource(newRadius, radius, instantResize), newRadius, t) == ResizeSource(newRadius, radius, instantResize)
    ensures instantResize || newRadius >= radius ==> Lerp(ResizeSource(newRadius, radius, instantResize), newRadius, t) == newRadius
  {
  }

  class AISoundEmitter {
    /** _decayRate, seconds. */
    const decayRate: real
    /** Whether GetComponent found the SphereCollider. */
    const hasCollider: bool
    /** The collider's radius and enabled flag. */
    var radius: real
    var enabled: bool
    var srcRadius: real
    var targetRadius: real
    var interpolator: real
    var interpolatorSpeed: real

    predicate Valid()
      reads this
    {
      0.0 <= interpolator <= 1.0
    }

    /** The component as loaded: collider radius `radius`, every private field 0. */
    constructor (decayRate: real, hasCollider: bool, radius: real, enabled: bool)
      ensures this.decayRate == decayRate && this.hasCollider == hasCollider
      ensures this.radius == radius && this.enabled == enabled
      ensures srcRadius == 0.0 && targetRadius == 0.0 && interpolator == 0.0 && interpolatorSpeed == 0.0
      ensures Valid()
    {
      this.decayRate := decayRate;
      this.hasCollider := hasCollider;
      this.radius := radius;
      this.enabled := enabled;
      srcRadius := 0.0;
      targetRadius := 0.0;
      interpolator := 0.0;
      interpolatorSpeed := 0.0;
    }

    /** Awake: the decay starts and ends at the collider's radius. */
    method Awake()
      modifies this`srcRadius, this`targetRadius, this`interpolatorSpeed
      ensures !hasCollider ==> unchanged(this)
      ensures hasCollider ==>
        && srcRadius == radius && targetRadius == radius
        && interpolatorSpeed == InterpolatorSpeed(decayRate)
    {
      if !hasCollider { return; }
      srcRadius := radius;
      targetRadius := radius;
      if decayRate > 0.02 {
        interpolatorSpeed := 1.0 / decayRate;
      } else {
        interpolatorSpeed := 0.0;
      }
    }

    /** FixedUpdate; `dt` is Time.deltaTime. */
    method FixedUpdate(dt: real)
      requires Valid()
      modifies this`interpolator, this`radius, this`enabled
      ensures Valid()
      ensures !hasCollider ==> unchanged(this)
      ensures hasCollider ==>
        && interpolator == Clamp01(old(interpolator) + dt * interpolatorSpeed)
        && radius == Lerp(srcRadius, targetRadius, interpolator)
        && Min(srcRadius, targetRadius) <= radius <= Max(srcRadius, targetRadius)
        && (enabled <==> radius >= FloatEpsilon)
    {
      if !hasCollider { return; }
      interpolator := Clamp01(interpolator + dt * interpolatorSpeed);
      radius := Lerp(srcRadius, targetRadius, interpolator);
      if radius < FloatEpsilon {
        enabled := false;
      } else {
        enabled := true;
      }
    }

    /** SetRadius: restarts the decay towards `newRadius` unless that already is the target. */
    method SetRadius(newRadius: real, instantResize: bool)
      requires Valid()
      modifies this`srcRadius, this`targetRadius, this`interpolator
      ensures Valid()
      ensures !hasCollider || newRadius == old(targetRadius) ==> unchanged(this)
      ensures hasCollider && newRadius != old(targetRadius) ==>
        && srcRadius == ResizeSource(newRadius, radius, instantResize)
        && targetRadius == newRadius
        && interpolator == 0.0
    {
      if !hasCollider || newRadius == targetRadius { return; }
      srcRadius := if instantResize || newRadius > radius then newRadius else radius;
      targetRadius := newRadius;
      interpolator := 0.0;
    }
  }
}
