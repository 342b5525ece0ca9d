/**
 * The ride-speed and ride-duration models of GPXScaler: the power-to-weight band table
 * (calculate_cycling_speed), the fixed ten-step Newton solver for the power-balance equation
 * (estimate_speed_physics) and the two-segment duration estimate (estimate_cycling_time_physics).
 * Floating point is modelled by exact reals.
 */
module SpeedModel {
  import opened Wrappers

  const Gravity: real := 9.81

  function RealMax(a: real, b: real): real
  {
    if a >= b then a else b
  }

  function RealMin(a: real, b: real): real
  {
    if a <= b then a else b
  }

  /** The km/h-per-(W/kg) factor of the power-to-weight band containing `powerToWeight`. */
  function SpeedFactor(powerToWeight: real): (f: real)
    ensures 8.5 <= f <= 16.0
  {
    if powerToWeight > 4.0 then 8.5
    else if powerToWeight > 3.0 then 9.5
    else if powerToWeight > 2.2 then 11.5
    else if powerToWeight > 1.6 then 13.5
    else if powerToWeight > 1.2 then 16.0
    else 15.0
  }

  /** Flat-ground speed (m/s) before the gradient adjustment and the 3 m/s floor. */
  function BaseSpeed(powerWatts: real, weightKg: real): real
    requires weightKg != 0.0
  {
    var powerToWeight := powerWatts / weightKg;
    powerToWeight * SpeedFactor(powerToWeight) / 3.6
  }

  /** The speed multiplier for a climb of `elevationChangeM` over `distanceM`, clamped to [0.3, 1.8]. */
  function GradientAdjustment(elevationChangeM: real, distanceM: real, gradeFactor: real): (a: real)
    requires distanceM > 0.0
    ensures 0.3 <= a <= 1.8
    ensures var raw := 1.0 - (elevationChangeM / distanceM) * 100.0 * gradeFactor;
      (0.3 <= raw <= 1.8 ==> a == raw) && (raw < 0.3 ==> a == 0.3) && (raw > 1.8 ==> a == 1.8)
  {
    var gradientPercent := (elevationChangeM / distanceM) * 100.0;
    var speedAdjustment := 1.0 - gradientPercent * gradeFactor;
    RealMax(0.3, RealMin(1.8, speedAdjustment))
  }

  /** The speed before the 3 m/s floor: the gradient adjustment applies only to a segment of positive length. */
  function AdjustedSpeed(powerWatts: real, weightKg: real, elevationChangeM: real, distanceM: real, gradeFactor: real): real
    requires weightKg != 0.0
  {
    if distanceM > 0.0 then BaseSpeed(powerWatts, weightKg) * GradientAdjustment(elevationChangeM, distanceM, gradeFactor)
    else BaseSpeed(powerWatts, weightKg)
  }

  /**
   * calculate_cycling_speed (m/s). The division by the weight raises ZeroDivisionError in the source
   * for a zero weight, which no caller handles, so it is excluded here.
   */
  function CyclingSpeed(powerWatts: real, weightKg: real, elevationChangeM: real, distanceM: real,
                        gradeFactor: real := 0.04): (v: real)
    requires weightKg != 0.0
    ensures v >= 3.0
    ensures v >= AdjustedSpeed(powerWatts, weightKg, elevationChangeM, distanceM, gradeFactor)
    ensures v == 3.0 || v == AdjustedSpeed(powerWatts, weightKg, elevationChangeM, distanceM, gradeFactor)
  {
    var baseSpeedMs := BaseSpeed(powerWatts, weightKg);
    var adjustedSpeed := if distanceM > 0.0 then baseSpeedMs * GradientAdjustment(elevationChangeM, distanceM, gradeFactor)
                         else baseSpeedMs;
    RealMax(3.0, adjustedSpeed)
  }

  /** The band table: thresholds 4.0, 3.0, 2.2, 1.6 and 1.2 W/kg, each band closed above. */
  lemma SpeedFactorBands(powerToWeight: real)
    ensures powerToWeight > 4.0 ==> SpeedFactor(powerToWeight) == 8.5
    ensures 3.0 < powerToWeight <= 4.0 ==> SpeedFactor(powerToWeight) == 9.5
    ensures 2.2 < powerToWeight <= 3.0 ==> SpeedFactor(powerToWeight) == 11.5
    ensures 1.6 < powerToWeight <= 2.2 ==> SpeedFactor(powerToWeight) == 13.5
    ensures 1.2 < powerToWeight <= 1.6 ==> SpeedFactor(powerToWeight) == 16.0
    ensures powerToWeight <= 1.2 ==> SpeedFactor(powerToWeight) == 15.0
  {
  }

  /** Without a positive segment length the elevation change has no influence on the speed. */
  lemma NoGradientWithoutDistance(powerWatts: real, weightKg: real, e1: real, e2: real, distanceM: real, gradeFactor: real)
    requires weightKg != 0.0 && distanceM <= 0.0
    ensures CyclingSpeed(powerWatts, weightKg, e1, distanceM, gradeFactor)
         == CyclingSpeed(powerWatts, weightKg, e2, distanceM, gradeFactor)
         == RealMax(3.0, BaseSpeed(powerWatts, weightKg))
  {
  }

  /** A rider with non-negative power-to-weight is never faster on the steeper of two segments of the same length. */
  lemma SteeperIsNotFaster(powerWatts: real, weightKg: real, e1: real, e2: real, distanceM: real, gradeFactor: real)
    requires weightKg != 0.0 && distanceM > 0.0 && gradeFactor >= 0.0 && e1 <= e2
    requires powerWatts / weightKg >= 0.0
    ensures CyclingSpeed(powerWatts, weightKg, e2, distanceM, gradeFactor)
         <= CyclingSpeed(powerWatts, weightKg, e1, distanceM, gradeFactor)
  {
    var b := BaseSpeed(powerWatts, weightKg);
    BaseSpeedNonNegative(powerWatts, weightKg);
    var a1 := GradientAdjustment(e1, distanceM, gradeFactor);
    var a2 := GradientAdjustment(e2, distanceM, gradeFactor);
    AdjustmentMonotone(e1, e2, distanceM, gradeFactor);
    MultiplyMonotone(a2, a1, b);
    var s1 := AdjustedSpeed(powerWatts, weightKg, e1, distanceM, gradeFactor);
    var s2 := AdjustedSpeed(powerWatts, weightKg, e2, distanceM, gradeFactor);
    assert s2 <= s1;
    CyclingSpeedIsFloored(powerWatts, weightKg, e1, distanceM, gradeFactor);
    CyclingSpeedIsFloored(powerWatts, weightKg, e2, distanceM, gradeFactor);
  }

  lemma CyclingSpeedIsFloored(powerWatts: real, weightKg: real, elevationChangeM: real, distanceM: real, gradeFactor: real)
    requires weightKg != 0.0
    ensures CyclingSpeed(powerWatts, weightKg, elevationChangeM, distanceM, gradeFactor)
         == RealMax(3.0, AdjustedSpeed(powerWatts, weightKg, elevationChangeM, distanceM, gradeFactor))
  {
  }

  lemma BaseSpeedNonNegative(powerWatts: real, weightKg: real)
    requires weightKg != 0.0 && powerWatts / weightKg >= 0.0
    ensures BaseSpeed(powerWatts, weightKg) >= 0.0
  {
    var ptw := powerWatts / weightKg;
    MultiplyMonotone(0.0, ptw, SpeedFactor(ptw));
  }

  lemma AdjustmentMonotone(e1: real, e2: real, distanceM: real, gradeFactor: real)
    requires distanceM > 0.0 && gradeFactor >= 0.0 && e1 <= e2
    ensures GradientAdjustment(e2, distanceM, gradeFactor) <= GradientAdjustment(e1, distanceM, gradeFactor)
  {
    DivideMonotone(e1, e2, distanceM);
    var g1 := (e1 / distanceM) * 100.0;
    var g2 := (e2 / distanceM) * 100.0;
    MultiplyMonotone(g1, g2, gradeFactor);
    var raw1 := 1.0 - g1 * gradeFactor;
    var raw2 := 1.0 - g2 * gradeFactor;
    assert GradientAdjustment(e1, distanceM, gradeFactor) == RealMax(0.3, RealMin(1.8, raw1));
    assert GradientAdjustment(e2, distanceM, gradeFactor) == RealMax(0.3, RealMin(1.8, raw2));
  }

  lemma DivideMonotone(a: real, b: real, d: real)
    requires d > 0.0 && a <= b
    ensures a / d <= b / d
  {
    assert b / d - a / d == (b - a) / d;
  }

  lemma MultiplyMonotone(a: real, b: real, k: real)
    requires k >= 0.0 && a <= b
    ensures a * k <= b * k && k * a <= k * b
  {
    assert b * k - a * k == (b - a) * k;
  }

  function Square(x: real): real
  {
    x * x
  }

  function Cube(x: real): real
  {
    x * x * x
  }

  /**
   * One Newton update of v for the power balance
   * P = cr*m*g*v + 0.5*cda*rho*(v+wind)^3 + m*g*gradient*v, followed by the clamp v >= 1.
   * A vanishing derivative raises ZeroDivisionError.
   */
  function NewtonStep(v: real, power: real, weight: real, gradient: real,
                      cr: real, cda: real, rho: real, wind: real): (r: Result<real>)
    ensures r.Ok? ==> r.value >= 1.0
  {
    var rolling := cr * weight * Gravity * v;
    var air := 0.5 * cda * rho * Cube(v + wind);
    var gravity := weight * Gravity * gradient * v;
    var f := rolling + air + gravity - power;
    var df := cr * weight * Gravity + 1.5 * cda * rho * Square(v + wind) + weight * Gravity * gradient;
    if df == 0.0 then Err(ZeroDivisionError)
    else
      var next := v - f / df;
      Ok(if next < 1.0 then 1.0 else next)
  }

  /** `n` Newton updates from `v`, with no early exit; the first exception ends the iteration. */
  function NewtonIterate(n: nat, v: real, power: real, weight: real, gradient: real,
                         cr: real, cda: real, rho: real, wind: real): (r: Result<real>)
    ensures n > 0 && r.Ok? ==> r.value >= 1.0
    decreases n
  {
    if n == 0 then Ok(v)
    else
      match NewtonStep(v, power, weight, gradient, cr, cda, rho, wind)
      case Err(e) => Err(e)
      case Ok(next) => NewtonIterate(n - 1, next, power, weight, gradient, cr, cda, rho, wind)
  }

  /** estimate_speed_physics: exactly ten Newton updates from v = 8 m/s. */
  method EstimateSpeedPhysics(power: real, weight: real, gradient: real,
                              cr: real := 0.005, cda: real := 0.3, rho: real := 1.225, wind: real := 0.0)
    returns (r: Result<real>)
    ensures r == NewtonIterate(10, 8.0, power, weight, gradient, cr, cda, rho, wind)
    ensures r.Ok? ==> r.value >= 1.0
  {
    var v := 8.0;
    for k := 0 to 10
      invariant NewtonIterate(10 - k, v, power, weight, gradient, cr, cda, rho, wind)
             == NewtonIterate(10, 8.0, power, weight, gradient, cr, cda, rho, wind)
      invariant k > 0 ==> v >= 1.0
    {
      var rolling := cr * weight * Gravity * v;
      var air := 0.5 * cda * rho * Cube(v + wind);
      var gravity := weight * Gravity * gradient * v;
      var f := rolling + air + gravity - power;
      var df := cr * weight * Gravity + 1.5 * cda * rho * Square(v + wind) + weight * Gravity * gradient;
      if df == 0.0 {
        return Err(ZeroDivisionError);
      }
      v := v - f / df;
      if v < 1.0 {
        v := 1.0;
      }
    }
    r := Ok(v);
  }

  /** With the physical parameters of the source (non-negative mass, grade and wind) the solver never divides by zero. */
  lemma {:induction false} NewtonNeverFails(n: nat, v: real, power: real, weight: real, gradient: real,
                                             cr: real, cda: real, rho: real, wind: real)
    requires v >= 1.0 && weight >= 0.0 && gradient >= 0.0 && cr >= 0.0 && cda > 0.0 && rho > 0.0 && wind >= 0.0
    ensures NewtonIterate(n, v, power, weight, gradient, cr, cda, rho, wind).Ok?
    decreases n
  {
    if n > 0 {
      var w := v + wind;
      assert Square(w) >= 1.0 by {
        MultiplyMonotone(1.0, w, w);
      }
      var c := 1.5 * cda * rho;
      assert c > 0.0;
      assert c * Square(w) > 0.0;
      assert cr * weight * Gravity >= 0.0;
      assert weight * Gravity * gradient >= 0.0;
      var step := NewtonStep(v, power, weight, gradient, cr, cda, rho, wind);
      assert step.Ok?;
      NewtonNeverFails(n - 1, step.value, power, weight, gradient, cr, cda, rho, wind);
    }
  }

  /** Time (s) to ride `distanceKm` at the solver's speed for `gradient`. */
  function SegmentSeconds(distanceKm: real, gradient: real, power: real, weight: real): (r: Result<real>)
    requires distanceKm > 0.0
    ensures r.Ok? ==> r.value > 0.0
  {
    match NewtonIterate(10, 8.0, power, weight, gradient, 0.005, 0.3, 1.225, 0.0)
    case Err(e) => Err(e)
    case Ok(v) => Ok(distanceKm * 1000.0 / v)
  }

  /**
   * estimate_cycling_time_physics (hours): an ascent segment of ascent/1000 km at the ascent gradient,
   * and a flat segment of the remaining distance; a segment of non-positive length takes no time.
   */
  function CyclingTimeHours(distanceKm: real, ascentM: real, power: real, weight: real): (r: Result<real>)
    ensures r.Ok? ==> r.value >= 0.0
  {
    var flatDistance := distanceKm - ascentM / 1000.0;
    var ascentDistance := ascentM / 1000.0;
    var ascentTime := if ascentDistance > 0.0 then SegmentSeconds(ascentDistance, ascentM / (ascentDistance * 1000.0), power, weight)
                      else Ok(0.0);
    if ascentTime.Err? then Err(ascentTime.error)
    else
      var flatTime := if flatDistance > 0.0 then SegmentSeconds(flatDistance, 0.0, power, weight) else Ok(0.0);
      if flatTime.Err? then Err(flatTime.error)
      else Ok((ascentTime.value + flatTime.value) / 3600.0)
  }

  method EstimateCyclingTimePhysics(distanceKm: real, ascentM: real, power: real := 200.0, weight: real := 75.0)
    returns (r: Result<real>)
    ensures r == CyclingTimeHours(distanceKm, ascentM, power, weight)
    ensures r.Ok? ==> r.value >= 0.0
  {
    var scaledDistance := distanceKm;
    var scaledAscent := ascentM;
    var flatDistance := scaledDistance - (scaledAscent / 1000.0);
    var ascentDistance := scaledAscent / 1000.0;
    var ascentTime, flatTime;
    if ascentDistance > 0.0 {
      var ascentGradient := scaledAscent / (ascentDistance * 1000.0);
      var ascentSpeed := EstimateSpeedPhysics(power, weight, ascentGradient);
      if ascentSpeed.Err? {
        return Err(ascentSpeed.error);
      }
      ascentTime := ascentDistance * 1000.0 / ascentSpeed.value;
    } else {
      ascentTime := 0.0;
    }
    if flatDistance > 0.0 {
      var flatSpeed := EstimateSpeedPhysics(power, weight, 0.0);
      if flatSpeed.Err? {
        return Err(flatSpeed.error);
      }
      flatTime := flatDistance * 1000.0 / flatSpeed.value;
    } else {
      flatTime := 0.0;
    }
    r := Ok((ascentTime + flatTime) / 3600.0);
  }

  /** In exact arithmetic the ascent segment's gradient is always 1. */
  lemma AscentGradientIsOne(ascentM: real)
    requires ascentM / 1000.0 > 0.0
    ensures ascentM / ((ascentM / 1000.0) * 1000.0) == 1.0
  {
    assert (ascentM / 1000.0) * 1000.0 == ascentM;
  }

  /** For a non-negative weight the duration estimate always succeeds. */
  lemma CyclingTimeSucceeds(distanceKm: real, ascentM: real, power: real, weight: real)
    requires weight >= 0.0
    ensures CyclingTimeHours(distanceKm, ascentM, power, weight).Ok?
  {
    var ascentDistance := ascentM / 1000.0;
    if ascentDistance > 0.0 {
      AscentGradientIsOne(ascentM);
      NewtonNeverFails(10, 8.0, power, weight, ascentM / (ascentDistance * 1000.0), 0.005, 0.3, 1.225, 0.0);
    }
    NewtonNeverFails(10, 8.0, power, weight, 0.0, 0.005, 0.3, 1.225, 0.0);
  }

  /** A route no longer than its ascent segment gets no flat segment (the negative flat distance is skipped, not clamped). */
  lemma ShortSteepRouteHasNoFlatTime(distanceKm: real, ascentM: real, power: real, weight: real)
    requires ascentM > 0.0 && distanceKm <= ascentM / 1000.0
    ensures CyclingTimeHours(distanceKm, ascentM, power, weight)
         == match SegmentSeconds(ascentM / 1000.0, ascentM / ((ascentM / 1000.0) * 1000.0), power, weight)
            case Err(e) => Err(e)
            case Ok(t) => Ok(t / 3600.0)
  {
  }

  /** A route without ascent is timed as one flat segment; an empty route takes no time at all. */
  lemma FlatRouteTime(distanceKm: real, power: real, weight: real)
    ensures distanceKm <= 0.0 ==> CyclingTimeHours(distanceKm, 0.0, power, weight) == Ok(0.0)
    ensures distanceKm > 0.0 ==>
      CyclingTimeHours(distanceKm, 0.0, power, weight)
      == (match SegmentSeconds(distanceKm, 0.0, power, weight)
          case Err(e) => Err(e)
          case Ok(t) => Ok(t / 3600.0))
  {
  }
}
