/**
 * GPXScaler.calculate_adjusted_scale and GPXScaler.calculate_elevation_scale: the minimum-distance
 * floor on the distance scale and the maximum-ascent cap on the elevation scale.
 */
module ScaleRules {
  import opened Wrappers

  /**
   * The distance scale to use for a route of `originalDistanceKm`: the requested scale unless a
   * minimum distance is set and the scaled route would fall short of it, in which case the scale
   * that lands exactly on the minimum. That scale is a division by the original distance, which
   * raises ZeroDivisionError for an empty route.
   */
  function AdjustedScale(originalDistanceKm: real, desiredScale: real, minDistanceKm: Option<real>): (r: Result<real>)
    ensures minDistanceKm.None? ==> r == Ok(desiredScale)
    ensures minDistanceKm.Some? && originalDistanceKm * desiredScale >= minDistanceKm.value ==> r == Ok(desiredScale)
    ensures r.Err? <==> minDistanceKm.Some? && originalDistanceKm == 0.0 && 0.0 < minDistanceKm.value
    ensures r.Ok? && r.value != desiredScale ==> originalDistanceKm * r.value == minDistanceKm.value
  {
    match minDistanceKm
    case None => Ok(desiredScale)
    case Some(minKm) =>
      if originalDistanceKm * desiredScale < minKm then
        if originalDistanceKm == 0.0 then Err(ZeroDivisionError) else Ok(minKm / originalDistanceKm)
      else Ok(desiredScale)
  }

  /** For a route of positive length the adjusted scale never undershoots the floor and never shrinks the request. */
  lemma AdjustedScaleMeetsFloor(originalDistanceKm: real, desiredScale: real, minKm: real)
    requires originalDistanceKm > 0.0
    ensures AdjustedScale(originalDistanceKm, desiredScale, Some(minKm)).Ok?
    ensures var s := AdjustedScale(originalDistanceKm, desiredScale, Some(minKm)).value;
      originalDistanceKm * s >= minKm && s >= desiredScale
    ensures originalDistanceKm * desiredScale < minKm ==>
      var s := AdjustedScale(originalDistanceKm, desiredScale, Some(minKm)).value;
      originalDistanceKm * s == minKm && s > desiredScale
  {
    if originalDistanceKm * desiredScale < minKm {
      var s := minKm / originalDistanceKm;
      assert originalDistanceKm * s == minKm;
      assert originalDistanceKm * s > originalDistanceKm * desiredScale;
      ProductMonotone(originalDistanceKm, desiredScale, s);
    }
  }

  /** Applying the floor a second time keeps the scale it chose. */
  lemma AdjustedScaleIdempotent(originalDistanceKm: real, desiredScale: real, minDistanceKm: Option<real>)
    requires AdjustedScale(originalDistanceKm, desiredScale, minDistanceKm).Ok?
    ensures var s := AdjustedScale(originalDistanceKm, desiredScale, minDistanceKm).value;
      AdjustedScale(originalDistanceKm, s, minDistanceKm) == Ok(s)
  {
  }

  /**
   * The elevation scale to use for a route climbing `originalAscentM`: the distance scale unless a
   * maximum ascent is set and strictly exceeded, in which case the scale that lands exactly on the
   * maximum. That is a division by the original ascent, which raises ZeroDivisionError only for a
   * flat route with a negative maximum.
   */
  function ElevationScale(originalAscentM: real, distanceScale: real, maxAscentM: Option<real>): (r: Result<real>)
    ensures maxAscentM.None? ==> r == Ok(distanceScale)
    ensures maxAscentM.Some? && originalAscentM * distanceScale <= maxAscentM.value ==> r == Ok(distanceScale)
    ensures r.Err? <==> maxAscentM.Some? && originalAscentM == 0.0 && maxAscentM.value < 0.0
    ensures r.Ok? && maxAscentM.Some? ==> originalAscentM * r.value <= maxAscentM.value
  {
    match maxAscentM
    case None => Ok(distanceScale)
    case Some(maxM) =>
      if originalAscentM * distanceScale > maxM then
        if originalAscentM == 0.0 then Err(ZeroDivisionError) else Ok(maxM / originalAscentM)
      else Ok(distanceScale)
  }

  /** A flat route never reaches the division while the maximum is non-negative. */
  lemma FlatRouteKeepsDistanceScale(distanceScale: real, maxAscentM: Option<real>)
    requires maxAscentM.Some? ==> maxAscentM.value >= 0.0
    ensures ElevationScale(0.0, distanceScale, maxAscentM) == Ok(distanceScale)
  {
  }

  /** For a climbing route whose scaled ascent exceeds the cap, the chosen scale is strictly below the distance scale. */
  lemma ElevationScaleCaps(originalAscentM: real, distanceScale: real, maxM: real)
    requires originalAscentM > 0.0 && originalAscentM * distanceScale > maxM
    ensures ElevationScale(originalAscentM, distanceScale, Some(maxM)).Ok?
    ensures var s := ElevationScale(originalAscentM, distanceScale, Some(maxM)).value;
      originalAscentM * s == maxM && s < distanceScale
  {
    var s := maxM / originalAscentM;
    assert originalAscentM * s == maxM;
    ProductMonotone(originalAscentM, s, distanceScale);
  }

  /** Applying the cap a second time keeps the scale it chose. */
  lemma ElevationScaleIdempotent(originalAscentM: real, distanceScale: real, maxAscentM: Option<real>)
    requires ElevationScale(originalAscentM, distanceScale, maxAscentM).Ok?
    ensures var s := ElevationScale(originalAscentM, distanceScale, maxAscentM).value;
      ElevationScale(originalAscentM, s, maxAscentM) == Ok(s)
  {
  }

  /** The worked example of the minimum-distance rule: 10 km at 0.5 with an 8 km floor scales by 0.8. */
  lemma MinimumDistanceExample()
    ensures AdjustedScale(10.0, 0.5, Some(8.0)) == Ok(0.8)
  {
  }

  lemma ProductMonotone(k: real, a: real, b: real)
    requires k > 0.0 && k * a < k * b
    ensures a < b
  {
  }
}
