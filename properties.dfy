/**
 * Properties of the bounding-box calculation: the divisor table and what it
 * means, the shape of the box before and after wraparound, when one pass of
 * wraparound is enough, and the recalculation protocol of the setters.
 */
module BoundaryProperties {
  import opened Coordinates
  import opened Boundaries

  /** The divisor table: units per degree of latitude. */
  lemma DivisorTable()
    ensures Divisor(NauticalMiles) == 60.0
    ensures Divisor(Kilometers) == 111.045
    ensures Divisor(Meters) == 111045.0
    ensures Divisor(Miles) == 69.0
  {
  }

  /**
   * The table agrees with the units it names: a meter is a thousandth of a
   * kilometer, and a nautical mile is longer than a statute mile, which is
   * longer than a kilometer.
   */
  lemma UnitScales()
    ensures Divisor(Meters) == 1000.0 * Divisor(Kilometers)
    ensures Divisor(NauticalMiles) < Divisor(Miles) < Divisor(Kilometers) < Divisor(Meters)
  {
  }

  /** A distance in meters gives the same box as a thousandth of it in kilometers. */
  lemma MetersAgreeWithKilometers(latitude: real, longitude: real, distance: real, absCos: AbsCosDegrees)
    ensures Box(Parameters(latitude, longitude, 1000.0 * distance, Meters), absCos)
         == Box(Parameters(latitude, longitude, distance, Kilometers), absCos)
  {
  }

  /**
   * For the same positive distance value, kilometers give a narrower box
   * than miles: a kilometer is the shorter unit.
   */
  lemma KilometersNarrowerThanMiles(distance: real, absCosLatitude: real)
    requires distance > 0.0
    requires 0.0 < absCosLatitude
    ensures LatitudeHalfWidth(distance, Kilometers) < LatitudeHalfWidth(distance, Miles)
    ensures LongitudeHalfWidth(distance, Kilometers, absCosLatitude)
          < LongitudeHalfWidth(distance, Miles, absCosLatitude)
  {
    var k, m := LatitudeHalfWidth(distance, Kilometers), LatitudeHalfWidth(distance, Miles);
    assert k < m;
    var lk, lm := LongitudeHalfWidth(distance, Kilometers, absCosLatitude),
                  LongitudeHalfWidth(distance, Miles, absCosLatitude);
    assert lk * absCosLatitude < lm * absCosLatitude;
  }

  /**
   * With a non-negative distance the longitude half-width is at least the
   * latitude half-width, and strictly more away from the equator's full
   * |cos| of one.
   */
  lemma LongitudeAtLeastLatitude(distance: real, unit: DistanceUnit, absCosLatitude: real)
    requires distance >= 0.0
    requires 0.0 < absCosLatitude <= 1.0
    ensures LongitudeHalfWidth(distance, unit, absCosLatitude) >= LatitudeHalfWidth(distance, unit) >= 0.0
    ensures distance > 0.0 && absCosLatitude < 1.0 ==>
              LongitudeHalfWidth(distance, unit, absCosLatitude) > LatitudeHalfWidth(distance, unit)
  {
    var h := LongitudeHalfWidth(distance, unit, absCosLatitude);
    var l := LatitudeHalfWidth(distance, unit);
    assert h * absCosLatitude == l;
    assert h - l == h * (1.0 - absCosLatitude);
    assert h * (1.0 - absCosLatitude) >= 0.0;
    if distance > 0.0 && absCosLatitude < 1.0 {
      assert h > 0.0;
      assert h * (1.0 - absCosLatitude) > 0.0;
    }
  }

  /** Each bound is wrapped on its own, once, by one period, and only when it is out of range. */
  lemma WrapIsPerBound(i: Parameters, absCos: AbsCosDegrees)
    ensures var raw, b := RawBox(i, absCos), Box(i, absCos);
      && b.minLatitude == (if raw.minLatitude < -90.0 then raw.minLatitude + 180.0 else raw.minLatitude)
      && b.maxLatitude == (if raw.maxLatitude > 90.0 then raw.maxLatitude - 180.0 else raw.maxLatitude)
      && b.minLongitude == (if raw.minLongitude < -180.0 then raw.minLongitude + 360.0 else raw.minLongitude)
      && b.maxLongitude == (if raw.maxLongitude > 180.0 then raw.maxLongitude - 360.0 else raw.maxLongitude)
  {
  }

  /**
   * With a non-negative distance and no bound wrapped, the reported box
   * contains its origin on both axes.
   */
  lemma OriginInsideUnwrappedBox(i: Parameters, absCos: AbsCosDegrees)
    requires i.distance >= 0.0
    requires InRange(RawBox(i, absCos))
    ensures var b := Box(i, absCos);
      b.minLatitude <= i.latitude <= b.maxLatitude && b.minLongitude <= i.longitude <= b.maxLongitude
  {
  }

  /**
   * One pass of wraparound brings every bound into range as long as the
   * latitude half-width is at most 180 degrees and the longitude half-width
   * at most 360.
   */
  lemma SinglePassSuffices(i: Parameters, absCos: AbsCosDegrees)
    requires Validate(i.latitude, i.longitude)
    requires i.distance >= 0.0
    requires LatitudeHalfWidth(i.distance, i.distanceUnit) <= 180.0
    requires LongitudeHalfWidth(i.distance, i.distanceUnit, absCos(i.latitude)) <= 360.0
    ensures InRange(Box(i, absCos))
  {
    LongitudeAtLeastLatitude(i.distance, i.distanceUnit, absCos(i.latitude));
  }

  /**
   * Beyond that, one pass no longer guarantees the range: 20700 miles
   * (300 degrees of latitude) from the equator leaves the lower latitude at -120.
   */
  lemma SinglePassLimit(absCos: AbsCosDegrees)
    ensures Box(Parameters(0.0, 0.0, 20700.0, Miles), absCos).minLatitude == -120.0
    ensures !InRange(Box(Parameters(0.0, 0.0, 20700.0, Miles), absCos))
  {
  }

  /**
   * The wraps do not look at the origin's validity: at zero distance an
   * origin beyond the north pole still has its upper latitude moved down by
   * 180 degrees, so the degenerate box holds only for valid origins.
   */
  lemma ZeroDistanceWrapsInvalidOrigin(absCos: AbsCosDegrees)
    ensures Box(Parameters(100.0, 0.0, 0.0, Miles), absCos) == Bounds(100.0, -80.0, 0.0, 0.0)
  {
    assert LongitudeHalfWidth(0.0, Miles, absCos(100.0)) == 0.0;
  }

  /**
   * The parameterless constructor's all-zero state is already consistent:
   * its outputs are the box of its inputs, whatever the unit.
   */
  lemma DefaultStateConsistent(unit: DistanceUnit, absCos: AbsCosDegrees)
    ensures Consistent(Parameters(0.0, 0.0, 0.0, unit), Bounds(0.0, 0.0, 0.0, 0.0), absCos)
  {
    ZeroDistanceBox(0.0, 0.0, unit, absCos);
  }

  /**
   * The outputs depend only on the stored inputs: recalculating twice is
   * recalculating once, and recalculating a consistent state changes nothing.
   */
  lemma RecalculateIdempotent(i: Parameters, stale: Bounds, absCos: AbsCosDegrees)
    ensures Recalculate(i, Recalculate(i, stale, absCos), absCos) == Recalculate(i, stale, absCos)
    ensures Consistent(i, stale, absCos) ==> Recalculate(i, stale, absCos) == stale
  {
  }

  /**
   * The latitude bounds of ten miles around (34.0675918, -118.3977091), to
   * within 1e-4: about 33.9227 and 34.2125.
   */
  lemma TenMilesLatitudeExample(absCos: AbsCosDegrees)
    ensures var b := Box(Parameters(34.0675918, -118.3977091, 10.0, Miles), absCos);
      -0.0001 < b.minLatitude - 33.9227 < 0.0001 && -0.0001 < b.maxLatitude - 34.2125 < 0.0001
  {
  }

  /**
   * A latitude setter given an out-of-range value: the value is stored, the
   * error is raised, and the outputs are still those of the previous origin;
   * storing a valid latitude again brings the outputs back in line.
   */
  method InvalidLatitudeScenario(absCos: AbsCosDegrees)
  {
    var created := CoordinateBoundaries.New(absCos, 34.0675918, -118.3977091, 10.0);
    assert created.Success?;
    var b := created.value;
    var before := b.Outputs();
    var r := b.SetLatitude(97.0675918);
    assert r.Failure? && b.latitude == 97.0675918 && b.Outputs() == before;
    r := b.SetLatitude(34.0675918);
    assert r.Success? && b.Outputs() == before;
    r := b.SetDistanceUnit(Kilometers);
    assert r.Success? && b.Outputs() == Box(Parameters(34.0675918, -118.3977091, 10.0, Kilometers), absCos);
  }
}
