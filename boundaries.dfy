/**
 * The bounding-box calculator: from an origin, a distance and a unit it lays
 * out a latitude/longitude box symmetric about the origin, widens the
 * longitude half of it by 1/|cos(latitude)|, and shifts each bound that
 * leaves the legal range back by one period, once.
 *
 * The pure functions below are the specification; the class
 * CoordinateBoundaries is the stateful calculator whose setters store an
 * input and then recompute, proved against those functions.
 */
module Boundaries {
  import opened Coordinates

  /**
   * |cos| of a latitude given in degrees. The trigonometry is not modelled:
   * any function that is positive and at most one will do.
   */
  type AbsCosDegrees = f: real -> real | forall x :: 0.0 < f(x) <= 1.0 witness (x: real) => 1.0

  /** The single error the calculator raises: an origin out of range. */
  datatype Error = InvalidCoordinates

  datatype Result<T> = Success(value: T) | Failure(error: Error)

  /** The four stored inputs of a calculation. */
  datatype Parameters = Parameters(latitude: real, longitude: real, distance: real, distanceUnit: DistanceUnit)

  /** The four derived outputs. */
  datatype Bounds = Bounds(minLatitude: real, maxLatitude: real, minLongitude: real, maxLongitude: real)

  // Distance units per degree of latitude.
  const LatitudeDistanceInKilometers: real := 111.045
  const LatitudeDistanceInMeters: real := 111045.0
  const LatitudeDistanceInMiles: real := 69.0
  const LatitudeDistanceInNauticalMiles: real := 60.0

  /** How many units of the given kind one degree of latitude spans; Miles is the fallback branch. */
  function Divisor(unit: DistanceUnit): (d: real)
    ensures d >= LatitudeDistanceInNauticalMiles > 0.0
    ensures d <= LatitudeDistanceInMeters
  {
    match unit
    case NauticalMiles => LatitudeDistanceInNauticalMiles
    case Kilometers => LatitudeDistanceInKilometers
    case Meters => LatitudeDistanceInMeters
    case _ => LatitudeDistanceInMiles
  }

  /** Degrees of latitude covering `distance`: that many degrees span exactly the distance. */
  function LatitudeHalfWidth(distance: real, unit: DistanceUnit): (h: real)
    ensures h * Divisor(unit) == distance
    ensures h >= 0.0 <==> distance >= 0.0
  {
    distance / Divisor(unit)
  }

  /**
   * Degrees of longitude covering `distance` at a latitude whose |cos| is
   * `absCosLatitude`: shrunk by that factor they give the latitude half-width.
   */
  function LongitudeHalfWidth(distance: real, unit: DistanceUnit, absCosLatitude: real): (h: real)
    requires 0.0 < absCosLatitude
    ensures h * absCosLatitude == LatitudeHalfWidth(distance, unit)
  {
    distance / Divisor(unit) / absCosLatitude
  }

  /** The box before any wraparound: each axis is symmetric about the origin. */
  function RawBox(i: Parameters, absCos: AbsCosDegrees): (b: Bounds)
    ensures b.maxLatitude - i.latitude == i.latitude - b.minLatitude
                                       == LatitudeHalfWidth(i.distance, i.distanceUnit)
    ensures b.maxLongitude - i.longitude == i.longitude - b.minLongitude
                                         == LongitudeHalfWidth(i.distance, i.distanceUnit, absCos(i.latitude))
  {
    var latitudeConversionFactor := LatitudeHalfWidth(i.distance, i.distanceUnit);
    var longitudeConversionFactor := LongitudeHalfWidth(i.distance, i.distanceUnit, absCos(i.latitude));
    Bounds(i.latitude - latitudeConversionFactor, i.latitude + latitudeConversionFactor,
           i.longitude - longitudeConversionFactor, i.longitude + longitudeConversionFactor)
  }

  /** A lower latitude past the south pole is moved up by 180 degrees; a value in range is kept. */
  function WrapMinLatitude(raw: real): (r: real)
    ensures raw < -90.0 ==> r == raw + 180.0
    ensures raw >= -90.0 ==> r == raw
    ensures -270.0 <= raw <= 90.0 ==> -90.0 <= r <= 90.0
  {
    if raw < -90.0 then 90.0 - (-90.0 - raw) else raw
  }

  /** An upper latitude past the north pole is moved down by 180 degrees; a value in range is kept. */
  function WrapMaxLatitude(raw: real): (r: real)
    ensures raw > 90.0 ==> r == raw - 180.0
    ensures raw <= 90.0 ==> r == raw
    ensures -90.0 <= raw <= 270.0 ==> -90.0 <= r <= 90.0
  {
    if raw > 90.0 then -90.0 + (raw - 90.0) else raw
  }

  /** A left longitude past the antimeridian is moved right by 360 degrees; a value in range is kept. */
  function WrapMinLongitude(raw: real): (r: real)
    ensures raw < -180.0 ==> r == raw + 360.0
    ensures raw >= -180.0 ==> r == raw
    ensures -540.0 <= raw <= 180.0 ==> -180.0 <= r <= 180.0
  {
    if raw < -180.0 then 180.0 - (-180.0 - raw) else raw
  }

  /** A right longitude past the antimeridian is moved left by 360 degrees; a value in range is kept. */
  function WrapMaxLongitude(raw: real): (r: real)
    ensures raw > 180.0 ==> r == raw - 360.0
    ensures raw <= 180.0 ==> r == raw
    ensures -180.0 <= raw <= 540.0 ==> -180.0 <= r <= 180.0
  {
    if raw > 180.0 then -180.0 + (raw - 180.0) else raw
  }

  /** All four bounds lie in the legal coordinate range. */
  predicate InRange(b: Bounds)
  {
    Validate(b.minLatitude, b.minLongitude) && Validate(b.maxLatitude, b.maxLongitude)
  }

  /**
   * The box the calculator reports: the raw box with each bound wrapped once,
   * independently. A raw box already in range is reported as it is.
   */
  function Box(i: Parameters, absCos: AbsCosDegrees): (b: Bounds)
    ensures InRange(RawBox(i, absCos)) ==> b == RawBox(i, absCos)
  {
    var raw := RawBox(i, absCos);
    Bounds(WrapMinLatitude(raw.minLatitude), WrapMaxLatitude(raw.maxLatitude),
           WrapMinLongitude(raw.minLongitude), WrapMaxLongitude(raw.maxLongitude))
  }

  /** One calculation: an origin out of range is refused, any other gets its box. */
  function Compute(i: Parameters, absCos: AbsCosDegrees): (r: Result<Bounds>)
    ensures r.Success? <==> Validate(i.latitude, i.longitude)
    ensures r.Success? ==> r.value == Box(i, absCos)
  {
    if !Validate(i.latitude, i.longitude) then Failure(InvalidCoordinates)
    else Success(Box(i, absCos))
  }

  /** The outputs agree with the inputs whenever the inputs are a valid origin. */
  predicate Consistent(i: Parameters, b: Bounds, absCos: AbsCosDegrees)
  {
    Validate(i.latitude, i.longitude) ==> b == Box(i, absCos)
  }

  /**
   * The outputs after one recalculation from `stale`: a refused calculation
   * leaves them as they were, and in every case they are consistent with the inputs.
   */
  function Recalculate(i: Parameters, stale: Bounds, absCos: AbsCosDegrees): (b: Bounds)
    ensures Consistent(i, b, absCos)
    ensures !Validate(i.latitude, i.longitude) ==> b == stale
  {
    match Compute(i, absCos)
    case Success(box) => box
    case Failure(_) => stale
  }

  /**
   * A zero distance at a valid origin gives the degenerate box at the
   * origin, in every unit.
   */
  lemma ZeroDistanceBox(latitude: real, longitude: real, unit: DistanceUnit, absCos: AbsCosDegrees)
    requires Validate(latitude, longitude)
    ensures Box(Parameters(latitude, longitude, 0.0, unit), absCos) == Bounds(latitude, latitude, longitude, longitude)
  {
    assert LatitudeHalfWidth(0.0, unit) == 0.0;
    assert LongitudeHalfWidth(0.0, unit, absCos(latitude)) == 0.0;
  }

  /**
   * The stateful calculator. The four inputs are stored fields, the four
   * outputs are fields that only a recalculation writes. The platform's
   * |cos| routine is fixed for the object's lifetime.
   */
  class CoordinateBoundaries {
    var distance: real
    var distanceUnit: DistanceUnit
    var latitude: real
    var longitude: real

    var minLatitude: real
    var maxLatitude: real
    var minLongitude: real
    var maxLongitude: real

    const absCos: AbsCosDegrees

    function Inputs(): Parameters
      reads this
    {
      Parameters(latitude, longitude, distance, distanceUnit)
    }

    function Outputs(): Bounds
      reads this
    {
      Bounds(minLatitude, maxLatitude, minLongitude, maxLongitude)
    }

    /** The object invariant: outputs are never stale while the stored origin is valid. */
    ghost predicate Valid()
      reads this
    {
      Consistent(Inputs(), Outputs(), absCos)
    }

    /** The parameterless constructor: every input and output is zero and nothing is computed. */
    constructor (absCos: AbsCosDegrees)
      ensures this.absCos == absCos
      ensures Inputs() == Parameters(0.0, 0.0, 0.0, Miles)
      ensures Outputs() == Bounds(0.0, 0.0, 0.0, 0.0)
      ensures Valid()
    {
      ZeroDistanceBox(0.0, 0.0, Miles, absCos);
      this.absCos := absCos;
      distance, distanceUnit, latitude, longitude := 0.0, Miles, 0.0, 0.0;
      minLatitude, maxLatitude, minLongitude, maxLongitude := 0.0, 0.0, 0.0, 0.0;
    }

    /**
     * The full constructor: an invalid origin is refused before any object
     * exists; otherwise the new object holds the given inputs and their box.
     */
    static method New(absCos: AbsCosDegrees, latitude: real, longitude: real, distance: real,
                      distanceUnit: DistanceUnit := Miles)
      returns (r: Result<CoordinateBoundaries>)
      ensures r.Success? <==> Validate(latitude, longitude)
      ensures r.Failure? ==> r.error == InvalidCoordinates
      ensures r.Success? ==> fresh(r.value) && r.value.absCos == absCos && r.value.Valid()
      ensures r.Success? ==> r.value.Inputs() == Parameters(latitude, longitude, distance, distanceUnit)
      ensures r.Success? ==> r.value.Outputs() == Box(r.value.Inputs(), absCos)
    {
      if !Validate(latitude, longitude) {
        return Failure(InvalidCoordinates);
      }
      var b := new CoordinateBoundaries(absCos);
      b.latitude := latitude;
      b.longitude := longitude;
      b.distance := distance;
      b.distanceUnit := distanceUnit;
      var outcome := b.Calculate();
      assert outcome.Success?;
      assert b.Outputs() == Box(b.Inputs(), absCos);
      r := Success(b);
    }

    /** The constructor from a Coordinate value: the same as giving its two fields. */
    static method NewAt(absCos: AbsCosDegrees, origin: Coordinate, distance: real,
                        distanceUnit: DistanceUnit := Miles)
      returns (r: Result<CoordinateBoundaries>)
      ensures r.Success? <==> Validate(origin.latitude, origin.longitude)
      ensures r.Failure? ==> r.error == InvalidCoordinates
      ensures r.Success? ==> fresh(r.value) && r.value.absCos == absCos && r.value.Valid()
      ensures r.Success? ==> r.value.Inputs() == Parameters(origin.latitude, origin.longitude, distance, distanceUnit)
      ensures r.Success? ==> r.value.Outputs() == Box(r.value.Inputs(), absCos)
    {
      r := New(absCos, origin.latitude, origin.longitude, distance, distanceUnit);
    }

    /**
     * Recompute the outputs from the stored inputs. An invalid origin is
     * refused before any output is written; otherwise all four are replaced.
     */
    method Calculate() returns (r: Result<()>)
      modifies this`minLatitude, this`maxLatitude, this`minLongitude, this`maxLongitude
      ensures r.Success? <==> Validate(latitude, longitude)
      ensures r.Failure? ==> r.error == InvalidCoordinates
      ensures Outputs() == Recalculate(Inputs(), old(Outputs()), absCos)
      ensures Valid()
    {
      if !Validate(latitude, longitude) {
        return Failure(InvalidCoordinates);
      }

      var divisor := Divisor(distanceUnit);

      var latitudeConversionFactor := distance / divisor;
      var longitudeConversionFactor := distance / divisor / absCos(latitude);

      minLatitude := latitude - latitudeConversionFactor;
      maxLatitude := latitude + latitudeConversionFactor;

      minLongitude := longitude - longitudeConversionFactor;
      maxLongitude := longitude + longitudeConversionFactor;

      ghost var raw := RawBox(Inputs(), absCos);
      assert Outputs() == raw;

      if minLatitude < -90.0 {
        minLatitude := 90.0 - (-90.0 - minLatitude);
      }

      if maxLatitude > 90.0 {
        maxLatitude := -90.0 + (maxLatitude - 90.0);
      }

      if minLongitude < -180.0 {
        minLongitude := 180.0 - (-180.0 - minLongitude);
      }

      if maxLongitude > 180.0 {
        maxLongitude := -180.0 + (maxLongitude - 180.0);
      }
      assert Outputs() == Box(Inputs(), absCos);

      r := Success(());
    }

    /** Store a new distance, then recompute. */
    method SetDistance(value: real) returns (r: Result<()>)
      modifies this
      ensures Inputs() == old(Inputs()).(distance := value)
      ensures r.Success? <==> Validate(latitude, longitude)
      ensures Outputs() == Recalculate(Inputs(), old(Outputs()), absCos)
      ensures Valid()
      ensures old(Valid()) && value == old(distance) ==> Outputs() == old(Outputs())
    {
      distance := value;
      r := Calculate();
    }

    /** Store a new distance unit, then recompute. */
    method SetDistanceUnit(value: DistanceUnit) returns (r: Result<()>)
      modifies this
      ensures Inputs() == old(Inputs()).(distanceUnit := value)
      ensures r.Success? <==> Validate(latitude, longitude)
      ensures Outputs() == Recalculate(Inputs(), old(Outputs()), absCos)
      ensures Valid()
      ensures old(Valid()) && value == old(distanceUnit) ==> Outputs() == old(Outputs())
    {
      distanceUnit := value;
      r := Calculate();
    }

    /**
     * Store a new latitude, then recompute. A latitude out of range stays
     * stored although the recalculation refuses it and keeps the old outputs.
     */
    method SetLatitude(value: real) returns (r: Result<()>)
      modifies this
      ensures Inputs() == old(Inputs()).(latitude := value)
      ensures r.Success? <==> Validate(value, longitude)
      ensures Outputs() == Recalculate(Inputs(), old(Outputs()), absCos)
      ensures Valid()
      ensures old(Valid()) && value == old(latitude) ==> Outputs() == old(Outputs())
    {
      latitude := value;
      r := Calculate();
    }

    /**
     * Store a new longitude, then recompute. A longitude out of range stays
     * stored although the recalculation refuses it and keeps the old outputs.
     */
    method SetLongitude(value: real) returns (r: Result<()>)
      modifies this
      ensures Inputs() == old(Inputs()).(longitude := value)
      ensures r.Success? <==> Validate(latitude, value)
      ensures Outputs() == Recalculate(Inputs(), old(Outputs()), absCos)
      ensures Valid()
      ensures old(Valid()) && value == old(longitude) ==> Outputs() == old(Outputs())
    {
      longitude := value;
      r := Calculate();
    }
  }
}
