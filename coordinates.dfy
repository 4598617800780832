/**
 * The value types and the range check that the bounding-box calculator
 * consumes: a coordinate pair, the closed set of distance units, and the
 * inclusive latitude/longitude range test.
 */
module Coordinates {

  /** An origin point in decimal degrees; any pair can be built, range is checked on use. */
  datatype Coordinate = Coordinate(latitude: real, longitude: real)

  /** The units a distance can be given in; Miles is the default. */
  datatype DistanceUnit = Miles | Kilometers | Meters | NauticalMiles

  /** The coordinate range check: both bounds are inclusive. */
  predicate Validate(latitude: real, longitude: real)
  {
    -90.0 <= latitude <= 90.0 && -180.0 <= longitude <= 180.0
  }

  /**
   * The range check against the named test coordinates: the values exactly
   * at the poles and at the antimeridian are accepted, the ones beyond are
   * refused. (The fixture called "longitude above maximum" is in fact below
   * the minimum, -187.39.)
   */
  lemma ValidatorFixtures()
    ensures !Validate(97.0675918, -118.3977091)
    ensures !Validate(-91.0675918, -118.3977091)
    ensures Validate(90.0, -118.3977091)
    ensures Validate(-90.0, -118.3977091)
    ensures !Validate(34.0675918, -187.3977091)
    ensures !Validate(34.0675918, -197.3977091)
    ensures Validate(34.0675918, 180.0)
    ensures Validate(34.0675918, -180.0)
    ensures Validate(34.0675918, -118.3977091)
  {
  }
}
