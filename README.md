# CoordinateBoundaries: a verified model of the Geolocation bounding-box calculator

This project models the `CoordinateBoundaries` class of the Wikiled Geolocation library. Given an origin latitude and longitude, a distance, and a distance unit, the calculator produces a rectangular box of four degree values: `MinLatitude`, `MaxLatitude`, `MinLongitude` and `MaxLongitude`. It computes them like this:

- It checks that the origin is in range.
- It converts the distance to degrees of latitude using a fixed divisor for each unit.
- It widens the longitude half-width by `1/|cos(latitude)|`.
- It lays the box out symmetrically about the origin.
- It moves each bound that leaves the legal range back by one period (180° for latitude, 360° for longitude), once.

Every input is a property whose setter stores the new value and then recomputes.

Files:

- `coordinates.dfy`, module `Coordinates`: the collaborators. `Coordinate` is a two-field value. `DistanceUnit` is a four-constructor datatype. `Validate` is the inclusive range check `-90 <= latitude <= 90 && -180 <= longitude <= 180`.
- `boundaries.dfy`, module `Boundaries`: the pure specification and the class.
  - The pure part: the divisor table, the two half-widths, the raw box, the four single-pass wraps, the reported `Box`, the checked `Compute`, and `Recalculate` (what one recomputation does to the outputs).
  - The class `CoordinateBoundaries` has the four input fields and the four output fields. Its `Calculate` method is imperative: it assigns all four outputs, then conditionally overwrites each one, like the source. The four setters call it. The throwing constructors become static methods that return a `Result`.
- `properties.dfy`, module `BoundaryProperties`: lemmas about the specification. It also holds `InvalidLatitudeScenario`, a client method that checks the setter contracts can be used: it sets an invalid latitude and then a valid one. It is a usage check, not a model of a source member, so it has no row in the table.

Numbers are Dafny `real`. The platform's `Math.Abs(Math.Cos(lat.ToRadian()))` is not modelled. It is replaced by a function-typed value `absCos: AbsCosDegrees`, constrained to `0 < absCos(x) <= 1`. The object receives it at construction and keeps it for its lifetime. Thrown `ArgumentException`s become `Failure(InvalidCoordinates)` results.

The object invariant is `Valid()`: whenever the stored origin is valid, the outputs equal `Box` of the stored inputs. The parameterless constructor's all-zero state satisfies it, and every setter re-establishes it whatever state it starts from. So in every reachable state, setting an input to its current value leaves the outputs unchanged.

Three facts about the code that a reader might not expect:

- **A failed setter still stores its value.** Every setter stores the new value before `Calculate` runs (`Distance` at lines 74-75, `DistanceUnit` at 87-88, `Latitude` at 100-101, `Longitude` at 113-114). `Calculate` then validates the stored origin before writing any output (140-143). So a rejected latitude or longitude stays stored, and only the four outputs keep their previous values. The same happens when `Distance` or `DistanceUnit` is set while an earlier rejected write has left the stored origin invalid: the new value is stored, the error is raised, and the outputs stay as they were. All four setter models state this.
- **The wraparound is a shift, not a reflection.** The formulas at lines 157-175 (`90 - (-90 - x)` and the like) move the value by one whole period. The model states them as shifts.
- **Kilometers give a narrower box than miles.** For the same distance value, the divisors 69 (miles) and 111.045 (kilometers) make the kilometer box smaller. `KilometersNarrowerThanMiles` proves that.

## Model

| member | source | states |
|---|---|---|
| `Coordinates.Validate` | Geolocation/CoordinateBoundaries.cs:140-143 | The range check the calculator calls before computing: latitude in [-90, 90] and longitude in [-180, 180], both bounds inclusive. The inclusive bounds follow the test fixtures in Geolocation.UnitTests/Constants.cs:9-25, checked by `ValidatorFixtures`. |
| `Coordinates.ValidatorFixtures` | Geolocation.UnitTests/Constants.cs:9-25 | The named test origins are classified as their names say: values exactly at ±90 and ±180 are accepted, values beyond are refused (including the one misnamed "longitude above maximum", -187.39). |
| `Boundaries.Divisor` | Geolocation/CoordinateBoundaries.cs:178-191 | The divisor is between 60 (nautical miles) and 111045 (meters), so it is always positive. |
| `BoundaryProperties.DivisorTable` | Geolocation/CoordinateBoundaries.cs:16-22 | NauticalMiles maps to 60, Kilometers to 111.045, Meters to 111045, and Miles (the fallback branch) to 69. |
| `BoundaryProperties.UnitScales` | Geolocation/CoordinateBoundaries.cs:16-22 | The meter divisor is exactly 1000 times the kilometer divisor. The divisors increase from nautical miles to miles to kilometers to meters, so each unit is shorter than the one before. |
| `BoundaryProperties.MetersAgreeWithKilometers` | Geolocation/CoordinateBoundaries.cs:145-154 | 1000·d meters and d kilometers give the same box. |
| `BoundaryProperties.KilometersNarrowerThanMiles` | Geolocation/CoordinateBoundaries.cs:145-148 | For the same positive distance value, both half-widths are strictly smaller in kilometers than in miles. |
| `Boundaries.LatitudeHalfWidth` | Geolocation/CoordinateBoundaries.cs:147 | Multiplied by the divisor, the latitude half-width gives back the distance; it is non-negative exactly when the distance is. |
| `Boundaries.LongitudeHalfWidth` | Geolocation/CoordinateBoundaries.cs:148 | The longitude half-width times \|cos(latitude)\| is the latitude half-width. |
| `BoundaryProperties.LongitudeAtLeastLatitude` | Geolocation/CoordinateBoundaries.cs:147-148 | For distance ≥ 0 and a factor in (0,1], the longitude half-width is at least the latitude half-width, which is ≥ 0. It is strictly larger when the distance is positive and the factor is below 1. |
| `Boundaries.RawBox` | Geolocation/CoordinateBoundaries.cs:150-154 | Before wraparound both axes are symmetric about the origin: `max - origin == origin - min`, equal to the latitude half-width on the latitude axis and to the longitude half-width on the longitude axis. |
| `Boundaries.WrapMinLatitude` | Geolocation/CoordinateBoundaries.cs:157-160 | A raw lower latitude below -90 becomes raw + 180; one in range is kept. A raw value in [-270, 90] ends in [-90, 90]. |
| `Boundaries.WrapMaxLatitude` | Geolocation/CoordinateBoundaries.cs:162-165 | A raw upper latitude above 90 becomes raw - 180; one in range is kept. A raw value in [-90, 270] ends in [-90, 90]. |
| `Boundaries.WrapMinLongitude` | Geolocation/CoordinateBoundaries.cs:167-170 | A raw left longitude below -180 becomes raw + 360; one in range is kept. A raw value in [-540, 180] ends in [-180, 180]. |
| `Boundaries.WrapMaxLongitude` | Geolocation/CoordinateBoundaries.cs:172-175 | A raw right longitude above 180 becomes raw - 360; one in range is kept. A raw value in [-180, 540] ends in [-180, 180]. |
| `Boundaries.Box` | Geolocation/CoordinateBoundaries.cs:145-175 | A raw box whose four bounds are already in range is reported unchanged. |
| `BoundaryProperties.WrapIsPerBound` | Geolocation/CoordinateBoundaries.cs:156-175 | Each reported bound is its raw value, or that value shifted once by one period when it is out of range, independently of the other three. |
| `BoundaryProperties.OriginInsideUnwrappedBox` | Geolocation/CoordinateBoundaries.cs:147-154 | With distance ≥ 0 and no bound wrapped, `MinLatitude <= Latitude <= MaxLatitude` and `MinLongitude <= Longitude <= MaxLongitude`. |
| `BoundaryProperties.SinglePassSuffices` | Geolocation/CoordinateBoundaries.cs:157-175 | For a valid origin, distance ≥ 0, a latitude half-width ≤ 180 and a longitude half-width ≤ 360, all four reported bounds lie in the legal range. |
| `BoundaryProperties.SinglePassLimit` | Geolocation/CoordinateBoundaries.cs:157-160 | Past that limit one pass no longer guarantees the range: 20700 miles from (0, 0) reports a lower latitude of -120. |
| `Boundaries.ZeroDistanceBox` | Geolocation/CoordinateBoundaries.cs:147-154 | For a valid origin, a zero distance gives the degenerate box at the origin in every unit. |
| `BoundaryProperties.ZeroDistanceWrapsInvalidOrigin` | Geolocation/CoordinateBoundaries.cs:162-165 | The wraps ignore whether the origin is valid: at zero distance, an origin at latitude 100 still has its upper latitude moved to -80. So the degenerate box needs a valid origin. |
| `BoundaryProperties.TenMilesLatitudeExample` | Geolocation/CoordinateBoundaries.cs:147-151 | Ten miles around (34.0675918, -118.3977091) gives latitude bounds within 1e-4 of 33.9227 and 34.2125. |
| `Boundaries.Compute` | Geolocation/CoordinateBoundaries.cs:138-176 | A calculation succeeds exactly when the origin passes the range check, and then yields `Box` of the inputs. |
| `Boundaries.Recalculate` | Geolocation/CoordinateBoundaries.cs:138-176 | After one recalculation the outputs are consistent with the inputs. A refused calculation leaves the previous outputs in place. |
| `BoundaryProperties.RecalculateIdempotent` | Geolocation/CoordinateBoundaries.cs:138-176 | Recalculating twice gives the same outputs as recalculating once, and recalculating a consistent state changes nothing: the outputs depend only on the four stored inputs. |
| `BoundaryProperties.DefaultStateConsistent` | Geolocation/CoordinateBoundaries.cs:29-31 | The parameterless constructor's all-zero inputs and outputs already satisfy the object invariant, for any unit. |
| `Boundaries.CoordinateBoundaries.constructor` | Geolocation/CoordinateBoundaries.cs:29-31 | The parameterless constructor computes nothing: inputs are 0, 0, 0, Miles, outputs are all 0, and `Valid()` holds. |
| `Boundaries.CoordinateBoundaries.New` | Geolocation/CoordinateBoundaries.cs:51-64 | It fails exactly when the origin is invalid, and then no object is created. Otherwise it returns a fresh object that holds the given inputs and whose outputs are their box. |
| `Boundaries.CoordinateBoundaries.NewAt` | Geolocation/CoordinateBoundaries.cs:39-42 | The same as `New` applied to the coordinate's two fields, with Miles as the default unit. |
| `Boundaries.CoordinateBoundaries.Calculate` | Geolocation/CoordinateBoundaries.cs:138-176 | It writes only the four outputs and succeeds exactly when the stored origin is valid. The new outputs are `Recalculate` of the old ones: a refused origin writes none of them. |
| `Boundaries.CoordinateBoundaries.SetDistance` | Geolocation/CoordinateBoundaries.cs:69-77 | It stores the distance and leaves the other three inputs unchanged, then recalculates. The invariant holds afterwards. Setting the current value leaves the outputs unchanged. |
| `Boundaries.CoordinateBoundaries.SetDistanceUnit` | Geolocation/CoordinateBoundaries.cs:82-90 | The same as `SetDistance`, for the unit. |
| `Boundaries.CoordinateBoundaries.SetLatitude` | Geolocation/CoordinateBoundaries.cs:95-103 | It stores the latitude even when it is invalid. It fails exactly when the new origin is invalid, and then the outputs keep their previous values; otherwise they are the fresh box. Setting the current value leaves the outputs unchanged. |
| `Boundaries.CoordinateBoundaries.SetLongitude` | Geolocation/CoordinateBoundaries.cs:108-116 | The same as `SetLatitude`, for the longitude. |

## Left out

- `Math.Cos`, `Math.Abs` and the `ToRadian` extension are not part of this model. `|cos(latitude)|` is an arbitrary function that is positive and at most 1, given to the object at construction.
- IEEE-754 double rounding, `NaN` and infinities: numbers are exact reals.
- Pole behaviour: at exactly ±90° the true `|cos|` is 0 (in doubles about 6e-17, which gives a huge longitude width). The abstract factor is required to be positive, so that case is not modelled.
- No claim is made that the box contains the true geodesic disc, and none that the wraparound is correct when a bound overshoots by more than one period. The code promises neither. `SinglePassLimit` shows the second limitation.
- The exception message text: only the fact that an error is raised is modelled.
- The property getters (`Distance`, `DistanceUnit`, `Latitude`, `Longitude` and the four outputs) are plain field reads of the class.
- The source files of `CoordinateValidator`, `Coordinate` and `DistanceUnit` are not part of this model. They are modelled from their use here and from the test fixtures. The parameterless constructor's ensures (`Inputs() == Parameters(0.0, 0.0, 0.0, Miles)` in `boundaries.dfy`) assumes that `Miles` is the enum's zero member, which is what `default(DistanceUnit)` gives in C#. The constructor's own all-zero outputs are the same for every unit. The choice matters once a non-zero distance is set without setting a unit: a `Distance` of 69 then gives ±1° of latitude if the default is Miles, and about ±0.62° if it were Kilometers.
- Concurrency: the class has no synchronisation and the model is sequential.
