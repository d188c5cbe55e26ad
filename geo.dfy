/** Coordinates as the app handles them: CoreLocation's
    `CLLocationCoordinate2D`, `CLLocation.coordinate` and the document store's
    `GeoPoint` all carry a latitude and a longitude as two doubles. */
module Geo {

  /** A 64-bit floating-point number seen through the distinctions the code
      makes: a finite value (carried exactly, as a real), NaN, or an infinity
      with its sign. Rounding is not modelled. */
  datatype Double = Finite(value: real) | NaN | Infinity(negative: bool) {

    /** `Double.isFinite`. */
    predicate IsFinite() {
      Finite?
    }

    /** Unary minus: NaN stays NaN and an infinity changes its sign. */
    function Negated(): (r: Double)
      ensures r.IsFinite() <==> IsFinite()
      ensures Finite? ==> r.value == -value
    {
      match this
      case Finite(v) => Finite(-v)
      case NaN => NaN
      case Infinity(neg) => Infinity(!neg)
    }

    /** `abs(_:)`: NaN stays NaN and both infinities become +infinity. */
    function Magnitude(): (r: Double)
      ensures r.IsFinite() <==> IsFinite()
      ensures Finite? ==> r.value >= 0.0 && (r.value == value || r.value == -value)
    {
      match this
      case Finite(v) => Finite(if v < 0.0 then -v else v)
      case NaN => NaN
      case Infinity(_) => Infinity(false)
    }

    /** `self <= bound` for a finite bound: false for NaN and +infinity,
        true for -infinity. */
    predicate AtMost(bound: real) {
      match this
      case Finite(v) => v <= bound
      case NaN => false
      case Infinity(neg) => neg
    }
  }

  /** A latitude/longitude pair in degrees. */
  datatype Coordinate = Coordinate(latitude: Double, longitude: Double)

  /** The coordinate `(0, 0)`. */
  const Origin: Coordinate := Coordinate(Finite(0.0), Finite(0.0))
}
