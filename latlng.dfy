/** The point type of liblatlng and the last step of its bearing query.

    The trigonometry of `azimuthFrom` is left to the C library; the model
    starts from the value `std::atan2(y, x)` returns, which lies in
    [-pi, pi] for every pair of non-NaN arguments. */
module LatLng {
  import opened Ieee
  import opened Degree

  /** A latitude/longitude pair in degrees, stored as given. */
  datatype BasicLatLng = BasicLatLng(lat: Float, lng: Float)

  /** The bearing `azimuthFrom` returns once atan2 has produced `a`:
      converted to degrees, turned round by 180 degrees (so that it points
      from the other point towards this one) and folded into [0, 360). */
  function Bearing(a: Float): (bearing: Float)
    ensures bearing.NaN? <==> a.NaN?
    ensures !bearing.NaN? ==> bearing.Fin? && 0.0 <= bearing.v < 360.0
  {
    Absolute(Add(FromRadian(a), 180.0))
  }

  /** The final statement of `azimuthFrom`, given the atan2 value `a`. */
  method AzimuthFrom(a: Float) returns (bearing: Float)
    ensures bearing == Bearing(a)
  {
    bearing := NormalizeAbsolute(Add(FromRadian(a), 180.0));
  }

  /** For every atan2 value in [-pi, pi] the bearing lies in [0, 360) and is
      the angle in degrees turned round by 180, except that the half turn pi
      itself, which would give 360, is folded to 0. */
  lemma {:induction false} BearingInRange(a: Float)
    requires a.Fin? && -(Pi as real) <= a.v <= Pi
    ensures Bearing(a).Fin?
    ensures 0.0 <= Bearing(a).v < 360.0
    ensures a.v < Pi ==> Bearing(a).v == FromRadian(a).v + 180.0
    ensures a.v == Pi ==> Bearing(a).v == 0.0
  {
    var d := FromRadian(a).v;
    assert d * Pi == a.v * 180.0;
    CancelPositive(-180.0, d, Pi);
    CancelPositive(d, 180.0, Pi);
    assert d * Pi <= 180.0 * Pi;
    if a.v < Pi {
      AbsoluteFixed(Fin(d + 180.0));
    } else {
      assert d == 180.0;
      assert Congruent(0.0, 360.0);
      WrapUnique(360.0, 0.0, 0.0);
    }
  }

  /** A NaN from atan2 (a NaN coordinate) comes out of the bearing unchanged. */
  lemma BearingNaN()
    ensures Bearing(NaN) == NaN
  {
  }
}
