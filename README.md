# liblatlng angle helpers in Dafny

liblatlng is a small C++ header library. It computes the great-circle
distance and the initial bearing between two latitude/longitude points, with
helpers for angles in its `Degree` namespace. This project models those
helpers and the last step of the bearing query:

- `toRadian` and `fromRadian`, the conversions between degrees and radians;
- `normalizeRelative`, which folds an angle into [-180, 180), and
  `normalizeAbsolute`, which folds it into [0, 360). Both first return NaN
  unchanged and return 0 for any value above 1e9 or below -1e9. Then they run
  two loops that subtract or add 360;
- the last statement of `BasicLatLng::azimuthFrom`. It converts the `atan2`
  result to degrees, adds 180 and folds the sum into [0, 360).

Files:

- `ieee.dfy` (module `Ieee`): a floating-point value is `NaN`, `PosInf`,
  `NegInf` or `Fin(v)` with `v` an exact real. The module defines the
  comparisons, the addition and the scaling that the helpers apply.
- `degree.dfy` (module `Degree`): π as an abstract positive constant `Pi`,
  the two conversions and their round trips. `Wrap(x, lo)` is the closed form
  `x - 360·floor((x - lo)/360)`. The functions `Relative` and `Absolute`
  specify the normalisers. The methods `NormalizeRelative` and
  `NormalizeAbsolute` are the source's loops, proved equal to those
  functions.
- `latlng.dfy` (module `LatLng`): the point datatype `BasicLatLng`, which
  stores `lat` and `lng` unchecked as the struct of
  include/liblatlng.hpp:126-139 does, and the bearing's final step, with its
  range lemma.

The loops run on the finite value left after the two guards. Each loop
carries a ghost count of the turns added so far. Its invariant says the
current angle is the input plus that many turns of 360. Termination is
measured by the floor of the angle. Over exact reals the loops terminate for
every finite input. The 1e9 guard is kept because it is observable: it sends
the infinities and every large value to 0.

## Model

| member | source | states |
|---|---|---|
| `Degree.ToRadian` | include/liblatlng.hpp:53-57 | NaN, each infinity (with its sign) and finite values keep their class; a finite result r satisfies r·180 = deg·π |
| `Degree.FromRadian` | include/liblatlng.hpp:60-64 | NaN, each infinity (with its sign) and finite values keep their class; a finite result d satisfies d·π = rad·180 |
| `Degree.FromRadianToRadian` | include/liblatlng.hpp:53-64 | converting degrees to radians and back gives every input back, NaN and the infinities included |
| `Degree.ToRadianFromRadian` | include/liblatlng.hpp:53-64 | converting radians to degrees and back gives every input back |
| `Degree.StraightAngle` | include/liblatlng.hpp:53-64 | 180 degrees is π radians and π radians is 180 degrees |
| `Ieee.ScaleInverse` | include/liblatlng.hpp:56 | scaling by num/den and then by den/num is the identity on every value, the infinities keeping their sign |
| `Degree.Wrap` | include/liblatlng.hpp:82-90 | the closed form lies in [lo, lo + 360) and differs from x by a whole number of turns |
| `Degree.WrapUnique` | include/liblatlng.hpp:82-90 | only one value in [lo, lo + 360) differs from x by whole turns, so any loop that reaches that range has reached `Wrap(x, lo)` |
| `Degree.OutOfBounds` | include/liblatlng.hpp:77 | the guard at lines 77 and 106 (`deg > 1e9` or `deg < -1e9`) holds exactly for the two infinities and the finite values above 1e9 or below -1e9, never for NaN |
| `Degree.Relative` | include/liblatlng.hpp:67-93 | NaN is returned unchanged; the infinities and finite values above 1e9 or below -1e9 give 0; every other value gives a finite result in [-180, 180) congruent to the input mod 360 |
| `Degree.Absolute` | include/liblatlng.hpp:96-122 | NaN is returned unchanged; the infinities and finite values above 1e9 or below -1e9 give 0; every other value gives a finite result in [0, 360) congruent to the input mod 360 |
| `Degree.NormalizeRelative` | include/liblatlng.hpp:68-93 | the two guards and the subtract-360 and add-360 loops return exactly `Relative(deg)` |
| `Degree.NormalizeAbsolute` | include/liblatlng.hpp:97-122 | the two guards and the two loops return exactly `Absolute(deg)` |
| `Degree.RelativeFixed` | include/liblatlng.hpp:82-92 | an angle already in [-180, 180) is returned unchanged: neither loop runs |
| `Degree.AbsoluteFixed` | include/liblatlng.hpp:111-121 | an angle already in [0, 360) is returned unchanged |
| `Degree.RelativeIdempotent` | include/liblatlng.hpp:68-93 | normalizing into [-180, 180) twice is the same as once, for every input |
| `Degree.AbsoluteIdempotent` | include/liblatlng.hpp:97-122 | normalizing into [0, 360) twice is the same as once, for every input |
| `Degree.AbsoluteFromRelative` | include/liblatlng.hpp:68-122 | for every input, the absolute angle is the relative one, raised by 360 when it is negative |
| `LatLng.Bearing` | include/liblatlng.hpp:183 | `normalizeAbsolute(fromRadian(a) + 180)` over exact values: NaN exactly when a is NaN, and otherwise finite and in [0, 360) for every a, infinities included |
| `LatLng.AzimuthFrom` | include/liblatlng.hpp:183 | the bearing is `normalizeAbsolute(fromRadian(a) + 180)` of the atan2 value a |
| `LatLng.BearingInRange` | include/liblatlng.hpp:183 | for a in [-π, π] the bearing is finite and in [0, 360): it is fromRadian(a) + 180 for a < π, and π (which would give 360) gives 0 |
| `LatLng.BearingNaN` | include/liblatlng.hpp:183 | a NaN atan2 value gives a NaN bearing |

## Left out

- `distanceFrom` (include/liblatlng.hpp:148-167) is not modelled. It is `acos`, `sin` and `cos` from the C math library on floating point, with no exact behaviour to state over reals. That includes the unclamped `acos` argument, which rounding can push outside [-1, 1].
- The trigonometry of `azimuthFrom` (include/liblatlng.hpp:173-182) is left to the C library. `LatLng.AzimuthFrom` takes the `std::atan2(y, x)` value as its parameter instead of the two points.
- Floating-point rounding is not modelled: finite values are exact reals. So the model does not show the float and double instances (include/liblatlng.hpp:186-190) behaving differently, the precision of the π literal, or `deg - 360 == deg` at large magnitudes, which is why the source has the 1e9 guard. Two rounding effects break promises that hold in the model. First, in double `normalizeAbsolute(-1e-20)` computes `-1e-20 + 360.0`, which rounds to 360.0, so the source returns 360.0, outside [0, 360); `azimuthFrom` returns 360 in the same way when `fromRadian(a) + 180` rounds to a tiny negative value. Second, `toRadian` and `fromRadian` overflow to an infinity for very large finite inputs (for `float`, `fromRadian(1e37f)`), so the round trips `Degree.FromRadianToRadian` and `Degree.ToRadianFromRadian` hold only over exact reals.
- π is an abstract positive constant. The compile-time choice between `std::numbers::pi_v` and the literal (include/liblatlng.hpp:26-48) is a portability matter with no behavioural difference.
- The template parameter `T` is not modelled: one real-valued model stands for every instance.
- The `BasicLatLng` constructor (include/liblatlng.hpp:135-139) only stores `lat` and `lng` without checks. The datatype `LatLng.BasicLatLng` is that value.
