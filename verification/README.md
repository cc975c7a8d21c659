# EMVA1288 camera simulator, modelled in Dafny

This project models the `Camera` class of the emva1288 package. The class is
a simulated digital camera that follows the EMVA1288 noise model:

- It is configured once. Only its exposure, its system gain `K` and its
  black offset can change afterwards. `K` and the black offset are always
  snapped to one of a fixed set of evenly spaced register values.
- The statistic chain (`_u_i`, `_u_d`, `_s2_d`, `_u_e`, `_s2_e`, `_s2_q`,
  `_u_y`, `_s2_y`) gives the mean and variance of the digital output for a
  scene radiance.
- `get_radiance_for` solves the mean formula backwards for a radiance.
- `grab` turns a normal draw into a frame: it applies the PRNU and DSNU maps
  and the black offset, then rounds, clips to `[0, img_max]` and casts.

Modules:

- `External` (external.dfy): the operations the camera takes from outside
  its class, held as function values in a `Routines` datatype:
  - `routines.qe`
  - `routines.get_photons`
  - `routines.get_radiance`
  - Python's `2 ** x` with a real exponent

  Two predicates state the laws the model assumes of them.
  `Sound` says `pow2(0) = 1`, powers of two are positive and `qe` is in
  [0, 1]. `RadianceInvertsPhotons` says that `get_radiance` inverts
  `get_photons`.
- `Snapping` (snapping.dfy): `np.linspace`, and the nearest-candidate
  search the `K` and `blackoffset` setters use. `NearestAt` states the search
  rule: the first index at the least distance, which is what numpy's `argmin`
  returns.
- `ArrayOps` (array_ops.dfy): the numpy steps of `grab`:
  - `np.rint` (round half to even) and `np.clip`
  - the cast to an integer type
  - in-place elementwise updates of a height x width buffer
- `CameraModel` (camera.dfy):
  - the constructor's arguments (`Config`) and their defaults
  - the `Camera` class: its fields, the invariant `Valid()`, the setters,
    the statistic chain, the radiance solver and `grab`

Floats are modelled as `real`. Python's `not x` on an optional number is the
predicate `Falsy`: it holds for None and for zero.

## Model

| member | source | states |
|---|---|---|
| `CameraModel.Pow2` | emva1288/camera/camera.py:117 | `2 ** bit_depth` is at least 1, so `img_max = 2 ** bit_depth - 1` is never negative |
| `CameraModel.DefaultsConstruct` | emva1288/camera/camera.py:8-42 | the default arguments give a camera that can be constructed, with `img_max` 255 |
| `CameraModel.Camera.constructor` | emva1288/camera/camera.py:114-149 | sets `img_max = 2 ** bit_depth - 1`; builds both candidate sequences with linspace; sets `K` and `blackoffset` to the nearest candidates of the given values; takes `qe` from `routines.qe` (a value in [0, 1]) when none is given; installs the default maps (DSNU all 0, PRNU all 1) with the frame's shape; establishes the invariant |
| `CameraModel.Camera.SetExposure` | emva1288/camera/camera.py:181-183 | stores the exposure unchanged and changes nothing else; afterwards the mean output at every radiance is the forward model at the new exposure |
| `CameraModel.Camera.SetK` | emva1288/camera/camera.py:208-210 | `K` becomes the candidate nearest to the value (the first one on a tie); a value that is already a candidate is kept, so setting `K` to itself changes nothing; `K` stays within `[K_min, K_max]` even for values outside it; only `K` changes and the invariant holds |
| `CameraModel.Camera.SetBlackoffset` | emva1288/camera/camera.py:230-233 | the same for the black offset and its candidates and range |
| `Snapping.Linspace` | emva1288/camera/camera.py:139-144 | `n` values; the first is the lower end; the last is the upper end when `n >= 2`; consecutive values are `(hi - lo)/(n - 1)` apart |
| `Snapping.LinspaceWithin` | emva1288/camera/camera.py:139-146 | every candidate lies between the two ends of its sequence |
| `Snapping.NearestValue` | emva1288/camera/camera.py:199-210 | returns an index and the candidate at it; no candidate is nearer to the value, and no earlier candidate is equally near |
| `Snapping.NearestAtUnique` | emva1288/camera/camera.py:199-204 | the snapping rule picks exactly one candidate |
| `Snapping.NearestOfCandidate` | emva1288/camera/camera.py:199-210 | a value that is a candidate snaps to itself |
| `CameraModel.Camera.UI` | emva1288/camera/camera.py:307-314 | dark current at the reference temperature is `dark_current_ref`; its sign is the sign of `dark_current_ref` |
| `CameraModel.Camera.UD` | emva1288/camera/camera.py:286-291 | mean dark electrons exceed `dark_signal_0` by the same accumulated dark charge that the dark variance adds to `sigma2_dark_0`; they are never below `dark_signal_0` when the dark current and the exposure are non-negative |
| `CameraModel.Camera.S2D` | emva1288/camera/camera.py:316-321 | dark variance is never below `sigma2_dark_0` when the dark current and the exposure are non-negative |
| `CameraModel.Camera.UE` | emva1288/camera/camera.py:269-274 | with `qe` in [0, 1], light electrons lie between zero and the photon count at the stored exposure; they are zero when `qe` is zero |
| `CameraModel.Camera.UY` | emva1288/camera/camera.py:262-267 | the mean output equals the forward model `K * (dark electrons + qe * photons)` at the stored exposure; it is non-negative when `K` and both electron counts are |
| `CameraModel.Camera.S2Y` | emva1288/camera/camera.py:276-305 | the output variance never falls below the quantisation variance `_s2_q` (1/12) while the dark variance and the light variance (equal to the light mean by `_s2_e`'s Poisson identity) are non-negative, and it equals 1/12 at zero gain |
| `CameraModel.Camera.VarianceFloor` | emva1288/camera/camera.py:276-321 | the output variance is at least 1/12 when `sigma2_dark_0`, the dark current, the exposure and the light-electron mean are non-negative (the conditions matter: see Left out) |
| `CameraModel.Camera.MeanMonotone` | emva1288/camera/camera.py:262-274 | the mean output never decreases as the photon count grows, while `K` and `qe` are non-negative |
| `CameraModel.Camera.MeanMonotoneInExposure` | emva1288/camera/camera.py:262-291 | the mean output does not decrease as the exposure grows, while `K`, `qe` and the dark current are non-negative and the photon count does not fall with the exposure |
| `CameraModel.Camera.ZeroMeansUnset` | emva1288/camera/camera.py:346-349 | in `get_radiance_for` a target mean or exposure of zero acts exactly as an absent one (the default mean is `img_max`), whereas `get_photons` (lines 378-379) replaces only a missing exposure and passes zero on as zero |
| `CameraModel.Camera.RequiredPhotons` | emva1288/camera/camera.py:350-352 | the photon count inverts the mean formula: `K * (_u_d() + qe * up)` is the target; nothing clamps it, so it is negative exactly when the target is below `K * _u_d()` |
| `CameraModel.Camera.GetRadianceFor` | emva1288/camera/camera.py:346-358 | round trip: when the exposure used is the stored one and `get_radiance` inverts `get_photons`, the mean output at the returned radiance is the target mean (`img_max` by default) |
| `CameraModel.Camera.RadianceForOtherExposure` | emva1288/camera/camera.py:348-357 | as written, with an explicit exposure `e`, the mean output at `e` misses the target by `K` times the difference between the dark signal at `e` and at the stored exposure; with non-zero dark current and `e` different from the stored exposure it misses |
| `CameraModel.Camera.GetRadianceForAt` | emva1288/camera/camera.py:323-358 | corrected solver: it takes the dark signal at the resolved exposure; the mean output at that exposure is the target for every exposure argument; it agrees with `GetRadianceFor` at the stored exposure |
| `CameraModel.Camera.Pixel` | emva1288/camera/camera.py:254-260 | every output pixel is in `[0, img_max]`, whatever the sample |
| `CameraModel.Camera.ApplyPatterns` | emva1288/camera/camera.py:253-257 | in place, each draw entry `v` becomes `v * prnu + K * dsnu + blackoffset` |
| `CameraModel.Camera.Grab` | emva1288/camera/camera.py:240-260 | returns a new `height x width` integer frame; each entry is the quantised value of its draw entry after the maps and the offset, and lies in `[0, img_max]`; the draw buffer ends up holding the same values; the camera and its maps are unchanged |
| `ArrayOps.Rint` | emva1288/camera/camera.py:258 | the result is an integer within 1/2 of the input, and the even one on a tie |
| `ArrayOps.RintUnique` | emva1288/camera/camera.py:258 | those two properties determine the rounding |
| `ArrayOps.Clip` | emva1288/camera/camera.py:259 | the result is in `[lo, hi]`; it is the input when the input is in range and otherwise the bound the input passed |
| `ArrayOps.Trunc` | emva1288/camera/camera.py:260 | the cast truncates toward zero |
| `ArrayOps.TruncOfInteger` | emva1288/camera/camera.py:260 | the cast keeps an integer-valued float unchanged |
| `ArrayOps.Quantize` | emva1288/camera/camera.py:258-260 | rounding, clipping to `[0, top]` and the cast give the rounded value when it is in range and otherwise the bound it passed; the result always lies in `[0, top]` |
| `ArrayOps.Digitize` | emva1288/camera/camera.py:258-260 | in place, round and clip the buffer, then return a new integer buffer of the same shape holding the quantised entries |
| `ArrayOps.MapInPlace` | emva1288/camera/camera.py:257-259 | each entry is replaced by a function of its old value, and nothing else in the buffer changes |
| `ArrayOps.ZipInPlace` | emva1288/camera/camera.py:254-255 | each entry is replaced by a function of its old value and the matching entry of a second buffer of the same shape |
| `ArrayOps.Truncate` | emva1288/camera/camera.py:260 | returns a new integer buffer of the same shape holding every entry truncated |

These helpers carry no contract of their own; the lemmas and functions
above state what they mean:

- `CameraModel.Camera.UYAt`: the mean output once the exposure is `e`.
- `CameraModel.Camera.DarkMeanAt`: the mean dark electrons at exposure `e`.
- `CameraModel.Camera.Analog`: a pixel before digitisation.
- `CameraModel.Camera.GetPhotons` (`get_photons`, lines 360-384): see
  `ZeroMeansUnset` and `UE`.
- `CameraModel.Camera.S2E` (`_s2_e`, lines 276-284) and
  `CameraModel.Camera.S2Q` (`_s2_q`, lines 293-297): see `S2Y` and
  `VarianceFloor`.
- `CameraModel.Camera.TargetMean` and `CameraModel.Camera.ResolvedExposure`
  (lines 346-349): see `ZeroMeansUnset` and `GetRadianceFor`.

## Left out

- The normal draw `np.random.normal` (emva1288/camera/camera.py:250-251) is
  random, so `Grab` takes the drawn buffer as its argument. Two other steps
  are therefore not part of `Grab`: computing the draw's mean `_u_y` and
  standard deviation `sqrt(_s2_y)`, and the `int(img_max)` at line 247.
  The draw's parameters are `UY` and `S2Y`. `VarianceFloor` shows that the
  variance under the square root is at least 1/12 only when `sigma2_dark_0`,
  the dark current, the exposure and the light-electron mean are
  non-negative. Outside those conditions the variance can be negative, for
  example with a large `dark_signal_0` at the radiance `get_radiance_for`
  returns, since `RequiredPhotons` is then negative. In the source
  `np.sqrt` then gives NaN, the draws are NaN, and their `uint64` cast is
  undefined, so nothing bounds the frame. The model does not cover that
  case: `Pixel` and `Grab` take real samples.
- emva1288/camera/routines.py is not part of this model:
  - `qe`, `get_photons` and `get_radiance` are function values given to the
    camera. The laws assumed of them are the predicates in `External`.
  - `nearest_value` is written out as a scan for the first candidate at the
    least distance. This follows the setters' docstrings and numpy's
    `argmin`.
- `2 ** x` with a real exponent is a function value, with `pow2(0) = 1` and
  `pow2(x) > 0` assumed.
- IEEE floating point is not modelled: values are exact reals, and there is
  no rounding error, infinity or NaN. Three divisions by zero are excluded
  by a `requires`:
  - `temperature_doubling = 0` raises ZeroDivisionError in the source.
  - `K = 0` and `qe = 0` in `get_radiance_for` give an infinite or NaN
    result in the source.
- The cast to `uint64` is modelled as truncation toward zero. Wrap-around
  for `bit_depth > 64` is not modelled.
- `bit_depth` is a natural number. The source's `int(bit_depth)` on a
  fractional or negative value is not modelled.
- A `K_steps` or `blackoffset_steps` of 0 makes the setter raise in the
  source (`argmin` of an empty array). The constructor requires both counts
  to be positive.
- Caller-supplied `dsnu`/`prnu` maps are not modelled. `dsnu or
  np.zeros(...)` (lines 148-149) raises for any numpy array of more than
  one element, so the model installs the default maps. `Grab` itself works
  for any maps of the frame's shape.
- The read-only property accessors (lines 151-238) are the class's fields.
  `exposure_min` and `exposure_max` are stored but never used, as in the
  source.
- The claim that the frames follow the EMVA1288 distribution is statistical
  and is not modelled.
- For an explicit exposure, the docstring of `get_radiance_for`
  (emva1288/camera/camera.py:334-344) promises the radiance for the target
  at that exposure, which needs the dark signal at that exposure. The code
  takes the dark signal at the stored exposure. The model follows the code
  (`GetRadianceFor`) and gives the docstring's reading as
  `GetRadianceForAt`; see Findings.

## Findings

| source | as written | input that shows it | evidently intended | confidence | as-written member | corrected member |
|---|---|---|---|---|---|---|
| emva1288/camera/camera.py:348-351 | `get_radiance_for` resolves `exposure` but takes the dark electrons from `_u_d()`, which reads the stored exposure | `dark_current_ref=1` with the other defaults (dark current 0.5 at 22 °C), stored exposure 1e6 ns, `get_radiance_for(100, 2e6)`: the mean output at 2e6 ns is `100 + K * 0.0005`, not 100 | the docstring (lines 334-338) gives the radiance for the target at the given exposure, so the dark electrons should be taken at that exposure | medium, not executed | `CameraModel.Camera.RadianceForOtherExposure` | `CameraModel.Camera.GetRadianceForAt` |
