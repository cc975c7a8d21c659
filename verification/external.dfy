/** The operations the camera takes from outside its own class: the three
    functions of the `routines` module it calls, and Python's power of two
    with a real exponent. None of them is defined here; a camera is given
    them as values, and the laws it relies on are stated as predicates. */
module External {

  datatype Routines = Routines(
    // routines.qe(wavelength): a simulated quantum efficiency
    qe: real -> real,
    // routines.get_photons(exposure, wavelength, radiance, pixel_area, f_number)
    getPhotons: (real, real, real, real, real) -> real,
    // routines.get_radiance(exposure, wavelength, photons, pixel_area, f_number)
    getRadiance: (real, real, real, real, real) -> real,
    // 2 ** x for a real exponent x
    pow2: real -> real)
  {
    /** What the camera may assume of these operations at all times:
        2 ** 0 is 1, powers of two are positive, and a quantum efficiency
        is a fraction. */
    ghost predicate Sound() {
      pow2(0.0) == 1.0 &&
      (forall x :: pow2(x) > 0.0) &&
      (forall w :: 0.0 <= qe(w) <= 1.0)
    }

    /** get_radiance is the inverse of get_photons for a fixed exposure,
        wavelength, pixel area and f-number. */
    ghost predicate RadianceInvertsPhotons() {
      forall exposure, wavelength, photons, area, fNumber ::
        getPhotons(exposure, wavelength, getRadiance(exposure, wavelength, photons, area, fNumber), area, fNumber)
        == photons
    }
  }
}
