/** The EMVA1288 camera simulator: a camera configured once, whose exposure,
    system gain K and black offset may be changed afterwards (the last two
    snapped to a discrete set of register values), which computes the mean
    and variance of its digital output for a given radiance, solves that
    mean backwards for a radiance, and turns a normal draw into a clipped,
    quantised frame. */
module CameraModel {
  import opened External
  import opened Snapping
  import opened ArrayOps

  datatype Option<T> = None | Some(value: T)

  /** Python's `not x` for an optional number: None and zero are both false. */
  predicate Falsy(x: Option<real>) {
    x.None? || x.value == 0.0
  }

  /** The keyword arguments of the camera's constructor. The dsnu and prnu
      maps are not among them: only their defaults are modelled. */
  datatype Config = Config(
    fNumber: real,
    pixelArea: real,        // um^2
    bitDepth: nat,
    width: nat,
    height: nat,
    temperature: real,      // degrees Celsius
    temperatureRef: real,
    temperatureDoubling: real,
    wavelength: real,       // nm
    qe: Option<real>,       // None: ask routines.qe
    exposure: real,         // ns
    exposureMin: real,
    exposureMax: real,
    K: real,                // DN per electron
    KMin: real,
    KMax: real,
    KSteps: nat,
    blackoffset: real,      // DN
    blackoffsetMin: real,
    blackoffsetMax: real,
    blackoffsetSteps: nat,
    darkCurrentRef: real,
    darkSignal0: real,
    sigma2Dark0: real)

  /** The constructor's default arguments. */
  const Defaults: Config := Config(
    8.0, 25.0, 8, 640, 480,
    22.0, 30.0, 8.0,
    525.0, None,
    1000000.0, 10000.0, 500000000.0,
    0.01, 0.01, 17.0, 255,
    0.0, 0.0, 16.0, 255,
    0.0, 0.0, 10.0)

  /** 2 ** n for a whole exponent. */
  function Pow2(n: nat): (r: nat)
    ensures r >= 1
  {
    if n == 0 then 1 else 2 * Pow2(n - 1)
  }

  /** The default configuration can be constructed, and its saturation
      ceiling is 255. */
  lemma DefaultsConstruct()
    ensures Defaults.KSteps >= 1 && Defaults.blackoffsetSteps >= 1
    ensures Pow2(Defaults.bitDepth) - 1 == 255
  {
    assert Pow2(8) == 256;
  }

  class Camera {
    const fNumber: real
    const pixelArea: real
    const bitDepth: nat
    const imgMax: nat
    const width: nat
    const height: nat
    const temperature: real
    const temperatureRef: real
    const temperatureDoubling: real
    const wavelength: real
    const qe: real
    const darkCurrentRef: real
    const darkSignal0: real
    const sigma2Dark0: real
    var exposure: real
    const exposureMin: real
    const exposureMax: real
    const Ks: seq<real>
    var K: real
    const blackoffsets: seq<real>
    var blackoffset: real
    const dsnu: array2<real>
    const prnu: array2<real>
    const routines: Routines
    /** The arguments the camera was built from. */
    ghost const config: Config

    /** The camera's invariant: the saturation ceiling matches the bit depth,
        the gain and black offset are register values, and the fixed-pattern
        maps have the frame's shape. */
    ghost predicate Valid()
      reads this
    {
      routines.Sound() &&
      imgMax == Pow2(bitDepth) - 1 &&
      Ks == Linspace(config.KMin, config.KMax, config.KSteps) && K in Ks &&
      blackoffsets == Linspace(config.blackoffsetMin, config.blackoffsetMax, config.blackoffsetSteps) &&
      blackoffset in blackoffsets &&
      dsnu.Length0 == height && dsnu.Length1 == width &&
      prnu.Length0 == height && prnu.Length1 == width &&
      dsnu != prnu
    }

    /** Builds the camera: derives the saturation ceiling, builds the two
        candidate sequences and snaps the initial gain and black offset to
        them, resolves a missing quantum efficiency through routines.qe, and
        installs the default fixed-pattern maps (no DSNU, unit PRNU). An
        empty candidate sequence makes the snapping raise, so both step
        counts must be positive. */
    constructor (cfg: Config, ext: Routines)
      requires cfg.KSteps >= 1 && cfg.blackoffsetSteps >= 1
      requires ext.Sound()
      ensures Valid()
      ensures config == cfg && routines == ext
      ensures imgMax == Pow2(cfg.bitDepth) - 1
      ensures fNumber == cfg.fNumber && pixelArea == cfg.pixelArea && bitDepth == cfg.bitDepth
      ensures width == cfg.width && height == cfg.height
      ensures temperature == cfg.temperature && temperatureRef == cfg.temperatureRef
      ensures temperatureDoubling == cfg.temperatureDoubling && wavelength == cfg.wavelength
      ensures qe == (if cfg.qe.Some? then cfg.qe.value else ext.qe(cfg.wavelength))
      ensures cfg.qe.None? ==> 0.0 <= qe <= 1.0
      ensures darkCurrentRef == cfg.darkCurrentRef && darkSignal0 == cfg.darkSignal0
      ensures sigma2Dark0 == cfg.sigma2Dark0
      ensures exposure == cfg.exposure && exposureMin == cfg.exposureMin && exposureMax == cfg.exposureMax
      ensures exists i :: NearestAt(Ks, cfg.K, i) && K == Ks[i]
      ensures exists i :: NearestAt(blackoffsets, cfg.blackoffset, i) && blackoffset == blackoffsets[i]
      ensures fresh(dsnu) && fresh(prnu)
      ensures forall i, j :: 0 <= i < height && 0 <= j < width ==> dsnu[i, j] == 0.0 && prnu[i, j] == 1.0
    {
      fNumber := cfg.fNumber;
      pixelArea := cfg.pixelArea;
      bitDepth := cfg.bitDepth;
      imgMax := Pow2(cfg.bitDepth) - 1;
      width := cfg.width;
      height := cfg.height;
      temperature := cfg.temperature;
      temperatureRef := cfg.temperatureRef;
      temperatureDoubling := cfg.temperatureDoubling;
      wavelength := cfg.wavelength;
      qe := if cfg.qe.Some? then cfg.qe.value else ext.qe(cfg.wavelength);
      darkCurrentRef := cfg.darkCurrentRef;
      darkSignal0 := cfg.darkSignal0;
      sigma2Dark0 := cfg.sigma2Dark0;
      exposure := cfg.exposure;
      exposureMin := cfg.exposureMin;
      exposureMax := cfg.exposureMax;
      var ks := Linspace(cfg.KMin, cfg.KMax, cfg.KSteps);
      Ks := ks;
      var _, k := NearestValue(cfg.K, ks);
      K := k;
      var bos := Linspace(cfg.blackoffsetMin, cfg.blackoffsetMax, cfg.blackoffsetSteps);
      blackoffsets := bos;
      var _, bo := NearestValue(cfg.blackoffset, bos);
      blackoffset := bo;
      dsnu := new real[cfg.height, cfg.width]((i, j) => 0.0);
      prnu := new real[cfg.height, cfg.width]((i, j) => 1.0);
      routines := ext;
      config := cfg;
    }

    /** The exposure setter stores the value as given. Afterwards the mean
        output is the one the camera would have had at that exposure. */
    method SetExposure(value: real)
      requires Valid()
      modifies this`exposure
      ensures Valid() && exposure == value
      ensures temperatureDoubling != 0.0 ==> forall radiance :: UY(radiance) == old(UYAt(value, radiance))
    {
      exposure := value;
    }

    /** The gain setter: K becomes the candidate nearest to value (the first
        one on a tie), so a candidate is kept as it is and K never leaves the
        range of the candidates. */
    method SetK(value: real)
      requires Valid()
      modifies this`K
      ensures Valid()
      ensures exists i :: NearestAt(Ks, value, i) && K == Ks[i]
      ensures value in Ks ==> K == value
      ensures Min(config.KMin, config.KMax) <= K <= Max(config.KMin, config.KMax)
    {
      var i, k := NearestValue(value, Ks);
      K := k;
      if value in Ks {
        NearestOfCandidate(Ks, value, i);
      }
      LinspaceWithin(config.KMin, config.KMax, config.KSteps, i);
    }

    /** The black-offset setter, with the same snapping as the gain's. */
    method SetBlackoffset(value: real)
      requires Valid()
      modifies this`blackoffset
      ensures Valid()
      ensures exists i :: NearestAt(blackoffsets, value, i) && blackoffset == blackoffsets[i]
      ensures value in blackoffsets ==> blackoffset == value
      ensures Min(config.blackoffsetMin, config.blackoffsetMax) <= blackoffset
              <= Max(config.blackoffsetMin, config.blackoffsetMax)
    {
      var i, bo := NearestValue(value, blackoffsets);
      blackoffset := bo;
      if value in blackoffsets {
        NearestOfCandidate(blackoffsets, value, i);
      }
      LinspaceWithin(config.blackoffsetMin, config.blackoffsetMax, config.blackoffsetSteps, i);
    }

    // ---------------------------------------------------------------
    // The statistic chain

    /** _u_i: dark current, doubling every temperatureDoubling degrees; at
        the reference temperature it is the reference dark current, and it
        has the sign of the reference dark current. */
    function UI(): (r: real)
      requires temperatureDoubling != 0.0
      ensures routines.Sound() && temperature == temperatureRef ==> r == darkCurrentRef
      ensures routines.Sound() ==> (r >= 0.0 <==> darkCurrentRef >= 0.0)
    {
      1.0 * darkCurrentRef * routines.pow2((temperature - temperatureRef) / temperatureDoubling)
    }

    /** _u_d: mean number of dark electrons. Its excess over the dark-signal
        offset is the same accumulated dark charge by which the dark variance
        exceeds its own offset. */
    function UD(): (r: real)
      requires temperatureDoubling != 0.0
      reads this
      ensures r - darkSignal0 == S2D() - sigma2Dark0
      ensures routines.Sound() && darkCurrentRef >= 0.0 && exposure >= 0.0 ==> r >= darkSignal0
    {
      (UI() * exposure / 1000000000.0) + darkSignal0
    }

    /** _s2_d: variance of the dark signal; never below its offset while the
        dark current and the exposure are non-negative. */
    function S2D(): (r: real)
      requires temperatureDoubling != 0.0
      reads this
      ensures routines.Sound() && darkCurrentRef >= 0.0 && exposure >= 0.0 ==> r >= sigma2Dark0
    {
      sigma2Dark0 + (UI() * exposure / 1000000000.0)
    }

    /** get_photons: an absent exposure means the stored one; only None is
        replaced, so an exposure of zero is passed on as zero. */
    function GetPhotons(radiance: real, exposure: Option<real>): (r: real)
      reads this
    {
      var e := if exposure.None? then this.exposure else exposure.value;
      routines.getPhotons(e, wavelength, radiance, pixelArea, fNumber)
    }

    /** _u_e: mean number of light electrons, the quantum efficiency's share
        of the photons at the stored exposure; with a quantum efficiency in
        [0, 1] it lies between zero and the photon count. */
    function UE(radiance: real): (r: real)
      reads this
      ensures 0.0 <= qe <= 1.0 && GetPhotons(radiance, None) >= 0.0 ==> 0.0 <= r <= GetPhotons(radiance, None)
      ensures qe == 0.0 ==> r == 0.0
    {
      qe * GetPhotons(radiance, None)
    }

    /** _s2_e: the electron count is Poisson distributed, so its variance
        is its mean. */
    function S2E(radiance: real): (r: real)
      reads this
    {
      UE(radiance)
    }

    /** _s2_q: variance of the uniform quantisation error over one DN. */
    function S2Q(): (r: real)
    {
      1.0 / 12.0
    }

    /** The mean output `_u_y` reports once the exposure has been set to e:
        K times the dark electrons and the light electrons at exposure e. */
    ghost function UYAt(e: real, radiance: real): real
      requires temperatureDoubling != 0.0
      reads this
    {
      K * (DarkMeanAt(e) + qe * routines.getPhotons(e, wavelength, radiance, pixelArea, fNumber))
    }

    /** Mean dark electrons at exposure e. */
    function DarkMeanAt(e: real): real
      requires temperatureDoubling != 0.0
    {
      UI() * e / 1000000000.0 + darkSignal0
    }

    /** _u_y: mean digital output, the gain applied to all electrons; it is
        the forward model at the stored exposure, and it is non-negative
        while the gain and both electron counts are. */
    function UY(radiance: real): (r: real)
      requires temperatureDoubling != 0.0
      reads this
      ensures r == UYAt(exposure, radiance)
      ensures K >= 0.0 && UD() >= 0.0 && UE(radiance) >= 0.0 ==> r >= 0.0
    {
      K * (UD() + UE(radiance))
    }

    /** _s2_y: variance of the digital output. The electron-domain noise is
        scaled by K squared and the quantisation noise is added after, so
        the variance never falls below the quantisation noise while the
        electron-domain variances are non-negative, and equals it at zero
        gain. */
    function S2Y(radiance: real): (r: real)
      requires temperatureDoubling != 0.0
      reads this
      ensures S2D() >= 0.0 && S2E(radiance) >= 0.0 ==> r >= S2Q()
      ensures K == 0.0 ==> r == S2Q()
    {
      (K * K) * (S2D() + S2E(radiance)) + S2Q()
    }

    /** The variance floor in terms of the configuration: with a
        non-negative dark-noise offset, dark current, exposure and light
        electron count, the output variance is at least 1/12. */
    lemma VarianceFloor(radiance: real)
      requires temperatureDoubling != 0.0
      requires routines.Sound()
      requires sigma2Dark0 >= 0.0 && darkCurrentRef >= 0.0 && exposure >= 0.0
      requires UE(radiance) >= 0.0
      ensures S2Y(radiance) >= 1.0 / 12.0
    {
      assert S2D() >= sigma2Dark0;
    }

    /** More photons never lower the mean output while the gain and the
        quantum efficiency are non-negative. */
    lemma MeanMonotone(r1: real, r2: real)
      requires temperatureDoubling != 0.0
      requires K >= 0.0 && qe >= 0.0
      requires GetPhotons(r1, None) <= GetPhotons(r2, None)
      ensures UY(r1) <= UY(r2)
    {
      var p1, p2 := GetPhotons(r1, None), GetPhotons(r2, None);
      MulMonotone(qe, p1, p2);
      MulMonotone(K, UD() + qe * p1, UD() + qe * p2);
    }

    /** A longer exposure never lowers the mean output, as long as the gain,
        the quantum efficiency and the dark current are non-negative and the
        photon count does not fall as the exposure grows. */
    lemma MeanMonotoneInExposure(e1: real, e2: real, radiance: real)
      requires temperatureDoubling != 0.0
      requires routines.Sound()
      requires K >= 0.0 && qe >= 0.0 && darkCurrentRef >= 0.0
      requires e1 <= e2
      requires routines.getPhotons(e1, wavelength, radiance, pixelArea, fNumber)
               <= routines.getPhotons(e2, wavelength, radiance, pixelArea, fNumber)
      ensures UYAt(e1, radiance) <= UYAt(e2, radiance)
    {
      var p1 := routines.getPhotons(e1, wavelength, radiance, pixelArea, fNumber);
      var p2 := routines.getPhotons(e2, wavelength, radiance, pixelArea, fNumber);
      var i := UI();
      assert i >= 0.0;
      MulMonotone(i, e1, e2);
      assert DarkMeanAt(e1) <= DarkMeanAt(e2);
      MulMonotone(qe, p1, p2);
      MulMonotone(K, DarkMeanAt(e1) + qe * p1, DarkMeanAt(e2) + qe * p2);
    }

    // ---------------------------------------------------------------
    // Solving the mean backwards

    /** Where "unset" is a false value and where it is only None: the radiance
        solver treats a target mean or an exposure of zero as absent, but
        get_photons passes an exposure of zero on as zero. */
    lemma ZeroMeansUnset(mean: Option<real>, exposure: Option<real>, radiance: real)
      requires K != 0.0 && qe != 0.0 && temperatureDoubling != 0.0
      ensures GetRadianceFor(Some(0.0), exposure) == GetRadianceFor(None, exposure)
      ensures GetRadianceFor(mean, Some(0.0)) == GetRadianceFor(mean, None)
      ensures GetRadianceFor(None, exposure) == GetRadianceFor(Some(imgMax as real), exposure)
      ensures GetPhotons(radiance, Some(0.0)) == routines.getPhotons(0.0, wavelength, radiance, pixelArea, fNumber)
      ensures GetPhotons(radiance, None) == GetPhotons(radiance, Some(this.exposure))
    {
    }

    /** The target mean of get_radiance_for: a false `mean` (None or zero)
        stands for the saturation ceiling. */
    function TargetMean(mean: Option<real>): (m: real)
    {
      if Falsy(mean) then imgMax as real else mean.value
    }

    /** The exposure of get_radiance_for: a false `exposure` (None or zero)
        stands for the stored exposure. */
    function ResolvedExposure(exposure: Option<real>): (e: real)
      reads this
    {
      if Falsy(exposure) then this.exposure else exposure.value
    }

    /** The photon count get_radiance_for asks for: the one the forward mean
        formula (at the stored exposure's dark signal) maps to the target m.
        It is not clamped: below the dark level it is negative. */
    function RequiredPhotons(m: real): (up: real)
      requires K != 0.0 && qe != 0.0 && temperatureDoubling != 0.0
      reads this
      ensures K * (UD() + qe * up) == m
      ensures K > 0.0 && qe > 0.0 ==> (up < 0.0 <==> m < K * UD())
    {
      var ud := UD();
      var ue := (m / K) - ud;
      var up := ue / qe;
      assert qe * up == ue;
      assert K * (m / K) == m;
      up
    }

    /** get_radiance_for: the radiance routines.get_radiance gives for the
        required photon count at the resolved exposure. When the exposure
        used is the stored one and get_radiance inverts get_photons, the
        mean output at that radiance is the target mean. */
    function GetRadianceFor(mean: Option<real>, exposure: Option<real>): (r: real)
      requires K != 0.0 && qe != 0.0 && temperatureDoubling != 0.0
      reads this
      ensures routines.RadianceInvertsPhotons() && ResolvedExposure(exposure) == this.exposure ==>
                UY(r) == TargetMean(mean)
    {
      var up := RequiredPhotons(TargetMean(mean));
      var e := ResolvedExposure(exposure);
      var r := routines.getRadiance(e, wavelength, up, pixelArea, fNumber);
      assert routines.RadianceInvertsPhotons() && e == this.exposure ==> GetPhotons(r, None) == up;
      r
    }

    /** With an explicit exposure e other than the stored one,
        get_radiance_for still subtracts the dark signal of the stored
        exposure, so the mean output once the exposure is e misses the
        target by K times the difference of the two dark signals; with a
        non-zero dark current it misses. */
    lemma RadianceForOtherExposure(mean: Option<real>, e: real)
      requires K != 0.0 && qe != 0.0 && temperatureDoubling != 0.0
      requires routines.RadianceInvertsPhotons()
      requires e != 0.0
      ensures UYAt(e, GetRadianceFor(mean, Some(e))) == TargetMean(mean) + K * (DarkMeanAt(e) - UD())
      ensures UI() != 0.0 && e != exposure ==> UYAt(e, GetRadianceFor(mean, Some(e))) != TargetMean(mean)
    {
      var m := TargetMean(mean);
      var up := RequiredPhotons(m);
      var r := GetRadianceFor(mean, Some(e));
      var ud, de := UD(), DarkMeanAt(e);
      assert r == routines.getRadiance(e, wavelength, up, pixelArea, fNumber);
      assert routines.getPhotons(e, wavelength, r, pixelArea, fNumber) == up;
      assert UYAt(e, r) == K * (de + qe * up);
      assert K * (ud + qe * up) == m;
      Distribute(K, de - ud, ud + qe * up);
      if UI() != 0.0 && e != exposure {
        var ui := UI();
        assert de - ud == ui * e / 1000000000.0 - ui * exposure / 1000000000.0;
        Distribute(ui, e, -exposure);
        MulNonzero(ui, e - exposure);
        MulNonzero(K, de - ud);
      }
    }

    /** get_radiance_for with the dark signal taken at the resolved exposure:
        the mean output once the exposure is the resolved one is the target
        mean, for every exposure argument. */
    function GetRadianceForAt(mean: Option<real>, exposure: Option<real>): (r: real)
      requires K != 0.0 && qe != 0.0 && temperatureDoubling != 0.0
      reads this
      ensures routines.RadianceInvertsPhotons() ==> UYAt(ResolvedExposure(exposure), r) == TargetMean(mean)
      ensures ResolvedExposure(exposure) == this.exposure ==> r == GetRadianceFor(mean, exposure)
    {
      var m := TargetMean(mean);
      var e := ResolvedExposure(exposure);
      var up := (m / K - DarkMeanAt(e)) / qe;
      var r := routines.getRadiance(e, wavelength, up, pixelArea, fNumber);
      assert e == this.exposure ==> DarkMeanAt(e) == UD() && up == RequiredPhotons(m);
      assert qe * up == m / K - DarkMeanAt(e);
      assert K * (m / K) == m;
      assert routines.RadianceInvertsPhotons() ==>
        routines.getPhotons(e, wavelength, r, pixelArea, fNumber) == up;
      r
    }

    // ---------------------------------------------------------------
    // Image synthesis

    /** A pixel of grab's frame before digitisation, for a normal sample v,
        DSNU entry d and PRNU entry p: the sample scaled by p, offset by K d
        and by the black offset. */
    function Analog(v: real, d: real, p: real): real
      reads this
    {
      v * p + K * d + blackoffset
    }

    /** A pixel of grab's output: the analog value quantised to
        [0, imgMax]. Whatever the sample, the pixel is a valid gray value. */
    function Pixel(v: real, d: real, p: real): (n: int)
      reads this
      ensures 0 <= n <= imgMax
    {
      Quantize(Analog(v, d, p), imgMax)
    }

    /** The fixed-pattern and offset steps of grab, in place on the draw:
        `img *= prnu`, `img += K * dsnu`, `img += blackoffset`. */
    method ApplyPatterns(draw: array2<real>)
      requires draw.Length0 == height && draw.Length1 == width
      requires dsnu.Length0 == height && dsnu.Length1 == width
      requires prnu.Length0 == height && prnu.Length1 == width
      requires draw != dsnu && draw != prnu
      modifies draw
      ensures forall i, j :: 0 <= i < height && 0 <= j < width ==>
                draw[i, j] == Analog(old(draw[i, j]), dsnu[i, j], prnu[i, j])
    {
      var k, bo := K, blackoffset;
      ZipInPlace(draw, prnu, (x, p) => x * p);
      label Scaled:
      ZipInPlace(draw, dsnu, (x, d) => x + k * d);
      label Offset:
      MapInPlace(draw, x => x + bo);
      forall i, j | 0 <= i < height && 0 <= j < width
        ensures draw[i, j] == Analog(old(draw[i, j]), dsnu[i, j], prnu[i, j])
      {
        var a0, a1, a2 := old(draw[i, j]), old@Scaled(draw[i, j]), old@Offset(draw[i, j]);
        assert a1 == a0 * prnu[i, j];
        assert a2 == a1 + k * dsnu[i, j];
      }
    }

    /** grab, from the normal draw on: the draw buffer is updated in place
        (times PRNU, plus K times DSNU, plus the black offset, rounded,
        clipped) and cast to a new integer frame of the camera's shape whose
        every entry is a pixel value in [0, imgMax]. The camera's settings
        and its fixed-pattern maps are left as they were. */
    method Grab(draw: array2<real>) returns (img: array2<int>)
      requires Valid()
      requires draw.Length0 == height && draw.Length1 == width
      requires draw != dsnu && draw != prnu
      modifies draw
      ensures fresh(img) && img.Length0 == height && img.Length1 == width
      ensures forall i, j :: 0 <= i < height && 0 <= j < width ==>
                img[i, j] == Pixel(old(draw[i, j]), dsnu[i, j], prnu[i, j])
      ensures forall i, j :: 0 <= i < height && 0 <= j < width ==> 0 <= img[i, j] <= imgMax
      ensures forall i, j :: 0 <= i < height && 0 <= j < width ==> draw[i, j] == img[i, j] as real
      ensures unchanged(this) && unchanged(dsnu) && unchanged(prnu)
    {
      ApplyPatterns(draw);
      img := Digitize(draw, imgMax);
    }
  }

  lemma MulMonotone(a: real, x: real, y: real)
    requires a >= 0.0 && x <= y
    ensures a * x <= a * y
  {
  }

  lemma Distribute(a: real, x: real, y: real)
    ensures a * (x + y) == a * x + a * y
  {
  }

  lemma MulNonzero(a: real, b: real)
    requires a != 0.0 && b != 0.0
    ensures a * b != 0.0
  {
  }
}
