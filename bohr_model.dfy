/** The closed-form part of the Bohr atom sketch: the shell radius of an
    orbit index and its rounding inverse, the hydrogen-like level energy and
    the wavelength of the photon a jump between two levels produces.
    All arithmetic is exact real arithmetic. */
module BohrModel {

  /** Number of drawn shells; orbit indices run over 0 .. NUM_RINGS - 1. */
  const NUM_RINGS: int := 5
  /** Hit radius of the electron, in pixels. */
  const ELECTRON_RADIUS: real := 15.0

  /** Physical constants: Planck's constant, speed of light, Rydberg constant. */
  const H: real := 6.63e-34
  const C: real := 3.0e8
  const R: real := 1.097e7

  /** The host's PI and TWO_PI, as the shortest decimals of the host's doubles. */
  const PI: real := 3.141592653589793
  const TWO_PI: real := 6.283185307179586

  /** Round half up, as JavaScript's Math.round does. */
  function Round(x: real): (r: int)
    ensures r as real - 0.5 <= x < r as real + 0.5
  {
    (x + 0.5).Floor
  }

  /** Truncation toward zero. */
  function Trunc(x: real): (r: int)
    ensures x >= 0.0 ==> r as real <= x < r as real + 1.0
    ensures x < 0.0 ==> r as real - 1.0 < x <= r as real
  {
    if x >= 0.0 then x.Floor else -((-x).Floor)
  }

  /** The k-th multiple of m. */
  function Multiple(k: int, m: real): real
  {
    k as real * m
  }

  /** JavaScript's `%` on numbers: the remainder of truncated division,
      carrying the sign of the dividend. */
  function JsRemainder(a: real, m: real): (r: real)
    requires m > 0.0
    ensures a >= 0.0 ==> 0.0 <= r < m
    ensures a < 0.0 ==> -m < r <= 0.0
    ensures 0.0 <= a < m ==> r == a
    ensures exists k: int :: a - r == Multiple(k, m)
  {
    QuotientSign(a, m);
    RemainderBounds(a, m);
    var r := a - m * Trunc(a / m) as real;
    assert a - r == Multiple(Trunc(a / m), m);
    r
  }

  lemma QuotientSign(a: real, m: real)
    requires m > 0.0
    ensures a / m * m == a
    ensures a >= 0.0 <==> a / m >= 0.0
    ensures a < m <==> a / m < 1.0
  {
    var x := a / m;
    assert x * m == a;
    if x < 0.0 { assert x * m < 0.0; }
    if x >= 1.0 { assert (x - 1.0) * m >= 0.0; }
  }

  /** Scaling a bound on a / m - q by a positive m bounds a - m * q. */
  lemma ScaledBelowOne(a: real, q: real, m: real)
    requires m > 0.0 && a / m < q + 1.0
    ensures a - m * q < m
  {
    QuotientSign(a, m);
    var d := q + 1.0 - a / m;
    assert d * m > 0.0;
    assert d * m == m * q + m - a / m * m;
  }

  lemma ScaledAtLeastZero(a: real, q: real, m: real)
    requires m > 0.0 && q <= a / m
    ensures 0.0 <= a - m * q
  {
    QuotientSign(a, m);
    var d := a / m - q;
    assert d * m >= 0.0;
    assert d * m == a / m * m - m * q;
  }

  lemma ScaledAboveMinusOne(a: real, q: real, m: real)
    requires m > 0.0 && q - 1.0 < a / m
    ensures -m < a - m * q
  {
    var x := a / m;
    QuotientSign(a, m);
    var d := x - q + 1.0;
    assert d * m > 0.0;
    calc {
      a - m * q + m;
    ==
      x * m - m * q + m;
    ==
      d * m;
    }
  }

  lemma ScaledAtMostZero(a: real, q: real, m: real)
    requires m > 0.0 && a / m <= q
    ensures a - m * q <= 0.0
  {
    QuotientSign(a, m);
    var d := q - a / m;
    assert d * m >= 0.0;
    assert d * m == m * q - a / m * m;
  }

  /** The truncated quotient leaves a remainder of the dividend's sign,
      smaller in size than the divisor. */
  lemma RemainderBounds(a: real, m: real)
    requires m > 0.0
    ensures a >= 0.0 ==> 0.0 <= a - m * Trunc(a / m) as real < m
    ensures a < 0.0 ==> -m < a - m * Trunc(a / m) as real <= 0.0
  {
    var q := Trunc(a / m) as real;
    QuotientSign(a, m);
    if a >= 0.0 {
      ScaledAtLeastZero(a, q, m);
      ScaledBelowOne(a, q, m);
    } else {
      ScaledAboveMinusOne(a, q, m);
      ScaledAtMostZero(a, q, m);
    }
  }

  /** The min/max clamp that keeps an orbit index inside the drawn shells. */
  function ClampIndex(k: int): (r: int)
    ensures 0 <= r < NUM_RINGS
    ensures 0 <= k < NUM_RINGS ==> r == k
    ensures k < 0 ==> r == 0
    ensures k >= NUM_RINGS ==> r == NUM_RINGS - 1
  {
    var atLeastZero := if k > 0 then k else 0;
    if atLeastZero < NUM_RINGS - 1 then atLeastZero else NUM_RINGS - 1
  }

  /** Screen radius of shell `index` on a canvas of the given height. */
  function IndexToRadius(height: real, index: int): (r: real)
    requires height > 0.0 && index >= 0
    ensures r > 50.0
  {
    (height / NUM_RINGS as real) * (index + 1) as real * 0.3 + 50.0
  }

  /** Fractional shell index of a radius: the exact inverse of IndexToRadius. */
  function ShellPosition(height: real, radius: real): (x: real)
    requires height > 0.0
    ensures x >= -1.0 <==> radius >= 50.0
  {
    (radius - 50.0) * NUM_RINGS as real / (0.3 * height) - 1.0
  }

  lemma ShellPositionInvertsRadius(height: real, i: int)
    requires height > 0.0 && i >= 0
    ensures ShellPosition(height, IndexToRadius(height, i)) == i as real
  {
    var unit := height / NUM_RINGS as real;
    assert IndexToRadius(height, i) - 50.0 == unit * (i + 1) as real * 0.3;
    assert (unit * (i + 1) as real * 0.3) * NUM_RINGS as real == (0.3 * height) * (i + 1) as real;
  }

  /** Orbit index for a release radius: 0.99 times the fractional shell
      index, rounded. This is the nearest shell except just past a midpoint
      between two shells, where the 0.99 factor rounds down; the result may
      lie outside the drawn shells (the caller clamps it). */
  function RadiusToIndex(height: real, radius: real): (k: int)
    requires height > 0.0
    ensures k == Round(0.99 * ShellPosition(height, radius))
  {
    ScaledShellPosition(height, radius);
    Round((0.33 * (10.0 * radius * NUM_RINGS as real - 500.0 * NUM_RINGS as real - 3.0 * height)) / height)
  }

  lemma QuotientOfProduct(x: real, m: real, y: real)
    requires m != 0.0 && y * m == x
    ensures x / m == y
  {
  }

  lemma ScaledShellPosition(height: real, radius: real)
    requires height > 0.0
    ensures (0.33 * (10.0 * radius * NUM_RINGS as real - 500.0 * NUM_RINGS as real - 3.0 * height)) / height
         == 0.99 * ShellPosition(height, radius)
  {
    var d := radius - 50.0;
    assert 10.0 * radius * 5.0 - 2500.0 - 3.0 * height == 50.0 * d - 3.0 * height;
    assert d * 5.0 / (0.3 * height) == (50.0 * d) / (3.0 * height);
    var u := (50.0 * d) / (3.0 * height);
    assert u * (3.0 * height) == 50.0 * d;
    assert 0.99 * u == (0.33 * (50.0 * d)) / height;
    var v := (0.33 * (50.0 * d)) / height;
    assert v * height == 0.33 * (50.0 * d);
    assert (v - 0.99) * height == 0.33 * (50.0 * d - 3.0 * height);
    QuotientOfProduct(0.33 * (50.0 * d - 3.0 * height), height, v - 0.99);
  }

  /** On a canvas of height 1000 the shells of index 3 and 4 lie at radii
      290 and 350; a release at radius 321, closer to shell 4, still gives
      index 3. */
  lemma ReleasePastMidpointRoundsDown()
    ensures IndexToRadius(1000.0, 3) == 290.0 && IndexToRadius(1000.0, 4) == 350.0
    ensures RadiusToIndex(1000.0, 321.0) == 3
  {
    assert ShellPosition(1000.0, 321.0) == 271.0 * 5.0 / 300.0 - 1.0;
  }

  lemma IndexToRadiusIncreasing(height: real, i: int, j: int)
    requires height > 0.0 && 0 <= i < j
    ensures IndexToRadius(height, i) < IndexToRadius(height, j)
  {
    var unit := height / NUM_RINGS as real;
    assert unit > 0.0;
    assert unit * (i + 1) as real < unit * (j + 1) as real;
  }

  /** A larger release radius never maps to a smaller orbit index. */
  lemma RadiusToIndexMonotone(height: real, r1: real, r2: real)
    requires height > 0.0 && r1 <= r2
    ensures RadiusToIndex(height, r1) <= RadiusToIndex(height, r2)
  {
    var x1 := (0.33 * (10.0 * r1 * 5.0 - 2500.0 - 3.0 * height)) / height;
    var x2 := (0.33 * (10.0 * r2 * 5.0 - 2500.0 - 3.0 * height)) / height;
    assert x2 - x1 == (16.5 * (r2 - r1)) / height;
    assert (16.5 * (r2 - r1)) / height >= 0.0;
  }

  /** The radius of shell i maps back to i; the composition reduces to
      round(0.99 * i), which is i for every i up to 50 and so for every
      drawn shell. */
  lemma RadiusIndexRoundTrip(height: real, i: int)
    requires height > 0.0 && 0 <= i <= 50
    ensures RadiusToIndex(height, IndexToRadius(height, i)) == i
  {
    var radius := IndexToRadius(height, i);
    assert 10.0 * radius * 5.0 == 3.0 * height * (i + 1) as real + 2500.0;
    var inner := 10.0 * radius * 5.0 - 2500.0 - 3.0 * height;
    assert inner == 3.0 * height * i as real;
    assert (0.33 * inner) / height == 0.99 * i as real;
    assert i as real <= 0.99 * i as real + 0.5 < i as real + 1.0;
  }

  /** Releasing the electron exactly on drawn shell i, the clamped index
      that the release computes is i. */
  lemma ReleaseOnShell(height: real, i: int)
    requires height > 0.0 && 0 <= i < NUM_RINGS
    ensures ClampIndex(RadiusToIndex(height, IndexToRadius(height, i))) == i
  {
    RadiusIndexRoundTrip(height, i);
  }

  /** Energy of level n = index + 1: E_n = -h c R / n^2, in joules. */
  function IndexToEnergy(index: int): (e: real)
    requires index >= 0
    ensures e < 0.0
  {
    (-H * C * R) / ((index + 1) * (index + 1)) as real
  }

  /** Higher levels are less tightly bound. */
  lemma EnergyStrictlyIncreasing(i: int, j: int)
    requires 0 <= i < j
    ensures IndexToEnergy(i) < IndexToEnergy(j)
  {
    var k := H * C * R;
    var a := ((i + 1) * (i + 1)) as real;
    var b := ((j + 1) * (j + 1)) as real;
    assert (i + 1) * (i + 1) < (j + 1) * (j + 1);
    assert 0.0 < a < b;
    assert k / b < k / a by {
      assert k / b * b == k;
      assert k / a * a == k;
      assert k / b * a < k / b * b;
    }
  }

  /** The energy difference of a jump has the sign of the jump's direction,
      so it is zero exactly when the index does not change. */
  lemma EnergyDifferenceSign(oldIndex: int, newIndex: int)
    requires 0 <= oldIndex && 0 <= newIndex
    ensures newIndex > oldIndex <==> IndexToEnergy(newIndex) - IndexToEnergy(oldIndex) > 0.0
    ensures newIndex < oldIndex <==> IndexToEnergy(newIndex) - IndexToEnergy(oldIndex) < 0.0
  {
    if oldIndex < newIndex { EnergyStrictlyIncreasing(oldIndex, newIndex); }
    if newIndex < oldIndex { EnergyStrictlyIncreasing(newIndex, oldIndex); }
  }

  /** Wavelength in nanometres of the photon of the jump oldIndex -> newIndex:
      energy difference, frequency E / h, wavelength c / f. The sign follows
      the energy difference: positive when the electron climbs (absorption),
      negative when it falls (emission). */
  function Wavelength(oldIndex: int, newIndex: int): (nm: real)
    requires 0 <= oldIndex && 0 <= newIndex && oldIndex != newIndex
    ensures newIndex > oldIndex ==> nm > 0.0
    ensures newIndex < oldIndex ==> nm < 0.0
  {
    var energy := IndexToEnergy(newIndex) - IndexToEnergy(oldIndex);
    EnergyDifferenceSign(oldIndex, newIndex);
    var frequency := energy / H;
    var wavelength := C / frequency;
    wavelength * 1.0e9
  }

  /** Swapping the two levels of a jump negates the wavelength exactly. */
  lemma WavelengthAntisymmetric(a: int, b: int)
    requires 0 <= a && 0 <= b && a != b
    ensures Wavelength(b, a) == -Wavelength(a, b)
  {
    EnergyDifferenceSign(a, b);
    var energy := IndexToEnergy(b) - IndexToEnergy(a);
    assert IndexToEnergy(a) - IndexToEnergy(b) == -energy;
    NegatedEnergyNegatesWavelength(energy);
  }

  /** The frequency / wavelength steps of `Wavelength` are odd in the energy. */
  lemma NegatedEnergyNegatesWavelength(energy: real)
    requires energy != 0.0
    ensures C / ((-energy) / H) * 1.0e9 == -(C / (energy / H) * 1.0e9)
  {
    var f := energy / H;
    assert (-energy) / H == -f;
    assert C / (-f) == -(C / f);
  }

  /** 1 / n^2 for level n = index + 1. */
  function InverseSquare(index: int): real
    requires index >= 0
  {
    1.0 / ((index + 1) * (index + 1)) as real
  }

  lemma EnergyDifferenceByLevels(oldIndex: int, newIndex: int)
    requires 0 <= oldIndex && 0 <= newIndex
    ensures IndexToEnergy(newIndex) - IndexToEnergy(oldIndex)
         == H * C * R * (InverseSquare(oldIndex) - InverseSquare(newIndex))
  {
    var k := H * C * R;
    assert IndexToEnergy(newIndex) == -k * InverseSquare(newIndex);
    assert IndexToEnergy(oldIndex) == -k * InverseSquare(oldIndex);
  }

  /** The frequency / wavelength steps of `Wavelength` invert h c R d. */
  lemma WavelengthOfLevelDifference(d: real)
    requires d != 0.0
    ensures C / ((H * C * R * d) / H) * 1.0e9 * R * d == 1.0e9
  {
    var f := (H * C * R * d) / H;
    assert f == C * R * d;
    assert C / f == 1.0 / (R * d);
  }

  /** The wavelength obeys the Rydberg formula
      1 / lambda = R (1 / n_old^2 - 1 / n_new^2), with lambda in metres. */
  lemma RydbergFormula(oldIndex: int, newIndex: int)
    requires 0 <= oldIndex && 0 <= newIndex && oldIndex != newIndex
    ensures Wavelength(oldIndex, newIndex) * R * (InverseSquare(oldIndex) - InverseSquare(newIndex)) == 1.0e9
  {
    var d := InverseSquare(oldIndex) - InverseSquare(newIndex);
    EnergyDifferenceSign(oldIndex, newIndex);
    EnergyDifferenceByLevels(oldIndex, newIndex);
    assert d != 0.0;
    WavelengthOfLevelDifference(d);
  }

  /** The jump from index 1 to index 3 (level 2 to level 4, the Balmer
      beta line) is an absorption of about 486 nm. */
  lemma BalmerBeta()
    ensures 486.0 < Wavelength(1, 3) < 487.0
  {
    RydbergFormula(1, 3);
    assert InverseSquare(1) - InverseSquare(3) == 3.0 / 16.0;
  }
}
