# Bohr atom sketch — Dafny model

This project models the `Atom` object of a p5.js sketch that draws a
simplified Bohr atom: five concentric shells around a nucleus and one
electron that circles on its shell. The user can press on the electron,
drag it and release it over another shell. The electron then jumps to the
shell given by rounding 0.99 times the fractional shell index of the
release distance, clamped to the drawn shells (the nearest shell, except
just past a midpoint between two shells), and the sketch computes the wavelength of the photon
of that jump from the hydrogen-like level energies E_n = -h c R / n^2.

Two modules:

- `BohrModel` (`bohr_model.dfy`) holds the closed-form part:
  - the shell radius of an orbit index, and its rounding inverse;
  - the level energy and the wavelength of a jump;
  - the host's `round` (half up) and `%` (remainder of truncated division);
  - the min/max clamp of the orbit index.

  All arithmetic is exact real arithmetic.
- `Sketch` (`atom.dfy`) holds the class `Atom`. Its fields are the orbit index,
  the angle and the drag flag. These change in place through `StartDrag`,
  `EndDrag` and the per-frame angle advance of `Display`. Together these form
  a two-state machine: idle and dragging.

The host functions `dist`, `atan2`, `cos` and `sin` become function parameters
of the methods. The pointer position becomes plain coordinates. The canvas
size becomes the constructor's parameters. `EndDrag` returns the wavelength,
in nanometres, of the jump it caused. The source prints it instead.

## Model

| member | source | states |
|---|---|---|
| `BohrModel.Round` | sketch.js:70 | `round` gives the integer nearest to x, halves rounded up: r - 1/2 <= x < r + 1/2 |
| `BohrModel.Trunc` | sketch.js:96 | the truncating quotient inside `%`: the floor for x >= 0 and the ceiling for x < 0, that is, rounding toward zero |
| `BohrModel.JsRemainder` | sketch.js:96 | `%` by a positive modulus differs from the dividend by a whole multiple of m and lies in [0, m) for a dividend >= 0 and in (-m, 0] for a negative one; a dividend already in [0, m) is left unchanged |
| `BohrModel.ClampIndex` | sketch.js:58 | the min/max clamp always yields an index in [0, NUM_RINGS - 1], leaves an in-range index alone, and maps values below to 0 and above to NUM_RINGS - 1 |
| `BohrModel.IndexToRadius` | sketch.js:65-67 | every shell radius lies beyond the 50-pixel base |
| `BohrModel.IndexToRadiusIncreasing` | sketch.js:65-67 | outer shells have strictly larger radii |
| `BohrModel.ShellPositionInvertsRadius` | sketch.js:65-67 | the fractional shell index of the radius of shell i is exactly i |
| `BohrModel.RadiusToIndex` | sketch.js:69-71 | the index is 0.99 times the fractional shell index of the radius, rounded half up; `RadiusIndexRoundTrip` and `RadiusToIndexMonotone` state what this means for drawn shells |
| `BohrModel.ReleasePastMidpointRoundsDown` | sketch.js:65-71 | the rounding is not to the nearest shell: on a canvas of height 1000, radius 321 is nearer shell 4 (350) than shell 3 (290) yet maps to index 3 |
| `BohrModel.RadiusToIndexMonotone` | sketch.js:69-71 | a larger release radius never maps to a smaller orbit index |
| `BohrModel.RadiusIndexRoundTrip` | sketch.js:65-71 | `radiusToIndex(indexToRadius(i)) == i` for every canvas height > 0 and every index 0 <= i <= 50 (the composition is round(0.99 i)) |
| `BohrModel.ReleaseOnShell` | sketch.js:57-71 | releasing exactly on drawn shell i makes the release compute index i |
| `BohrModel.IndexToEnergy` | sketch.js:79-82 | every level energy is strictly negative |
| `BohrModel.EnergyStrictlyIncreasing` | sketch.js:79-82 | the level energy strictly increases with the index |
| `BohrModel.EnergyDifferenceSign` | sketch.js:84-85 | the energy difference of a jump is positive exactly for an upward jump and negative exactly for a downward one, so it is non-zero whenever the index changes and both divisions of `jumpOrbit` are defined |
| `BohrModel.Wavelength` | sketch.js:84-90 | the wavelength of a jump is positive for an upward jump (absorption) and negative for a downward one (emission) |
| `BohrModel.WavelengthAntisymmetric` | sketch.js:84-89 | swapping the two indices negates the wavelength exactly |
| `BohrModel.RydbergFormula` | sketch.js:84-89 | the wavelength satisfies the Rydberg formula: lambda · R · (1/n_old^2 - 1/n_new^2) = 1e9 (lambda in nm) |
| `BohrModel.BalmerBeta` | sketch.js:44 | the jump 1 -> 3 that the constructor computes is an absorption of between 486 and 487 nm |
| `Sketch.Atom.constructor` | sketch.js:31-45 | the atom starts centred on the canvas, idle, on index 1 at angle 0, with the object invariant established |
| `Sketch.Atom.ElectronPosition` | sketch.js:73-77 | a dragged electron is under the pointer; an idle one lies on the circle of its shell (squared distance from the centre equals the squared shell radius) whenever the host's cos and sin satisfy cos^2 + sin^2 = 1 at its angle |
| `Sketch.Atom.StartDrag` | sketch.js:47-52 | dragging starts exactly when the pointer-to-electron distance is below ELECTRON_RADIUS; otherwise the drag flag keeps its value; no other field changes |
| `Sketch.Atom.EndDrag` | sketch.js:54-63 | when not dragging, nothing changes and no wavelength is produced. When dragging, the flag clears and the index becomes the clamped `radiusToIndex` of the release distance, so it lies in [0, NUM_RINGS - 1]. The angle becomes `atan2(xPos - mouseY, yPos - mouseX) + PI`. A wavelength is produced exactly when the index changed, and it is the jump's wavelength. The invariant is kept |
| `Sketch.Atom.Display` | sketch.js:93-97 | while dragging, the angle is untouched. Otherwise it becomes (angle + electronSpeed) % TWO_PI and lies in [0, 2 pi) |
| `Sketch.DragToShellThree` | sketch.js:47-63 | with one distance function throughout: press on the electron of a fresh atom where it sits on shell 1, drag it along the horizontal line and release it on the shell of index 3; the electron ends on index 3, and exactly one wavelength is produced, an absorption between 486 and 487 nm |

## Left out

- Rendering and host entry points are not modelled: `setup`, `draw`, `mousePressed`, `mouseReleased`, canvas creation, `background`, `fill`, `circle`, and the drawing part of `display` (sketch.js:98-108).
- The `print` in `jumpOrbit` (sketch.js:90) is not modelled. `Wavelength` returns the value in nanometres, and `EndDrag` passes it back to its caller.
- The constructor's diagnostic call `jumpOrbit(1, 3)` (sketch.js:44) only prints. The constructor does not model it. `BalmerBeta` states its value.
- The unused `orbits` array (sketch.js:35) is not modelled.
- `dist`, `atan2`, `cos` and `sin` are parameters, not real geometry. `EndDrag` relies on only one fact about `atan2`: its range is [-PI, PI]. Its unusual argument order is kept exactly as written.
- Floating point is not modelled. The constants h, c and R, `Math.pow` and every division are exact reals. PI and TWO_PI are the shortest decimals of the host's doubles, so 2 · PI = TWO_PI holds exactly, as it does for the doubles.
- A canvas of height 0 is not modelled. The constructor requires height > 0; the source would divide by zero in `radiusToIndex`.
- The photon pool, photon motion and the wavelength-to-colour table do not exist in this sketch. They are not part of this model.
- `indexToRadius` uses the factor 0.3 and `radiusToIndex` uses 0.33, so the two are not exact inverses: `radiusToIndex` rounds 0.99 times the fractional shell index. The release angle is `atan2(xPos - mouseY, yPos - mouseX) + PI`. The model keeps both as written.
