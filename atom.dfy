/** The `Atom` object of the sketch: one electron on one of the shells,
    with a two-state drag machine (idle, dragging) driven by pointer
    presses and releases, and an angle that advances once per frame while
    the electron is idle.

    The host's geometry and trigonometry (`dist`, `atan2`, `cos`, `sin`)
    are not modelled; the methods receive them as function parameters, and
    the pointer position as plain coordinates. */
module Sketch {
  import opened BohrModel

  datatype Option<T> = None | Some(value: T)

  class Atom {
    /** Centre of the atom: the middle of the canvas. */
    const xPos: real
    const yPos: real
    /** Canvas height; the shell radii scale with it. */
    const height: real
    /** Angle added to the electron's angle per frame, in radians. */
    const electronSpeed: real

    var electronIndex: int
    var electronAngle: real
    var isDragging: bool

    /** The orbit index stays on a drawn shell and the angle in [0, 2 pi]. */
    ghost predicate Valid()
      reads this
    {
      height > 0.0 && electronSpeed == 0.01 &&
      0 <= electronIndex < NUM_RINGS &&
      0.0 <= electronAngle <= TWO_PI
    }

    constructor (width: real, height: real)
      requires height > 0.0
      ensures Valid()
      ensures xPos == width / 2.0 && yPos == height / 2.0 && this.height == height
      ensures electronIndex == 1 && electronAngle == 0.0 && !isDragging
    {
      xPos := width / 2.0;
      yPos := height / 2.0;
      this.height := height;
      electronIndex := 1;
      electronAngle := 0.0;
      electronSpeed := 0.01;
      isDragging := false;
    }

    /** Where the electron is drawn: under the pointer while it is dragged,
        otherwise on its shell at its angle. When the host's cos and sin
        satisfy cos^2 + sin^2 = 1 at that angle, an idle electron lies on the
        circle of its shell. */
    function ElectronPosition(mouseX: real, mouseY: real, cos: real -> real, sin: real -> real): (p: (real, real))
      requires Valid()
      reads this
      ensures isDragging ==> p == (mouseX, mouseY)
      ensures !isDragging &&
              cos(electronAngle) * cos(electronAngle) + sin(electronAngle) * sin(electronAngle) == 1.0 ==>
        var r := IndexToRadius(height, electronIndex);
        (p.0 - xPos) * (p.0 - xPos) + (p.1 - yPos) * (p.1 - yPos) == r * r
    {
      if isDragging then (mouseX, mouseY)
      else
        var r := IndexToRadius(height, electronIndex);
        var c, s := cos(electronAngle), sin(electronAngle);
        assert (c * r) * (c * r) + (s * r) * (s * r) == (c * c + s * s) * (r * r);
        (xPos + c * r, yPos + s * r)
    }

    /** Pointer press: start dragging when the pointer is on the electron. */
    method StartDrag(mouseX: real, mouseY: real, dist: (real, real, real, real) -> real,
                     cos: real -> real, sin: real -> real)
      requires Valid()
      modifies this`isDragging
      ensures Valid()
      ensures var p := old(ElectronPosition(mouseX, mouseY, cos, sin));
        isDragging == (old(isDragging) || dist(mouseX, mouseY, p.0, p.1) < ELECTRON_RADIUS)
    {
      var p := ElectronPosition(mouseX, mouseY, cos, sin);
      if dist(mouseX, mouseY, p.0, p.1) < ELECTRON_RADIUS {
        isDragging := true;
      }
    }

    /** Pointer release: if dragging, stop, move the electron to the shell
        that `RadiusToIndex` gives for the release distance (clamped to the
        drawn shells) and set its angle from the release point.
        Returns the wavelength in nanometres of the photon of the jump, if
        the orbit index changed. */
    method EndDrag(mouseX: real, mouseY: real, dist: (real, real, real, real) -> real,
                   atan2: (real, real) -> real) returns (wavelength: Option<real>)
      requires Valid()
      requires forall y, x :: -PI <= atan2(y, x) <= PI
      modifies this
      ensures Valid() && !isDragging
      ensures !old(isDragging) ==> unchanged(this) && wavelength == None
      ensures old(isDragging) ==>
        electronIndex == ClampIndex(RadiusToIndex(height, dist(mouseX, mouseY, xPos, yPos))) &&
        electronAngle == atan2(xPos - mouseY, yPos - mouseX) + PI &&
        wavelength == (if electronIndex != old(electronIndex)
                       then Some(Wavelength(old(electronIndex), electronIndex))
                       else None)
    {
      wavelength := None;
      if isDragging {
        isDragging := false;
        var d := dist(mouseX, mouseY, xPos, yPos);
        var i := ClampIndex(RadiusToIndex(height, d));
        if electronIndex != i {
          wavelength := Some(Wavelength(electronIndex, i));
        }
        electronIndex := i;
        electronAngle := atan2(xPos - mouseY, yPos - mouseX) + PI;
      }
    }

    /** Per-frame update: advance the electron's angle unless it is being
        dragged, wrapping it with the host's remainder by 2 pi. */
    method Display()
      requires Valid()
      modifies this`electronAngle
      ensures Valid()
      ensures old(isDragging) ==> electronAngle == old(electronAngle)
      ensures !old(isDragging) ==>
        electronAngle == JsRemainder(old(electronAngle) + electronSpeed, TWO_PI) &&
        0.0 <= electronAngle < TWO_PI
    {
      if !isDragging {
        electronAngle := electronAngle + electronSpeed;
        electronAngle := JsRemainder(electronAngle, TWO_PI);
      }
    }
  }

  /** Taxicab distance: on a horizontal line it is the Euclidean distance. */
  function TaxicabDistance(x1: real, y1: real, x2: real, y2: real): real
  {
    (if x1 >= x2 then x1 - x2 else x2 - x1) + (if y1 >= y2 then y1 - y2 else y2 - y1)
  }

  /** A whole interaction: on a fresh atom, press on the electron (at angle
      0 it sits on shell 1, right of the centre), drag it along the
      horizontal line and release it on the shell of index 3. The electron
      jumps from index 1 to index 3 and the jump yields one absorption
      photon of about 486 nm. */
  method DragToShellThree(width: real, height: real) returns (index: int, wavelength: Option<real>)
    requires height > 0.0
    ensures index == 3
    ensures wavelength.Some? && 486.0 < wavelength.value < 487.0
  {
    var atom := new Atom(width, height);
    var shellOne := IndexToRadius(height, 1);
    atom.StartDrag(atom.xPos + shellOne, atom.yPos, TaxicabDistance, t => 1.0, t => 0.0);
    assert atom.isDragging;
    var shellThree := IndexToRadius(height, 3);
    assert TaxicabDistance(atom.xPos + shellThree, atom.yPos, atom.xPos, atom.yPos) == shellThree;
    ReleaseOnShell(height, 3);
    wavelength := atom.EndDrag(atom.xPos + shellThree, atom.yPos, TaxicabDistance, (y: real, x: real) => 0.0);
    index := atom.electronIndex;
    BalmerBeta();
  }
}
