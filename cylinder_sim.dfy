/** Screen 5, the cylinder simulator (class CylinderSimScreen in
    scripts/screen5.js): two sliders set the radius and the height, the
    screen shows the curved and total surface areas, the volume and the
    capacity in litres, draws the cylinder and its unwrapped side, and three
    buttons toggle the label, the water fill and the end caps. The drawing
    is reduced to the numbers and flags it is made from. */
module CylinderSim {
  import opened Util

  const InitialRadius: real := 4.0
  const InitialHeight: real := 10.0
  /** Pixels per centimetre in the drawing. */
  const Scale: real := 10.0
  /** The fill level, in percent, shown while "fill" is on. */
  const FillLevel: real := 70.0

  /** Curved surface area 2πrh. */
  function Csa(r: real, h: real): (a: real)
    ensures r >= 0.0 && h >= 0.0 ==> a >= 0.0
  {
    2.0 * Pi * r * h
  }

  /** Total surface area: the side plus two end discs. */
  function Tsa(r: real, h: real): (a: real)
    ensures r >= 0.0 && h >= 0.0 ==> a >= Csa(r, h)
  {
    2.0 * Pi * r * h + 2.0 * Pi * r * r
  }

  /** Volume πr²h. */
  function Volume(r: real, h: real): (v: real)
    ensures r >= 0.0 && h >= 0.0 ==> v >= 0.0
  {
    Pi * r * r * h
  }

  /** Capacity in litres: 1000 cm³ to the litre. */
  function Litres(vol: real): (l: real)
    ensures l * 1000.0 == vol
  {
    vol / 1000.0
  }

  /** The total exceeds the curved area by exactly the two end discs. */
  lemma TsaIsCsaPlusEnds(r: real, h: real)
    ensures Tsa(r, h) - Csa(r, h) == 2.0 * Pi * r * r
  {
  }

  /** Sizes, in pixels, of the cylinder drawing and of the unwrapped side. */
  function CylWidth(r: real): real { 20.0 + r * Scale }
  function CylHeight(h: real): real { 40.0 + h * Scale }
  function UnwrapWidth(r: real): real { 2.0 * Pi * r * Scale }
  function UnwrapHeight(h: real): real { h * Scale }

  /** The unwrapped side is the curved surface drawn at 10 pixels per
      centimetre: its area is 100 times the curved surface area, and its
      width is the circumference. */
  lemma UnwrapIsCurvedSurface(r: real, h: real)
    ensures UnwrapWidth(r) * UnwrapHeight(h) == Scale * Scale * Csa(r, h)
    ensures UnwrapWidth(r) == Scale * (2.0 * Pi * r)
  {
  }

  /** The screen's nudge, "double r while keeping h": the curved area
      doubles while the volume quadruples; doubling h doubles both. */
  lemma DoublingRadius(r: real, h: real)
    ensures Csa(2.0 * r, h) == 2.0 * Csa(r, h)
    ensures Volume(2.0 * r, h) == 4.0 * Volume(r, h)
    ensures Csa(r, 2.0 * h) == 2.0 * Csa(r, h)
    ensures Volume(r, 2.0 * h) == 2.0 * Volume(r, h)
  {
  }

  /** The figures the result panel shows. */
  datatype Readout = Readout(csa: real, tsa: real, volume: real, litres: real)

  function ReadoutFor(r: real, h: real): (o: Readout)
    ensures o.tsa - o.csa == 2.0 * Pi * r * r
    ensures o.litres * 1000.0 == o.volume
  {
    Readout(Csa(r, h), Tsa(r, h), Volume(r, h), Litres(Volume(r, h)))
  }

  /** The fill height in percent for the "fill" flag. */
  function FillPercent(fillWater: bool): (p: real)
    ensures p == 0.0 <==> !fillWater
  {
    if fillWater then FillLevel else 0.0
  }

  class CylinderSimScreen {
    var radius: real
    var height: real
    var showTopBottom: bool
    var showLabel: bool
    var fillWater: bool
    /** What is on screen. */
    var readout: Readout
    var cylWidth: real
    var cylHeight: real
    var unwrapWidth: real
    var unwrapHeight: real
    var topShown: bool
    var bottomShown: bool
    var fillHeight: real
    var unwrapShown: bool

    /** Everything on screen agrees with the current radius, height and
        flags. */
    predicate Valid()
      reads this
    {
      readout == ReadoutFor(radius, height) &&
      cylWidth == CylWidth(radius) && cylHeight == CylHeight(height) &&
      unwrapWidth == UnwrapWidth(radius) && unwrapHeight == UnwrapHeight(height) &&
      topShown == showTopBottom && bottomShown == showTopBottom &&
      fillHeight == FillPercent(fillWater) &&
      unwrapShown == showLabel
    }

    /** r = 4, h = 10, ends shown, label hidden, no water; then the first
        render. */
    constructor ()
      ensures Valid()
      ensures radius == InitialRadius && height == InitialHeight
      ensures showTopBottom && !showLabel && !fillWater
    {
      radius := 4.0;
      height := 10.0;
      showTopBottom := true;
      showLabel := false;
      fillWater := false;
      new;
      UpdateAll();
    }

    /** updateEnds: both end caps follow the "ends" flag. */
    method UpdateEnds()
      modifies this`topShown, this`bottomShown
      ensures topShown == showTopBottom && bottomShown == showTopBottom
    {
      topShown := showTopBottom;
      bottomShown := showTopBottom;
    }

    /** updateFill: empty without water, 70% with. */
    method UpdateFill()
      modifies this`fillHeight
      ensures fillHeight == FillPercent(fillWater)
    {
      if !fillWater {
        fillHeight := 0.0;
        return;
      }
      fillHeight := FillLevel;
    }

    method UpdateUnwrap()
      modifies this`unwrapShown
      ensures unwrapShown == showLabel
    {
      unwrapShown := showLabel;
    }

    /** updateAll: recomputes every figure and redraws. */
    method UpdateAll()
      modifies this`readout, this`cylWidth, this`cylHeight, this`unwrapWidth, this`unwrapHeight,
        this`topShown, this`bottomShown, this`fillHeight, this`unwrapShown
      ensures Valid()
    {
      var r := radius;
      var h := height;
      var csa := 2.0 * Pi * r * h;
      var tsa := 2.0 * Pi * r * h + 2.0 * Pi * r * r;
      var vol := Pi * r * r * h;
      var liters := vol / 1000.0;
      readout := Readout(csa, tsa, vol, liters);
      cylWidth := 20.0 + r * 10.0;
      cylHeight := 40.0 + h * 10.0;
      unwrapWidth := 2.0 * Pi * r * 10.0;
      unwrapHeight := h * 10.0;
      UpdateEnds();
      UpdateFill();
      UpdateUnwrap();
    }

    /** The radius slider. */
    method SetRadius(r: real)
      modifies this
      ensures Valid()
      ensures radius == r && height == old(height)
      ensures showTopBottom == old(showTopBottom) && showLabel == old(showLabel) && fillWater == old(fillWater)
    {
      radius := r;
      UpdateAll();
    }

    /** The height slider. */
    method SetHeight(h: real)
      modifies this
      ensures Valid()
      ensures height == h && radius == old(radius)
      ensures showTopBottom == old(showTopBottom) && showLabel == old(showLabel) && fillWater == old(fillWater)
    {
      height := h;
      UpdateAll();
    }

    /** The label button flips the label flag and nothing else. */
    method ToggleLabel()
      requires Valid()
      modifies this`showLabel, this`unwrapShown
      ensures Valid()
      ensures showLabel == !old(showLabel)
      ensures showTopBottom == old(showTopBottom) && fillWater == old(fillWater)
    {
      showLabel := !showLabel;
      UpdateUnwrap();
    }

    /** The fill button flips the water flag and nothing else. */
    method ToggleFill()
      requires Valid()
      modifies this`fillWater, this`fillHeight
      ensures Valid()
      ensures fillWater == !old(fillWater)
      ensures showTopBottom == old(showTopBottom) && showLabel == old(showLabel)
    {
      fillWater := !fillWater;
      UpdateFill();
    }

    /** The ends button flips the end-cap flag and nothing else. */
    method ToggleTopBottom()
      requires Valid()
      modifies this`showTopBottom, this`topShown, this`bottomShown
      ensures Valid()
      ensures showTopBottom == !old(showTopBottom)
      ensures showLabel == old(showLabel) && fillWater == old(fillWater)
    {
      showTopBottom := !showTopBottom;
      UpdateEnds();
    }
  }

  /** Pressing each toggle twice, on any screen whose display agrees with
      its state, restores every field: the flags, the figures and what is
      shown. */
  method ToggleTwiceRestores(sim: CylinderSimScreen)
    requires sim.Valid()
    modifies sim
    ensures sim.Valid()
    ensures sim.radius == old(sim.radius) && sim.height == old(sim.height)
    ensures sim.showTopBottom == old(sim.showTopBottom) && sim.showLabel == old(sim.showLabel) && sim.fillWater == old(sim.fillWater)
    ensures sim.readout == old(sim.readout)
    ensures sim.cylWidth == old(sim.cylWidth) && sim.cylHeight == old(sim.cylHeight)
    ensures sim.unwrapWidth == old(sim.unwrapWidth) && sim.unwrapHeight == old(sim.unwrapHeight)
    ensures sim.topShown == old(sim.topShown) && sim.bottomShown == old(sim.bottomShown)
    ensures sim.fillHeight == old(sim.fillHeight) && sim.unwrapShown == old(sim.unwrapShown)
  {
    sim.ToggleFill();
    sim.ToggleFill();
    sim.ToggleTopBottom();
    sim.ToggleTopBottom();
    sim.ToggleLabel();
    sim.ToggleLabel();
  }
}
