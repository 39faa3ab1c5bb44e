/** The bill of quantities: five barn dimensions in, framing, sheathing and
    roofing quantities out, with the estimator's fixed construction conventions
    (16" stud spacing, 24" rafter spacing, 0.5 ft roof overhang, 3x4 ft window
    openings, crude corner and opening allowances). */
module Quantities {
  import opened Numeric

  /** The user's parameters; the core accepts any reals, degenerate ones included. */
  datatype Dimensions = Dimensions(
    lengthFt: real,
    widthFt: real,
    wallFt: real,
    pitchRisePer12: real,
    windows: real)

  /** The derived, read-only snapshot returned by `deriveBill`. */
  datatype Bill = Bill(
    l: real,
    w: real,
    h: real,
    pitch: real,
    overhang: real,
    floorArea: real,
    wallAreaNet: real,
    roofArea: real,
    studs: real,
    platesLf: real,
    raftersLf: real,
    windows: real,
    rafterLen: real,
    rafterPairs: int)

  const Overhang: real := 0.5
  const StudSpacingIn: real := 16.0
  const RafterSpacingIn: real := 24.0
  const WindowOpeningSqFt: real := 12.0
  const CornerAllowance: real := 8.0

  /** Rise-per-12 converted to a slope ratio. */
  function Slope(d: Dimensions): real
  {
    d.pitchRisePer12 / 12.0
  }

  function WallPerimeter(d: Dimensions): real
  {
    2.0 * (d.lengthFt + d.widthFt)
  }

  function GrossWallArea(d: Dimensions): real
  {
    WallPerimeter(d) * d.wallFt
  }

  function WindowArea(d: Dimensions): real
  {
    d.windows * WindowOpeningSqFt
  }

  /** Gross wall area minus the window openings, floored at zero. */
  function NetWallArea(d: Dimensions): (r: real)
    ensures r >= 0.0
    ensures r >= GrossWallArea(d) - WindowArea(d)
    ensures r == 0.0 || r == GrossWallArea(d) - WindowArea(d)
  {
    Max(0.0, GrossWallArea(d) - WindowArea(d))
  }

  /** Horizontal run of one roof face: half the width plus the overhang. */
  function RoofRun(d: Dimensions): real
  {
    d.widthFt / 2.0 + Overhang
  }

  function RoofRise(d: Dimensions): real
  {
    RoofRun(d) * Slope(d)
  }

  /** The argument of the square root that gives the rafter length. */
  function RafterSquare(d: Dimensions): (r: real)
    ensures r >= 0.0
  {
    RoofRun(d) * RoofRun(d) + RoofRise(d) * RoofRise(d)
  }

  /** Studs along one wall at 16" on centre, one at each end: `n - 1` whole
      bays fit in the wall and `n` do not. */
  function StudsPerWall(wallFt: real): (n: int)
    ensures ((n - 1) as real) * StudSpacingIn <= wallFt * 12.0 < (n as real) * StudSpacingIn
  {
    (wallFt * 12.0 / StudSpacingIn).Floor + 1
  }

  /** Two long walls and two short walls, plus the corner allowance and an
      opening allowance of two studs per window and two for a door. */
  function StudCount(d: Dimensions): (r: real)
    ensures d.lengthFt >= 0.0 && d.widthFt >= 0.0 && d.windows >= 0.0 ==>
      r >= 4.0 + CornerAllowance + 2.0
  {
    var studsTotal := 2 * StudsPerWall(d.lengthFt) + 2 * StudsPerWall(d.widthFt);
    var openingAllowance := d.windows * 2.0 + 2.0;
    studsTotal as real + CornerAllowance + openingAllowance
  }

  /** Bottom plate and double top plate: three runs of the perimeter. */
  function PlatesLf(d: Dimensions): (r: real)
    ensures r >= 0.0 <==> d.lengthFt + d.widthFt >= 0.0
  {
    WallPerimeter(d) * 3.0
  }

  /** Rafter pairs at 24" on centre along the roof length (wall length plus an
      overhang at each gable end): `n - 1` whole bays fit and `n` do not. */
  function RafterPairs(d: Dimensions): (n: int)
    ensures ((n - 1) as real) * RafterSpacingIn <= (d.lengthFt + 2.0 * Overhang) * 12.0
    ensures (d.lengthFt + 2.0 * Overhang) * 12.0 < (n as real) * RafterSpacingIn
  {
    ((d.lengthFt + 2.0 * Overhang) * 12.0 / RafterSpacingIn).Floor + 1
  }

  /** Both roof faces: a rafter's length times the roof length, which is the
      wall length plus an overhang at each gable end. */
  function RoofArea(d: Dimensions, rafterLen: real): real
  {
    2.0 * (rafterLen * (d.lengthFt + 2.0 * Overhang))
  }

  /** `deriveBill`. `Math.sqrt` is outside the model: its result for
      `RafterSquare(d)` is passed in as `rafterLen`. */
  function DeriveBill(d: Dimensions, rafterLen: real): (b: Bill)
    ensures b.wallAreaNet == NetWallArea(d) && b.studs == StudCount(d)
    ensures b.rafterPairs == RafterPairs(d) && b.overhang == Overhang && b.rafterLen == rafterLen
    ensures b.roofArea == RoofArea(d, rafterLen)
  {
    var roofArea := RoofArea(d, rafterLen);
    var pairs := RafterPairs(d);
    Bill(
      l := d.lengthFt,
      w := d.widthFt,
      h := d.wallFt,
      pitch := Slope(d),
      overhang := Overhang,
      floorArea := d.lengthFt * d.widthFt,
      wallAreaNet := NetWallArea(d),
      roofArea := roofArea,
      studs := StudCount(d),
      platesLf := PlatesLf(d),
      raftersLf := pairs as real * 2.0 * rafterLen,
      windows := d.windows,
      rafterLen := rafterLen,
      rafterPairs := pairs)
  }

  /** The rafter, the square root of run squared plus rise squared, is at
      least as long as the run whenever the run is not negative. */
  lemma RafterCoversRun(d: Dimensions, rafterLen: real)
    requires IsRoot(RafterSquare(d), rafterLen) && RoofRun(d) >= 0.0
    ensures rafterLen >= RoofRun(d)
  {
    var run := RoofRun(d);
    assert IsRoot(run * run, run);
    RootMonotone(run * run, run, RafterSquare(d), rafterLen);
  }

  /** The areas of a bill over non-negative dimensions are non-negative. */
  lemma BillAreasNonNegative(d: Dimensions, rafterLen: real)
    requires d.lengthFt >= 0.0 && d.widthFt >= 0.0 && rafterLen >= 0.0
    ensures var b := DeriveBill(d, rafterLen);
      b.floorArea >= 0.0 && b.wallAreaNet >= 0.0 && b.roofArea >= 0.0
  {
    MulMonotone(d.lengthFt, 0.0, d.widthFt);
    MulMonotone(d.lengthFt + 2.0 * Overhang, 0.0, rafterLen);
  }

  /** The framing counts and lengths of a bill over non-negative dimensions
      are non-negative, with at least one rafter pair. */
  lemma BillFramingNonNegative(d: Dimensions, rafterLen: real)
    requires d.lengthFt >= 0.0 && d.widthFt >= 0.0 && d.windows >= 0.0 && rafterLen >= 0.0
    ensures var b := DeriveBill(d, rafterLen);
      b.studs >= 0.0 && b.platesLf >= 0.0 && b.raftersLf >= 0.0 && b.rafterPairs >= 1
  {
    assert StudsPerWall(d.lengthFt) >= 1 && StudsPerWall(d.widthFt) >= 1;
    var pairs := RafterPairs(d) as real * 2.0;
    MulMonotone(pairs, 0.0, rafterLen);
  }

  /** With non-negative dimensions every quantity of the bill is non-negative,
      and the rafter is at least as long as the roof's run. */
  lemma BillNonNegative(d: Dimensions, rafterLen: real)
    requires d.lengthFt >= 0.0 && d.widthFt >= 0.0 && d.wallFt >= 0.0
    requires d.pitchRisePer12 >= 0.0 && d.windows >= 0.0
    requires IsRoot(RafterSquare(d), rafterLen)
    ensures var b := DeriveBill(d, rafterLen);
      b.floorArea >= 0.0 && b.wallAreaNet >= 0.0 && b.roofArea >= 0.0 &&
      b.studs >= 0.0 && b.platesLf >= 0.0 && b.raftersLf >= 0.0 &&
      b.rafterPairs >= 1 && b.rafterLen >= RoofRun(d)
  {
    RafterCoversRun(d, rafterLen);
    BillAreasNonNegative(d, rafterLen);
    BillFramingNonNegative(d, rafterLen);
  }

  /** Each window adds exactly two studs (header and jack), whatever the
      rest of the barn. */
  lemma StudsPerWindow(d: Dimensions)
    ensures StudCount(d.(windows := d.windows + 1.0)) == StudCount(d) + 2.0
  {
  }

  /** The worked example: a 16 x 12 ft barn with 8 ft walls and two windows has
      448 sq ft of gross wall, 424 sq ft net, and 46 + 8 + 6 = 60 studs. */
  lemma StandardBarnExample(rafterLen: real)
    ensures var b := DeriveBill(Dimensions(16.0, 12.0, 8.0, 6.0, 2.0), rafterLen);
      b.floorArea == 192.0 && b.wallAreaNet == 424.0 && b.studs == 60.0 &&
      b.platesLf == 168.0 && b.rafterPairs == 9
  {
    var d := Dimensions(16.0, 12.0, 8.0, 6.0, 2.0);
    assert GrossWallArea(d) == 448.0;
    assert StudsPerWall(16.0) == 13;
    assert StudsPerWall(12.0) == 10;
  }

  /** The squared rafter length factors as run squared times (1 + slope squared). */
  lemma RafterSquareFactors(d: Dimensions)
    ensures RafterSquare(d) == (RoofRun(d) * RoofRun(d)) * (1.0 + Slope(d) * Slope(d))
  {
    var run, s := RoofRun(d), Slope(d);
    assert RoofRise(d) * RoofRise(d) == (run * run) * (s * s);
  }

  /** Over the same roof length, a longer rafter gives a larger roof. */
  lemma RoofAreaMonotone(d1: Dimensions, r1: real, d2: Dimensions, r2: real)
    requires d1.lengthFt == d2.lengthFt && d1.lengthFt + 2.0 * Overhang >= 0.0 && r1 <= r2
    ensures RoofArea(d1, r1) <= RoofArea(d2, r2)
  {
    var span := d1.lengthFt + 2.0 * Overhang;
    MulMonotone(span, r1, r2);
    var a1, a2 := r1 * span, r2 * span;
    assert 2.0 * a1 <= 2.0 * a2;
  }

  /** Rafter length, and with it the roof area, grows with the pitch. */
  lemma RafterGrowsWithPitch(d1: Dimensions, d2: Dimensions, r1: real, r2: real)
    requires d2 == d1.(pitchRisePer12 := d2.pitchRisePer12)
    requires 0.0 <= d1.pitchRisePer12 <= d2.pitchRisePer12
    requires IsRoot(RafterSquare(d1), r1) && IsRoot(RafterSquare(d2), r2)
    ensures DeriveBill(d1, r1).rafterLen <= DeriveBill(d2, r2).rafterLen
    ensures d1.lengthFt + 2.0 * Overhang >= 0.0 ==>
      DeriveBill(d1, r1).roofArea <= DeriveBill(d2, r2).roofArea
  {
    var run, s1, s2 := RoofRun(d1), Slope(d1), Slope(d2);
    assert RoofRun(d2) == run;
    SquareStrictlyMonotone(s2, s1);
    RafterSquareFactors(d1);
    RafterSquareFactors(d2);
    MulMonotone(run * run, 1.0 + s1 * s1, 1.0 + s2 * s2);
    RootMonotone(RafterSquare(d1), r1, RafterSquare(d2), r2);
    if d1.lengthFt + 2.0 * Overhang >= 0.0 {
      RoofAreaMonotone(d1, r1, d2, r2);
    }
  }

  /** Rafter length, and with it the roof area, grows with the width. */
  lemma RafterGrowsWithWidth(d1: Dimensions, d2: Dimensions, r1: real, r2: real)
    requires d2 == d1.(widthFt := d2.widthFt)
    requires -2.0 * Overhang <= d1.widthFt <= d2.widthFt
    requires IsRoot(RafterSquare(d1), r1) && IsRoot(RafterSquare(d2), r2)
    ensures DeriveBill(d1, r1).rafterLen <= DeriveBill(d2, r2).rafterLen
    ensures d1.lengthFt + 2.0 * Overhang >= 0.0 ==>
      DeriveBill(d1, r1).roofArea <= DeriveBill(d2, r2).roofArea
  {
    var s, run1, run2 := Slope(d1), RoofRun(d1), RoofRun(d2);
    assert Slope(d2) == s;
    assert 0.0 <= run1 <= run2;
    SquareStrictlyMonotone(run2, run1);
    RafterSquareFactors(d1);
    RafterSquareFactors(d2);
    MulMonotone(1.0 + s * s, run1 * run1, run2 * run2);
    assert RafterSquare(d1) <= RafterSquare(d2);
    RootMonotone(RafterSquare(d1), r1, RafterSquare(d2), r2);
    if d1.lengthFt + 2.0 * Overhang >= 0.0 {
      RoofAreaMonotone(d1, r1, d2, r2);
    }
  }
}
