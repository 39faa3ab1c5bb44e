/** The barn's wireframe skeleton (`buildBarnWire`): floor rectangle, wall
    verticals, wall-top rectangle, ridge, roof edges, eave rectangle with a
    0.5 ft overhang and roof-plane outline, plus four low-opacity "skin"
    diagonals. Coordinates are in feet, centred on the floor's centroid, with
    y up, x along the length and z across the width. */
module Wireframe {
  import opened Numeric
  import opened Quantities

  datatype Point3 = Point3(x: real, y: real, z: real)

  /** A segment `[a, b]` of the source, `seg[0]` and `seg[1]`. */
  datatype Segment = Segment(a: Point3, b: Point3)

  datatype Wire = Wire(
    lines: seq<Segment>,
    skins: seq<Segment>,
    h: real,
    ridgeY: real,
    overhang: real)

  const LineCount: nat := 25
  const SkinCount: nat := 4

  function BuildBarnWire(d: Dimensions): (w: Wire)
    ensures |w.lines| == LineCount && |w.skins| == SkinCount
    ensures w.overhang == Overhang && w.h == d.wallFt
  {
    var L, W, H := d.lengthFt, d.widthFt, d.wallFt;
    var pitch := d.pitchRisePer12 / 12.0;
    var overhang := 0.5;
    var halfL, halfW := L / 2.0, W / 2.0;
    var ridgeRise := (halfW + overhang) * pitch;
    // base corners
    var A, B := Point3(-halfL, 0.0, -halfW), Point3(halfL, 0.0, -halfW);
    var C, D := Point3(halfL, 0.0, halfW), Point3(-halfL, 0.0, halfW);
    // wall top corners
    var A2, B2 := Point3(-halfL, H, -halfW), Point3(halfL, H, -halfW);
    var C2, D2 := Point3(halfL, H, halfW), Point3(-halfL, H, halfW);
    // ridge line along the length, centred in the width
    var R1, R2 := Point3(-halfL, H + ridgeRise, 0.0), Point3(halfL, H + ridgeRise, 0.0);
    // eave corners with the overhang
    var eZ := halfW + overhang;
    var E1, E2 := Point3(-halfL - overhang, H, -eZ), Point3(halfL + overhang, H, -eZ);
    var E3, E4 := Point3(halfL + overhang, H, eZ), Point3(-halfL - overhang, H, eZ);
    var lines := [
      Segment(A, B), Segment(B, C), Segment(C, D), Segment(D, A),          // floor rectangle
      Segment(A, A2), Segment(B, B2), Segment(C, C2), Segment(D, D2),      // walls
      Segment(A2, B2), Segment(B2, C2), Segment(C2, D2), Segment(D2, A2),
      Segment(R1, R2),                                                     // ridge
      Segment(R1, A2), Segment(R1, D2), Segment(R2, B2), Segment(R2, C2),  // roof edges
      Segment(E1, E2), Segment(E2, E3), Segment(E3, E4), Segment(E4, E1),  // eaves rectangle
      Segment(R1, E1), Segment(R2, E2), Segment(R2, E3), Segment(R1, E4)]; // roof planes
    var skins := [Segment(E1, R2), Segment(E2, R1), Segment(E4, R2), Segment(E3, R1)];
    Wire(lines, skins, H, H + ridgeRise, overhang)
  }

  /** The fourteen named points of the skeleton. */
  datatype Corner = A | B | C | D | A2 | B2 | C2 | D2 | R1 | R2 | E1 | E2 | E3 | E4

  /** Where each named point sits, with `RoofRise` as the code's `ridgeRise`
      (barn.js:273, 276-296): floor corners at height 0, wall tops at the wall
      height, the ridge over the width's centre line at the ridge height, eave
      corners pushed out by the overhang along both plan axes. */
  function CornerPoint(d: Dimensions, c: Corner): Point3
  {
    var hx, hz, top := d.lengthFt / 2.0, d.widthFt / 2.0, d.wallFt;
    var ridge := d.wallFt + RoofRise(d);
    var ex, ez := hx + Overhang, hz + Overhang;
    match c
    case A => Point3(-hx, 0.0, -hz)
    case B => Point3(hx, 0.0, -hz)
    case C => Point3(hx, 0.0, hz)
    case D => Point3(-hx, 0.0, hz)
    case A2 => Point3(-hx, top, -hz)
    case B2 => Point3(hx, top, -hz)
    case C2 => Point3(hx, top, hz)
    case D2 => Point3(-hx, top, hz)
    case R1 => Point3(-hx, ridge, 0.0)
    case R2 => Point3(hx, ridge, 0.0)
    case E1 => Point3(-ex, top, -ez)
    case E2 => Point3(ex, top, -ez)
    case E3 => Point3(ex, top, ez)
    case E4 => Point3(-ex, top, ez)
  }

  /** The outline's topology: which named points each segment joins. */
  const Outline: seq<(Corner, Corner)> :=
    [(A, B), (B, C), (C, D), (D, A),
     (A, A2), (B, B2), (C, C2), (D, D2),
     (A2, B2), (B2, C2), (C2, D2), (D2, A2),
     (R1, R2),
     (R1, A2), (R1, D2), (R2, B2), (R2, C2),
     (E1, E2), (E2, E3), (E3, E4), (E4, E1),
     (R1, E1), (R2, E2), (R2, E3), (R1, E4)]

  const Skin: seq<(Corner, Corner)> := [(E1, R2), (E2, R1), (E4, R2), (E3, R1)]

  function Join(d: Dimensions, e: (Corner, Corner)): Segment
  {
    Segment(CornerPoint(d, e.0), CornerPoint(d, e.1))
  }

  /** The floor, wall and wall-top segments (the first twelve) join their
      named points. */
  lemma FrameTopology(d: Dimensions)
    ensures forall i :: 0 <= i < 12 ==> BuildBarnWire(d).lines[i] == Join(d, Outline[i])
  {
    var w := BuildBarnWire(d);
    forall i | 0 <= i < 12 ensures w.lines[i] == Join(d, Outline[i]) {
      if i < 4 {
      } else if i < 8 {
      } else {
      }
    }
  }

  /** The ridge and roof-edge segments join their named points. */
  lemma RidgeTopology(d: Dimensions)
    ensures forall i :: 12 <= i < 17 ==> BuildBarnWire(d).lines[i] == Join(d, Outline[i])
  {
    var w := BuildBarnWire(d);
    forall i | 12 <= i < 17 ensures w.lines[i] == Join(d, Outline[i]) {
      if i == 12 {
      } else {
      }
    }
  }

  /** The eave and roof-plane segments join their named points. */
  lemma EaveTopology(d: Dimensions)
    ensures forall i :: 17 <= i < LineCount ==> BuildBarnWire(d).lines[i] == Join(d, Outline[i])
  {
    var w := BuildBarnWire(d);
    forall i | 17 <= i < LineCount ensures w.lines[i] == Join(d, Outline[i]) {
      if i < 21 {
      } else {
      }
    }
  }

  /** Fixed topology: for every set of dimensions the wire joins the same
      named points in the same order; only the coordinates move. */
  lemma FixedTopology(d: Dimensions)
    ensures |Outline| == |BuildBarnWire(d).lines| && |Skin| == |BuildBarnWire(d).skins|
    ensures forall i :: 0 <= i < |Outline| ==> BuildBarnWire(d).lines[i] == Join(d, Outline[i])
    ensures forall i :: 0 <= i < |Skin| ==> BuildBarnWire(d).skins[i] == Join(d, Skin[i])
    ensures BuildBarnWire(d).ridgeY == CornerPoint(d, R1).y
  {
    FrameTopology(d);
    RidgeTopology(d);
    EaveTopology(d);
  }

  /** The ridge lies over the width's centre line at the wall height plus the
      rise over half the width and the overhang; each eave corner is the wall
      top corner pushed 0.5 ft outward along x and along z. */
  lemma RidgeAndEaves(d: Dimensions)
    ensures var w := BuildBarnWire(d);
      var ridge := w.lines[12];
      ridge.a.z == 0.0 && ridge.b.z == 0.0 &&
      ridge.a.y == d.wallFt + (d.widthFt / 2.0 + 0.5) * d.pitchRisePer12 / 12.0 &&
      ridge.b.y == ridge.a.y && ridge.a.y == w.ridgeY
    ensures var w := BuildBarnWire(d);
      var e1, e2, e3, e4 := w.lines[17].a, w.lines[18].a, w.lines[19].a, w.lines[20].a;
      var a2, b2, c2, d2 := w.lines[8].a, w.lines[9].a, w.lines[10].a, w.lines[11].a;
      e1 == Point3(a2.x - 0.5, a2.y, a2.z - 0.5) &&
      e2 == Point3(b2.x + 0.5, b2.y, b2.z - 0.5) &&
      e3 == Point3(c2.x + 0.5, c2.y, c2.z + 0.5) &&
      e4 == Point3(d2.x - 0.5, d2.y, d2.z + 0.5)
  {
  }

  /** Vertical drop from a segment's first end to its second. */
  function Drop(s: Segment): real
  {
    s.a.y - s.b.y
  }

  /** Offset across the width (along z) from a segment's first end to its second. */
  function Across(s: Segment): real
  {
    s.a.z - s.b.z
  }

  /** Each of the four roof-plane outlines falls from the ridge to an eave
      corner by the roof rise, across the roof run (to one side or the other). */
  lemma RoofPlaneOffsets(d: Dimensions)
    ensures forall i :: 21 <= i < LineCount ==>
      var s := BuildBarnWire(d).lines[i];
      Drop(s) == RoofRise(d) && (Across(s) == RoofRun(d) || Across(s) == -RoofRun(d))
  {
    FixedTopology(d);
  }

  /** The bill prices two roof faces as long as the wire's eave rectangle. */
  lemma RoofAreaSpansEaves(d: Dimensions, rafterLen: real)
    ensures var eaves := BuildBarnWire(d).lines[17];
      DeriveBill(d, rafterLen).roofArea == 2.0 * (rafterLen * (eaves.b.x - eaves.a.x))
  {
    var eaves := BuildBarnWire(d).lines[17];
    assert eaves.b.x - eaves.a.x == d.lengthFt + 2.0 * Overhang;
  }

  /** Squared length of a segment's cross-section in the roof's plane of
      symmetry (across the width and up). */
  function SquaredSpan(s: Segment): real
  {
    Across(s) * Across(s) + Drop(s) * Drop(s)
  }

  /** A segment that spans `run` across and `rise` down has the squared
      span of the rafter over that run and rise. */
  lemma SpanIsRafter(s: Segment, run: real, rise: real)
    requires Drop(s) == rise && (Across(s) == run || Across(s) == -run)
    ensures SquaredSpan(s) == run * run + rise * rise
  {
    SquareOfEither(Across(s), run);
  }

  /** The geometry and the bill describe the same roof: each roof-plane
      outline spans the roof's run and rise, so its squared cross-section is
      the quantity whose square root the bill takes as the rafter length. */
  lemma WireMatchesBill(d: Dimensions, rafterLen: real)
    ensures forall i :: 21 <= i < LineCount ==> SquaredSpan(BuildBarnWire(d).lines[i]) == RafterSquare(d)
    ensures IsRoot(RafterSquare(d), rafterLen) ==>
      forall i :: 21 <= i < LineCount ==>
        IsRoot(SquaredSpan(BuildBarnWire(d).lines[i]), DeriveBill(d, rafterLen).rafterLen)
  {
    var lines := BuildBarnWire(d).lines;
    RoofPlaneOffsets(d);
    forall i | 21 <= i < LineCount ensures SquaredSpan(lines[i]) == RafterSquare(d) {
      SpanIsRafter(lines[i], RoofRun(d), RoofRise(d));
    }
  }

  /** With non-negative dimensions and pitch, every point of the outline lies
      inside the box the eaves and the ridge span: within the overhang of the
      walls in plan, between the floor and the ridge in height. */
  lemma OutlineInsideEnvelope(d: Dimensions)
    requires d.lengthFt >= 0.0 && d.widthFt >= 0.0 && d.wallFt >= 0.0 && d.pitchRisePer12 >= 0.0
    ensures var w := BuildBarnWire(d);
      forall i, p :: 0 <= i < LineCount && p in {w.lines[i].a, w.lines[i].b} ==>
        -(d.lengthFt / 2.0 + Overhang) <= p.x <= d.lengthFt / 2.0 + Overhang &&
        -(d.widthFt / 2.0 + Overhang) <= p.z <= d.widthFt / 2.0 + Overhang &&
        0.0 <= p.y <= w.ridgeY
  {
    FixedTopology(d);
    var rise := RoofRise(d);
    assert rise >= 0.0 by {
      MulMonotone(RoofRun(d), 0.0, Slope(d));
    }
    forall c: Corner
      ensures var p := CornerPoint(d, c);
        -(d.lengthFt / 2.0 + Overhang) <= p.x <= d.lengthFt / 2.0 + Overhang &&
        -(d.widthFt / 2.0 + Overhang) <= p.z <= d.widthFt / 2.0 + Overhang &&
        0.0 <= p.y <= d.wallFt + rise
    {
    }
  }
}
