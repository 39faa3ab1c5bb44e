/** The frame renderer (`renderBarn`): scale the wire into normalised space,
    rotate each segment by the camera's yaw and pitch, order the segments back
    to front by the mean depth of their ends, and stroke each with an opacity
    faded by depth. Canvas calls are outside the model: the frame is the
    sequence of strokes in drawing order. */
module Scene {
  import opened Numeric
  import opened Quantities
  import opened Wireframe
  import opened Projection

  /** `1 / max(10, max(L, W) * 1.05)`: the larger plan dimension, with a 5%
      margin, fits in one normalised unit, and small barns are not blown up
      beyond a 10 ft frame. */
  function Scale(d: Dimensions): (k: real)
    ensures 0.0 < k <= 0.1
    ensures k * (Max(d.lengthFt, d.widthFt) * 1.05) <= 1.0
  {
    var m := Max(10.0, Max(d.lengthFt, d.widthFt) * 1.05);
    assert (1.0 / m) * m == 1.0;
    1.0 / m
  }

  /** `clamp(1.15 - z * 0.85, 0.25, 1.0)`. */
  function Fade(z: real): (f: real)
    ensures 0.25 <= f <= 1.0
  {
    Clamp(1.15 - z * 0.85, 0.25, 1.0)
  }

  /** Deeper segments are never drawn more opaque than shallower ones. */
  lemma FadeNonIncreasing(z1: real, z2: real)
    requires z1 <= z2
    ensures Fade(z1) >= Fade(z2)
  {
  }

  /** Outline segments are drawn with opacity 0.95 and width 1.35, skin
      diagonals with opacity 0.28 and width 1. */
  const LineAlpha: real := 0.95
  const LineThick: real := 1.35
  const SkinAlpha: real := 0.28
  const SkinThick: real := 1.0

  /** `{ seg, alpha, thick }` before the depth pass. */
  datatype Styled = Styled(seg: Segment, alpha: real, thick: real)

  /** `{ ...o, a, b, z }`: a styled segment with its camera-space ends and
      their mean depth. */
  datatype DrawItem = DrawItem(seg: Segment, alpha: real, thick: real, a: Point3, b: Point3, z: real)

  function Styles(segs: seq<Segment>, alpha: real, thick: real): (r: seq<Styled>)
    ensures |r| == |segs|
    ensures forall i :: 0 <= i < |segs| ==> r[i] == Styled(segs[i], alpha, thick)
  {
    seq(|segs|, i requires 0 <= i < |segs| => Styled(segs[i], alpha, thick))
  }

  /** What the two push loops collect: every outline segment, then every skin
      diagonal when the skin overlay is on. */
  function StyledList(w: Wire, showSkin: bool): seq<Styled>
  {
    Styles(w.lines, LineAlpha, LineThick) + (if showSkin then Styles(w.skins, SkinAlpha, SkinThick) else [])
  }

  /** Scaling by `k` scales the squared length by `k * k`, and the two
      rotations keep it. */
  lemma ScaledRotationLength(p: Point3, k: real, yaw: Rot, pitch: Rot)
    ensures IsRotation(yaw) && IsRotation(pitch) ==>
      SquaredLength(RotX(RotY(Point3(p.x * k, p.y * k, p.z * k), yaw), pitch)) == k * k * SquaredLength(p)
  {
    var s := Point3(p.x * k, p.y * k, p.z * k);
    assert SquaredLength(s) == k * k * SquaredLength(p) by {
      assert (p.x * k) * (p.x * k) == k * k * (p.x * p.x);
      assert (p.y * k) * (p.y * k) == k * k * (p.y * p.y);
      assert (p.z * k) * (p.z * k) == k * k * (p.z * p.z);
    }
    if IsRotation(yaw) && IsRotation(pitch) {
      RotYKeepsLength(s, yaw);
      RotXKeepsLength(RotY(s, yaw), pitch);
    }
  }

  /** `xform(p)`: scale, then yaw about the vertical axis, then pitch. With
      real rotations the point's distance from the centroid is only scaled. */
  function Xform(p: Point3, k: real, yaw: Rot, pitch: Rot): (u: Point3)
    ensures IsRotation(yaw) && IsRotation(pitch) ==> SquaredLength(u) == k * k * SquaredLength(p)
  {
    ScaledRotationLength(p, k, yaw, pitch);
    RotX(RotY(Point3(p.x * k, p.y * k, p.z * k), yaw), pitch)
  }

  function WithDepth(o: Styled, k: real, yaw: Rot, pitch: Rot): (it: DrawItem)
    ensures it.seg == o.seg && it.alpha == o.alpha && it.thick == o.thick
    ensures it.z == (it.a.z + it.b.z) / 2.0
  {
    var a := Xform(o.seg.a, k, yaw, pitch);
    var b := Xform(o.seg.b, k, yaw, pitch);
    DrawItem(o.seg, o.alpha, o.thick, a, b, (a.z + b.z) / 2.0)
  }

  /** The items of one frame before sorting, in the order they were pushed. */
  function DepthList(d: Dimensions, showSkin: bool, yaw: Rot, pitch: Rot): (r: seq<DrawItem>)
    ensures |r| == LineCount + (if showSkin then SkinCount else 0)
  {
    var all := StyledList(BuildBarnWire(d), showSkin);
    seq(|all|, i requires 0 <= i < |all| => WithDepth(all[i], Scale(d), yaw, pitch))
  }

  /** Back to front: no item is nearer than one drawn after it. */
  predicate FarthestFirst(items: seq<DrawItem>)
  {
    forall i, j :: 0 <= i < j < |items| ==> items[i].z >= items[j].z
  }

  /** Exchanges two items of the array. */
  method Swap(a: array<DrawItem>, i: nat, j: nat)
    requires i < j < a.Length
    modifies a
    ensures a[i] == old(a[j]) && a[j] == old(a[i])
    ensures forall k :: 0 <= k < a.Length && k != i && k != j ==> a[k] == old(a[k])
    ensures multiset(a[..]) == old(multiset(a[..]))
  {
    a[i], a[j] := a[j], a[i];
  }

  /** Moves `a[i]` down into the back-to-front prefix `a[..i]`, so that
      `a[..i + 1]` is back to front; the items past `i` are not touched. */
  method InsertByDepth(a: array<DrawItem>, i: nat)
    requires i < a.Length
    requires forall k, l :: 0 <= k < l < i ==> a[k].z >= a[l].z
    modifies a
    ensures forall k, l :: 0 <= k < l <= i ==> a[k].z >= a[l].z
    ensures forall k :: i < k < a.Length ==> a[k] == old(a[k])
    ensures multiset(a[..]) == old(multiset(a[..]))
  {
    var j := i;
    while j > 0 && a[j - 1].z < a[j].z
      invariant 0 <= j <= i
      invariant forall k, l :: 0 <= k < l <= i && k != j && l != j ==> a[k].z >= a[l].z
      invariant forall l :: j < l <= i ==> a[j].z >= a[l].z
      invariant forall k :: i < k < a.Length ==> a[k] == old(a[k])
      invariant multiset(a[..]) == old(multiset(a[..]))
    {
      Swap(a, j - 1, j);
      j := j - 1;
    }
  }

  /** `.sort((p, q) => q.z - p.z)`, as an insertion sort. Stability is not
      promised by the source and not modelled. */
  method SortByDepth(a: array<DrawItem>)
    modifies a
    ensures FarthestFirst(a[..])
    ensures multiset(a[..]) == old(multiset(a[..]))
  {
    var i := 0;
    while i < a.Length
      invariant 0 <= i <= a.Length
      invariant forall k, l :: 0 <= k < l < i ==> a[k].z >= a[l].z
      invariant multiset(a[..]) == old(multiset(a[..]))
    {
      InsertByDepth(a, i);
      i := i + 1;
    }
  }

  /** The two push loops of `renderBarn`. */
  method CollectStyled(model: Wire, showSkin: bool) returns (all: seq<Styled>)
    ensures all == StyledList(model, showSkin)
  {
    all := [];
    for i := 0 to |model.lines|
      invariant all == Styles(model.lines[..i], LineAlpha, LineThick)
    {
      all := all + [Styled(model.lines[i], LineAlpha, LineThick)];
    }
    assert model.lines[..|model.lines|] == model.lines;
    if showSkin {
      ghost var outline := all;
      for i := 0 to |model.skins|
        invariant all == outline + Styles(model.skins[..i], SkinAlpha, SkinThick)
      {
        all := all + [Styled(model.skins[i], SkinAlpha, SkinThick)];
      }
      assert model.skins[..|model.skins|] == model.skins;
    }
  }

  /** Both ends of an item lie off the camera plane, so `project` is defined. */
  predicate Projectable(it: DrawItem)
  {
    it.a.z + CamDist != 0.0 && it.b.z + CamDist != 0.0
  }

  /** One `drawLine` call: the projected ends, the faded opacity, the width. */
  datatype Stroke = Stroke(from: ScreenPoint, to: ScreenPoint, alpha: real, thick: real)

  function StrokeOf(it: DrawItem, w: real, h: real): (s: Stroke)
    requires Projectable(it)
    ensures s.thick == it.thick && s.from.z == it.a.z + CamDist && s.to.z == it.b.z + CamDist
    ensures it.alpha >= 0.0 ==> 0.25 * it.alpha <= s.alpha <= it.alpha
  {
    var f := Fade(it.z);
    MulBetween(it.alpha, f, 0.25, 1.0);
    Stroke(Project(it.a, w, h), Project(it.b, w, h), it.alpha * f, it.thick)
  }

  /** The depth pass and the sort of `renderBarn`: the frame's items,
      ordered back to front. */
  method DepthSorted(d: Dimensions, showSkin: bool, yaw: Rot, pitch: Rot)
    returns (order: seq<DrawItem>)
    ensures multiset(order) == multiset(DepthList(d, showSkin, yaw, pitch))
    ensures FarthestFirst(order)
  {
    var model := BuildBarnWire(d);
    var scale := Scale(d);
    var all := CollectStyled(model, showSkin);
    var withDepth := new DrawItem[|all|](i requires 0 <= i < |all| => WithDepth(all[i], scale, yaw, pitch));
    assert withDepth[..] == DepthList(d, showSkin, yaw, pitch);
    SortByDepth(withDepth);
    order := withDepth[..];
  }

  /** The drawing loop of `renderBarn`: one stroke per item, in order. */
  method StrokeAll(order: seq<DrawItem>, w: real, h: real) returns (strokes: seq<Stroke>)
    requires forall i :: 0 <= i < |order| ==> Projectable(order[i])
    ensures |strokes| == |order|
    ensures forall i :: 0 <= i < |order| ==> strokes[i] == StrokeOf(order[i], w, h)
  {
    strokes := [];
    for i := 0 to |order|
      invariant |strokes| == i
      invariant forall k :: 0 <= k < i ==> strokes[k] == StrokeOf(order[k], w, h)
    {
      var it := order[i];
      var pa := Project(it.a, w, h);
      var pb := Project(it.b, w, h);
      var depthFade := Fade(it.z);
      strokes := strokes + [Stroke(pa, pb, it.alpha * depthFade, it.thick)];
    }
  }

  /** `renderBarn` without the canvas: the items in drawing order and the
      stroke issued for each. The source projects without a guard; the model
      requires every end to lie off the camera plane. */
  method RenderBarn(d: Dimensions, showSkin: bool, yaw: Rot, pitch: Rot, w: real, h: real)
    returns (order: seq<DrawItem>, strokes: seq<Stroke>)
    requires forall it :: it in DepthList(d, showSkin, yaw, pitch) ==> Projectable(it)
    ensures |order| == LineCount + (if showSkin then SkinCount else 0)
    ensures multiset(order) == multiset(DepthList(d, showSkin, yaw, pitch))
    ensures FarthestFirst(order)
    ensures |strokes| == |order|
    ensures forall i :: 0 <= i < |order| ==> Projectable(order[i]) && strokes[i] == StrokeOf(order[i], w, h)
  {
    order := DepthSorted(d, showSkin, yaw, pitch);
    ghost var pushed := DepthList(d, showSkin, yaw, pitch);
    assert |order| == |multiset(order)| == |multiset(pushed)| == |pushed|;
    forall i | 0 <= i < |order| ensures Projectable(order[i]) {
      assert order[i] in multiset(order);
      assert order[i] in multiset(pushed);
    }
    strokes := StrokeAll(order, w, h);
  }

  /** Drawn back to front with this fade, every stroke is at least as opaque
      (before its style's base opacity) as every stroke drawn before it. */
  lemma FadeRisesAlongDrawOrder(order: seq<DrawItem>)
    requires FarthestFirst(order)
    ensures forall i, j :: 0 <= i < j < |order| ==> Fade(order[i].z) <= Fade(order[j].z)
  {
    forall i, j | 0 <= i < j < |order| ensures Fade(order[i].z) <= Fade(order[j].z) {
      FadeNonIncreasing(order[j].z, order[i].z);
    }
  }

  /** Every stroke of a frame has an opacity within its style's band: outline
      strokes between 0.2375 and 0.95, skin strokes between 0.07 and 0.28. */
  lemma FrameOpacityBands(d: Dimensions, showSkin: bool, yaw: Rot, pitch: Rot)
    ensures forall it :: it in DepthList(d, showSkin, yaw, pitch) ==>
      (it.alpha == LineAlpha || (showSkin && it.alpha == SkinAlpha)) &&
      (it.alpha == LineAlpha ==> 0.2375 <= it.alpha * Fade(it.z) <= 0.95) &&
      (it.alpha == SkinAlpha ==> 0.07 <= it.alpha * Fade(it.z) <= 0.28)
  {
    var items := DepthList(d, showSkin, yaw, pitch);
    var all := StyledList(BuildBarnWire(d), showSkin);
    forall it | it in items
      ensures it.alpha == LineAlpha || (showSkin && it.alpha == SkinAlpha)
      ensures it.alpha == LineAlpha ==> 0.2375 <= it.alpha * Fade(it.z) <= 0.95
      ensures it.alpha == SkinAlpha ==> 0.07 <= it.alpha * Fade(it.z) <= 0.28
    {
      var i :| 0 <= i < |items| && items[i] == it;
      assert it.alpha == all[i].alpha;
      MulBetween(it.alpha, Fade(it.z), 0.25, 1.0);
    }
  }
}
