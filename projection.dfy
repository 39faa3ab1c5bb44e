/** The projector: rotation of a model point about the vertical axis (yaw)
    and the horizontal axis (pitch), then a fixed-distance perspective
    projection to pixel coordinates that keeps the depth. Cosine and sine are
    outside the model: a rotation is given by its (cos, sin) pair. */
module Projection {
  import opened Wireframe

  /** The cosine and sine of a rotation angle. */
  datatype Rot = Rot(c: real, s: real)

  /** A (cos, sin) pair of a real angle lies on the unit circle. */
  predicate IsRotation(r: Rot)
  {
    r.c * r.c + r.s * r.s == 1.0
  }

  /** The rotation by the opposite angle. */
  function Inverse(r: Rot): Rot
  {
    Rot(r.c, -r.s)
  }

  /** `rotY(v, a)`: rotation about the vertical axis. */
  function RotY(v: Point3, r: Rot): (u: Point3)
    ensures u.y == v.y
  {
    Point3(v.x * r.c + v.z * r.s, v.y, -v.x * r.s + v.z * r.c)
  }

  /** `rotX(v, a)`: rotation about the horizontal (x) axis. */
  function RotX(v: Point3, r: Rot): (u: Point3)
    ensures u.x == v.x
  {
    Point3(v.x, v.y * r.c - v.z * r.s, v.y * r.s + v.z * r.c)
  }

  function SquaredLength(v: Point3): real
  {
    v.x * v.x + v.y * v.y + v.z * v.z
  }

  /** Turning back by the same angle undoes a yaw rotation. */
  lemma RotYInverse(v: Point3, r: Rot)
    requires IsRotation(r)
    ensures RotY(RotY(v, r), Inverse(r)) == v
  {
    var c, s := r.c, r.s;
    var u := RotY(v, r);
    assert u.x * c - u.z * s == v.x * (c * c + s * s);
    assert u.x * s + u.z * c == v.z * (c * c + s * s);
  }

  /** Turning back by the same angle undoes a pitch rotation. */
  lemma RotXInverse(v: Point3, r: Rot)
    requires IsRotation(r)
    ensures RotX(RotX(v, r), Inverse(r)) == v
  {
    var c, s := r.c, r.s;
    var u := RotX(v, r);
    assert u.y * c + u.z * s == v.y * (c * c + s * s);
    assert -u.y * s + u.z * c == v.z * (c * c + s * s);
  }

  /** A yaw rotation is rigid: it keeps a point's distance from the origin. */
  lemma RotYKeepsLength(v: Point3, r: Rot)
    requires IsRotation(r)
    ensures SquaredLength(RotY(v, r)) == SquaredLength(v)
  {
    var u := RotY(v, r);
    assert u.x * u.x + u.z * u.z == (v.x * v.x + v.z * v.z) * (r.c * r.c + r.s * r.s);
  }

  /** A pitch rotation is rigid: it keeps a point's distance from the origin. */
  lemma RotXKeepsLength(v: Point3, r: Rot)
    requires IsRotation(r)
    ensures SquaredLength(RotX(v, r)) == SquaredLength(v)
  {
    var t := RotX(v, r);
    assert t.y * t.y + t.z * t.z == (v.y * v.y + v.z * v.z) * (r.c * r.c + r.s * r.s);
  }

  const CamDist: real := 5.2
  const Focal: real := 1.35
  const Horizon: real := 0.58

  /** A projected point in pixels, with the camera-space depth kept. */
  datatype ScreenPoint = ScreenPoint(x: real, y: real, z: real)

  /** `project(v, w, h)`. The source divides by `v.z + 5.2` unguarded; the
      model requires the divisor to be non-zero. */
  function Project(v: Point3, w: real, h: real): (p: ScreenPoint)
    requires v.z + CamDist != 0.0
    ensures p.z == v.z + CamDist
    ensures v.x == 0.0 ==> p.x == w * 0.5
    ensures v.y == 0.0 ==> p.y == h * Horizon
  {
    var z := v.z + CamDist;
    var f := Focal / z;
    ScreenPoint(w * 0.5 + v.x * w * f, h * Horizon - v.y * w * f, z)
  }

  /** Recovers the camera-space point from its projection and kept depth. */
  function Unproject(p: ScreenPoint, w: real, h: real): Point3
    requires p.z != 0.0 && w != 0.0
  {
    Point3((p.x - w * 0.5) * p.z / (w * Focal), (h * Horizon - p.y) * p.z / (w * Focal), p.z - CamDist)
  }

  /** On a canvas of non-zero width the projection loses nothing: the kept
      depth makes it invertible. */
  lemma ProjectRoundTrip(v: Point3, w: real, h: real)
    requires v.z + CamDist != 0.0 && w != 0.0
    ensures Unproject(Project(v, w, h), w, h) == v
  {
    var z := v.z + CamDist;
    var f := Focal / z;
    assert f * z == Focal;
    var p := Project(v, w, h);
    assert (p.x - w * 0.5) * z == v.x * w * (f * z);
    assert (h * Horizon - p.y) * z == v.y * w * (f * z);
  }
}
