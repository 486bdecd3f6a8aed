/** The host's geometric objects as far as the extension touches them: a
    region request (origin, downsample, plane), path objects with a region
    of interest, a classification and measurements, and the placement step
    every client applies to decoded objects:
    `transform.translate(minX, minY); transform.scale(d, d)`, skipped when
    the transform is the identity, followed by a plane update when the
    region's plane differs from the object's. */
module Geometry {
  import opened Wrappers

  datatype Point = Point(x: real, y: real)

  /** ImagePlane: a z-slice and a time point. */
  datatype Plane = Plane(z: int, t: int)

  const DefaultPlane: Plane := Plane(0, 0)

  datatype RoiKind = PointsRoi | AreaRoi

  /** A region of interest: its kind, its vertices and its plane. */
  datatype Roi = Roi(kind: RoiKind, vertices: seq<Point>, plane: Plane)

  /** A classification: the null class, or a base name with the names of
      any derived levels below it. */
  datatype PathClass = NullClass | Named(base: string, derived: seq<string>)

  /** PathClass.getBaseClass */
  function BaseClass(c: PathClass): PathClass {
    match c
    case NullClass => NullClass
    case Named(b, _) => Named(b, [])
  }

  /** PathClass.getInstance(name) for a single-level name. */
  function ClassFromName(name: string): PathClass {
    Named(name, [])
  }

  datatype PathObject = PathObject(
    detection: bool,
    roi: Roi,
    pathClass: Option<PathClass>,
    measurements: map<string, real>)

  /** The region request a run works on: its top-left corner in full
      resolution pixels, its downsample factor and its plane (Java null
      is None). */
  datatype Region = Region(minX: int, minY: int, downsample: real, plane: Option<Plane>)

  /** The affine map translate(minX, minY) followed by scale(d, d),
      applied to a point of the returned image. */
  function Place(r: Region, p: Point): Point {
    Point(r.minX as real + r.downsample * p.x, r.minY as real + r.downsample * p.y)
  }

  /** The inverse map, defined when the downsample is not zero. */
  function Unplace(r: Region, q: Point): Point
    requires r.downsample != 0.0
  {
    Point((q.x - r.minX as real) / r.downsample, (q.y - r.minY as real) / r.downsample)
  }

  lemma PlaceRoundTrip(r: Region, p: Point, q: Point)
    requires r.downsample != 0.0
    ensures Unplace(r, Place(r, p)) == p
    ensures Place(r, Unplace(r, q)) == q
  {
    var d := r.downsample;
    calc {
      (r.minX as real + d * p.x - r.minX as real) / d;
      (d * p.x) / d;
      p.x;
    }
    calc {
      (r.minY as real + d * p.y - r.minY as real) / d;
      (d * p.y) / d;
      p.y;
    }
  }

  /** AffineTransform.isIdentity for the placement transform. */
  predicate IsIdentity(r: Region) {
    r.minX == 0 && r.minY == 0 && r.downsample == 1.0
  }

  /** The identity test the clients use is exact: it holds precisely when
      the placement map moves no point. */
  lemma IdentityExactly(r: Region)
    ensures IsIdentity(r) <==> forall p :: Place(r, p) == p
  {
    if forall p :: Place(r, p) == p {
      var o := Place(r, Point(0.0, 0.0));
      var u := Place(r, Point(1.0, 1.0));
      assert o == Point(0.0, 0.0);
      assert u == Point(1.0, 1.0);
    }
  }

  /** PathObjectTools.transformObject: every vertex goes through the map;
      kind, plane, classification and measurements are kept. */
  function TransformObject(o: PathObject, r: Region): PathObject {
    var vs := o.roi.vertices;
    o.(roi := o.roi.(vertices := seq(|vs|, i requires 0 <= i < |vs| => Place(r, vs[i]))))
  }

  /** PathObjectTools.updatePlane: the same object on another plane. */
  function UpdatePlane(o: PathObject, plane: Plane): PathObject {
    o.(roi := o.roi.(plane := plane))
  }

  /** The placement step of every client: the object lands where the map
      sends it and on the region's plane (when the region has one),
      whether or not the identity and same-plane shortcuts were taken. */
  function PlaceObject(o: PathObject, r: Region): (p: PathObject)
    ensures p.detection == o.detection && p.roi.kind == o.roi.kind
    ensures p.pathClass == o.pathClass && p.measurements == o.measurements
    ensures |p.roi.vertices| == |o.roi.vertices|
    ensures forall i :: 0 <= i < |o.roi.vertices| ==> p.roi.vertices[i] == Place(r, o.roi.vertices[i])
    ensures p.roi.plane == r.plane.GetOr(o.roi.plane)
  {
    var moved := if !IsIdentity(r) then TransformObject(o, r) else o;
    if r.plane.Some? && r.plane.value != moved.roi.plane then UpdatePlane(moved, r.plane.value) else moved
  }

  /** With the identity map and the object already on the region's plane,
      placement gives the object back unchanged. */
  lemma PlaceObjectIdentity(o: PathObject, r: Region)
    requires IsIdentity(r)
    requires r.plane.None? || r.plane.value == o.roi.plane
    ensures PlaceObject(o, r) == o
  {
    var p := PlaceObject(o, r);
    assert p.roi.vertices == o.roi.vertices;
  }

  /** Every object placed, in order. */
  function PlaceAll(objs: seq<PathObject>, r: Region): (placed: seq<PathObject>)
    ensures |placed| == |objs|
    ensures forall i :: 0 <= i < |objs| ==> placed[i] == PlaceObject(objs[i], r)
  {
    seq(|objs|, i requires 0 <= i < |objs| => PlaceObject(objs[i], r))
  }

  /** The placement loop shared by the clients: one placed object per
      decoded object, in the same order. */
  method PlaceEach(objs: seq<PathObject>, r: Region) returns (placed: seq<PathObject>)
    ensures |placed| == |objs|
    ensures forall i :: 0 <= i < |objs| ==> placed[i] == PlaceObject(objs[i], r)
    ensures placed == PlaceAll(objs, r)
  {
    placed := [];
    for i := 0 to |objs|
      invariant |placed| == i
      invariant forall k :: 0 <= k < i ==> placed[k] == PlaceObject(objs[k], r)
    {
      var o := objs[i];
      if !IsIdentity(r) {
        o := TransformObject(o, r);
      }
      if r.plane.Some? && r.plane.value != o.roi.plane {
        o := UpdatePlane(o, r.plane.value);
      }
      placed := placed + [o];
    }
  }
}
