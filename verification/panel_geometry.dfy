// The mesh of one panel: front outline with corner notches, band quads,
// back face and drill holes (xmllitereader/XmlLiteReader.cpp, _add_drill,
// _corner_operation and _create_detail_component).

module PanelGeometry {
  import opened Common
  import opened ViyarTypes

  /** SUPoint3D and SUVector3D. */
  datatype Point3 = Point3(x: real, y: real, z: real)
  datatype Vector3 = Vector3(x: real, y: real, z: real)

  /**
   * What the builder hands the modelling API. A face's material is a
   * 1-based material id, 0 for none; an instance is placed by its translation.
   */
  datatype Entity =
    | Face(vertices: seq<Point3>, material: int)
    | ArcCurve(center: Point3, start: Point3, end: Point3, normal: Vector3, segments: nat)
    | Edge(from: Point3, to: Point3)
    | Instance(x: real, y: real, z: real)

  /** An entities collection of the modelling API: it only ever grows. */
  class Sink {
    var entities: seq<Entity>

    constructor ()
      ensures entities == []
    {
      entities := [];
    }

    method Add(e: Entity)
      modifies this
      ensures entities == old(entities) + [e]
    {
      entities := entities + [e];
    }
  }

  function ToInches(p: Point3): Point3 {
    Point3(MmToInch(p.x), MmToInch(p.y), MmToInch(p.z))
  }

  /** The point moved `t` along `n`. */
  function Offset(p: Point3, n: Vector3, t: real): Point3 {
    Point3(p.x + n.x * t, p.y + n.y * t, p.z + n.z * t)
  }

  // ---------------------------------------------------------------------
  // Corner operations
  // ---------------------------------------------------------------------

  /** The notch sizes and the band tags of its two runs after edge covering. */
  datatype CornerClip = CornerClip(x: real, y: real, materialH: int, materialV: int)

  /** The edge material covers the horizontal run of the notch. */
  predicate CoversH(cop: Operation) {
    cop.edgeMaterial > 0 && (cop.edgeCovering == EdgeCoverBoth || cop.edgeCovering == EdgeCoverH)
  }

  /** The edge material covers the vertical run of the notch. */
  predicate CoversV(cop: Operation) {
    cop.edgeMaterial > 0 && (cop.edgeCovering == EdgeCoverBoth || cop.edgeCovering == EdgeCoverV)
  }

  /**
   * The head of _corner_operation: a covered run is tagged with the edge
   * material, and the material's thickness is taken off the notch size
   * across it; an uncovered run keeps the sheet's tag 1.
   */
  function Clip(cop: Operation, materials: seq<MaterialDef>): (c: CornerClip)
    ensures var t := MaterialThickness(materials, cop.edgeMaterial);
      && c.x == cop.x - (if CoversV(cop) then t else 0.0)
      && c.y == cop.y - (if CoversH(cop) then t else 0.0)
      && c.materialH == (if CoversH(cop) then cop.edgeMaterial else 1)
      && c.materialV == (if CoversV(cop) then cop.edgeMaterial else 1)
    ensures cop.edgeMaterial <= 0 ==> c == CornerClip(cop.x, cop.y, 1, 1)
  {
    if cop.edgeMaterial > 0 then
      var t := MaterialThickness(materials, cop.edgeMaterial);
      if cop.edgeCovering == EdgeCoverBoth then
        CornerClip(cop.x - t, cop.y - t, cop.edgeMaterial, cop.edgeMaterial)
      else if cop.edgeCovering == EdgeCoverH then CornerClip(cop.x, cop.y - t, cop.edgeMaterial, 1)
      else if cop.edgeCovering == EdgeCoverV then CornerClip(cop.x - t, cop.y, 1, cop.edgeMaterial)
      else CornerClip(cop.x, cop.y, 1, 1)
    else CornerClip(cop.x, cop.y, 1, 1)
  }

  /**
   * Outline vertices with, for each, the band tag of the edge that starts
   * there: the `sheet_points` and `band_materials` arrays.
   */
  datatype Outline = Outline(points: seq<Point3>, bands: seq<int>)

  function Join(a: Outline, b: Outline): Outline {
    Outline(a.points + b.points, a.bands + b.bands)
  }

  /**
   * The vertices _corner_operation puts in place of corner `p`: the corner
   * moved along its first run, the inner notch vertex (subtype 3 only), and
   * the corner moved along its second run. The upper-left corner moves its
   * last vertex by twice the notch width, as XmlLiteReader.cpp does.
   */
  function CornerVertices(p: Point3, cn: int, subtype: int, c: CornerClip): (o: Outline)
    requires 0 <= cn < CornerMax
    ensures |o.points| == |o.bands| == if subtype == 3 then 3 else 2
    ensures forall q <- o.points :: q.z == p.z
  {
    var notch := subtype == 3;
    if cn == CornerLowerLeft then
      var p0 := p.(x := p.x + c.x);
      var last := p.(y := p.y + c.y);
      if notch then Outline([p0, p0.(y := p0.y + c.y), last], [c.materialH, c.materialV, c.materialV])
      else Outline([p0, last], [c.materialH, c.materialV])
    else if cn == CornerUpperLeft then
      var p0 := p.(y := p.y - c.y);
      var last := p.(x := p.x + c.x + c.x);
      if notch then Outline([p0, p0.(x := p0.x + c.x), last], [c.materialV, c.materialH, c.materialH])
      else Outline([p0, last], [c.materialV, c.materialH])
    else if cn == CornerUpperRight then
      var p0 := p.(x := p.x - c.x);
      var last := p.(y := p.y - c.y);
      if notch then Outline([p0, p0.(y := p0.y - c.y), last], [c.materialH, c.materialV, c.materialV])
      else Outline([p0, last], [c.materialH, c.materialV])
    else
      var p0 := p.(y := p.y + c.y);
      var last := p.(x := p.x - c.x);
      if notch then Outline([p0, p0.(x := p0.x - c.x), last], [c.materialV, c.materialH, c.materialH])
      else Outline([p0, last], [c.materialV, c.materialH])
  }

  /** _corner_operation on the current last vertex `p` (tag `tag`): unchanged without an operation. */
  function CornerOpOutline(p: Point3, tag: int, cn: int, cop: Option<Operation>,
                           materials: seq<MaterialDef>): (o: Outline)
    requires 0 <= cn < CornerMax
    ensures cop.None? ==> o == Outline([p], [tag])
    ensures 1 <= |o.points| == |o.bands| <= 3
  {
    match cop
    case None => Outline([p], [tag])
    case Some(op) => CornerVertices(p, cn, op.subtype, Clip(op, materials))
  }

  /** The notch a registered (subtype 3) operation cuts, corner by corner, in millimetres. */
  lemma CornerNotchVertices(w: real, h: real, z: real, c: CornerClip)
    ensures CornerVertices(Point3(0.0, 0.0, z), CornerLowerLeft, 3, c).points ==
      [Point3(c.x, 0.0, z), Point3(c.x, c.y, z), Point3(0.0, c.y, z)]
    ensures CornerVertices(Point3(0.0, h, z), CornerUpperLeft, 3, c).points ==
      [Point3(0.0, h - c.y, z), Point3(c.x, h - c.y, z), Point3(2.0 * c.x, h, z)]
    ensures CornerVertices(Point3(w, h, z), CornerUpperRight, 3, c).points ==
      [Point3(w - c.x, h, z), Point3(w - c.x, h - c.y, z), Point3(w, h - c.y, z)]
    ensures CornerVertices(Point3(w, 0.0, z), CornerLowerRight, 3, c).points ==
      [Point3(w, c.y, z), Point3(w - c.x, c.y, z), Point3(w - c.x, 0.0, z)]
  {
  }

  /**
   * Three of the notches close with an edge parallel to an axis; the
   * upper-left one, because of its doubled width, does so only when the
   * notch width or the notch height is 0.
   */
  lemma UpperLeftNotchSkewed(p: Point3, c: CornerClip)
    ensures var o := CornerVertices(p, CornerUpperLeft, 3, c).points;
      o[1].x == o[2].x <==> c.x == 0.0
    ensures var o := CornerVertices(p, CornerUpperLeft, 3, c).points;
      o[1].y == o[2].y <==> c.y == 0.0
    ensures var o := CornerVertices(p, CornerLowerLeft, 3, c).points; o[1].y == o[2].y
    ensures var o := CornerVertices(p, CornerUpperRight, 3, c).points; o[1].y == o[2].y
    ensures var o := CornerVertices(p, CornerLowerRight, 3, c).points; o[1].x == o[2].x
  {
  }

  // ---------------------------------------------------------------------
  // Which corner operations apply
  // ---------------------------------------------------------------------

  /** An operation the builder registers for corner index `c` (0-based). */
  predicate RegistersCorner(op: Operation, c: int) {
    op.kind == CornerOperation && op.corner == c + 1 && op.subtype == 3 && op.ext == 1
  }

  /** A corner operation naming a corner outside 1..CORNER_MAX. */
  predicate BadCorner(op: Operation) {
    op.kind == CornerOperation && (op.corner <= 0 || op.corner > CornerMax)
  }

  /**
   * The `corner[]` table the first loop of _create_detail_component builds
   * from the operations in order; None when it gives up with -1.
   */
  function RegisterCorners(ops: seq<Operation>): (t: Option<seq<Option<Operation>>>)
    ensures t.Some? ==> |t.value| == CornerMax
    decreases |ops|
  {
    if |ops| == 0 then Some([None, None, None, None])
    else
      match RegisterCorners(ops[..|ops| - 1])
      case None => None
      case Some(table) =>
        var op := ops[|ops| - 1];
        if op.kind != CornerOperation then Some(table)
        else if op.corner <= 0 || op.corner > CornerMax then None
        else if op.subtype != 3 || op.ext != 1 then Some(table)
        else Some(table[op.corner - 1 := Some(op)])
  }

  /**
   * The table is refused exactly when some corner operation names a bad
   * corner; otherwise each corner holds the last operation registered for
   * it, or nothing when none is.
   */
  lemma RegisterCornersSpec(ops: seq<Operation>)
    ensures RegisterCorners(ops).None? <==> exists j :: 0 <= j < |ops| && BadCorner(ops[j])
    ensures RegisterCorners(ops).Some? ==> forall c :: 0 <= c < CornerMax ==>
      var entry := RegisterCorners(ops).value[c];
      && (entry.None? <==> forall j :: 0 <= j < |ops| ==> !RegistersCorner(ops[j], c))
      && (entry.Some? ==> exists j :: 0 <= j < |ops| && ops[j] == entry.value && RegistersCorner(ops[j], c) &&
                            forall k :: j < k < |ops| ==> !RegistersCorner(ops[k], c))
  {
    RegisterCornersRefused(ops);
    if RegisterCorners(ops).Some? {
      forall c | 0 <= c < CornerMax
        ensures var entry := RegisterCorners(ops).value[c];
          && (entry.None? <==> forall j :: 0 <= j < |ops| ==> !RegistersCorner(ops[j], c))
          && (entry.Some? ==> exists j :: 0 <= j < |ops| && ops[j] == entry.value && RegistersCorner(ops[j], c) &&
                                forall k :: j < k < |ops| ==> !RegistersCorner(ops[k], c))
      {
        RegisterCornerEntry(ops, c);
      }
    }
  }

  /** The table is refused exactly when some corner operation names a bad corner. */
  lemma {:induction false} RegisterCornersRefused(ops: seq<Operation>)
    ensures RegisterCorners(ops).None? <==> exists j :: 0 <= j < |ops| && BadCorner(ops[j])
    decreases |ops|
  {
    if |ops| > 0 {
      var prefix := ops[..|ops| - 1];
      RegisterCornersRefused(prefix);
      assert forall j :: 0 <= j < |prefix| ==> prefix[j] == ops[j];
      if RegisterCorners(prefix).None? {
        var j :| 0 <= j < |prefix| && BadCorner(prefix[j]);
        assert BadCorner(ops[j]);
      } else if RegisterCorners(ops).None? {
        assert BadCorner(ops[|ops| - 1]);
      }
    }
  }

  /** Corner `c` of an accepted table holds the last operation registered for it, or nothing. */
  lemma {:induction false} RegisterCornerEntry(ops: seq<Operation>, c: int)
    requires 0 <= c < CornerMax && RegisterCorners(ops).Some?
    ensures var entry := RegisterCorners(ops).value[c];
      && (entry.None? <==> forall j :: 0 <= j < |ops| ==> !RegistersCorner(ops[j], c))
      && (entry.Some? ==> exists j :: 0 <= j < |ops| && ops[j] == entry.value && RegistersCorner(ops[j], c) &&
                            forall k :: j < k < |ops| ==> !RegistersCorner(ops[k], c))
    decreases |ops|
  {
    if |ops| > 0 {
      var prefix := ops[..|ops| - 1];
      var op := ops[|ops| - 1];
      assert RegisterCorners(prefix).Some?;
      RegisterCornerEntry(prefix, c);
      assert forall j :: 0 <= j < |prefix| ==> prefix[j] == ops[j];
      var table := RegisterCorners(prefix).value;
      if RegistersCorner(op, c) {
        assert RegisterCorners(ops).value[c] == Some(op);
        assert ops[|ops| - 1] == op;
      } else {
        assert RegisterCorners(ops).value[c] == table[c];
        if table[c].Some? {
          var j :| 0 <= j < |prefix| && prefix[j] == table[c].value && RegistersCorner(prefix[j], c) &&
            forall k :: j < k < |prefix| ==> !RegistersCorner(prefix[k], c);
          assert ops[j] == table[c].value;
          assert forall k :: j < k < |ops| ==> !RegistersCorner(ops[k], c);
        } else {
          assert forall j :: 0 <= j < |ops| ==> !RegistersCorner(ops[j], c);
        }
      }
    }
  }

  // ---------------------------------------------------------------------
  // The front outline
  // ---------------------------------------------------------------------

  /** sides[SIDE_FRONT]: the rectangle's corners at z = thickness, lower-left first, clockwise. */
  function FrontCorner(d: DetailDef, cn: int): Point3
    requires 0 <= cn < CornerMax
  {
    if cn == CornerLowerLeft then Point3(0.0, 0.0, d.thickness)
    else if cn == CornerUpperLeft then Point3(0.0, d.height, d.thickness)
    else if cn == CornerUpperRight then Point3(d.width, d.height, d.thickness)
    else Point3(d.width, 0.0, d.thickness)
  }

  /**
   * What one pass of the corner loop appends: the corner (tag 0), as the
   * corner operation reshapes it, with the tag of its last vertex replaced by
   * the band of the side that follows the corner.
   */
  function CornerRun(d: DetailDef, corners: seq<Option<Operation>>, materials: seq<MaterialDef>, cn: int): (o: Outline)
    requires |corners| == CornerMax && 0 <= cn < CornerMax
    ensures 1 <= |o.points| == |o.bands| <= 3
    ensures o.bands[|o.bands| - 1] == d.mBands[cn + 1]
    ensures corners[cn].None? ==> o == Outline([FrontCorner(d, cn)], [d.mBands[cn + 1]])
    ensures corners[cn].Some? ==> |o.points| == if corners[cn].value.subtype == 3 then 3 else 2
  {
    var o := CornerOpOutline(FrontCorner(d, cn), 0, cn, corners[cn], materials);
    Outline(o.points, o.bands[|o.bands| - 1 := d.mBands[cn + 1]])
  }

  /** The outline after the first `k` passes of the corner loop. */
  function OutlineUpTo(d: DetailDef, corners: seq<Option<Operation>>, materials: seq<MaterialDef>, k: nat): (o: Outline)
    requires |corners| == CornerMax && k <= CornerMax
    ensures k <= |o.points| == |o.bands| <= 3 * k
  {
    if k == 0 then Outline([], [])
    else Join(OutlineUpTo(d, corners, materials, k - 1), CornerRun(d, corners, materials, k - 1))
  }

  /**
   * Without corner operations the outline is the front rectangle, and each
   * edge carries the band of its own side: left, top, right, bottom.
   */
  lemma PlainRectangleOutline(d: DetailDef, materials: seq<MaterialDef>)
    ensures OutlineUpTo(d, [None, None, None, None], materials, CornerMax) == Outline(
      [Point3(0.0, 0.0, d.thickness), Point3(0.0, d.height, d.thickness),
       Point3(d.width, d.height, d.thickness), Point3(d.width, 0.0, d.thickness)],
      [d.mBands[SideLeft], d.mBands[SideTop], d.mBands[SideRight], d.mBands[SideBottom]])
  {
    var corners: seq<Option<Operation>> := [None, None, None, None];
    var o1 := OutlineUpTo(d, corners, materials, 1);
    var o2 := OutlineUpTo(d, corners, materials, 2);
    var o3 := OutlineUpTo(d, corners, materials, 3);
    assert o1 == Outline([FrontCorner(d, 0)], [d.mBands[1]]);
    assert o2 == Join(o1, Outline([FrontCorner(d, 1)], [d.mBands[2]]));
    assert o3 == Join(o2, Outline([FrontCorner(d, 2)], [d.mBands[3]]));
    assert OutlineUpTo(d, corners, materials, 4) == Join(o3, Outline([FrontCorner(d, 3)], [d.mBands[4]]));
  }

  /** The number of corners holding an operation among the first `k`. */
  function ActiveCorners(corners: seq<Option<Operation>>, k: nat): nat
    requires k <= |corners|
  {
    if k == 0 then 0 else ActiveCorners(corners, k - 1) + (if corners[k - 1].Some? then 1 else 0)
  }

  /**
   * With notching (subtype 3) operations the outline has 4 + 2k vertices for
   * k active corners, at most 12: the size of the builder's arrays.
   */
  lemma {:induction false} OutlineLength(d: DetailDef, corners: seq<Option<Operation>>,
                                         materials: seq<MaterialDef>, k: nat)
    requires |corners| == CornerMax && k <= CornerMax
    requires forall c :: 0 <= c < CornerMax && corners[c].Some? ==> corners[c].value.subtype == 3
    ensures |OutlineUpTo(d, corners, materials, k).points| == k + 2 * ActiveCorners(corners, k) <= 3 * k
  {
    if k > 0 {
      OutlineLength(d, corners, materials, k - 1);
    }
  }

  /** Every operation the table registers has subtype 3. */
  lemma RegisteredCornersNotch(ops: seq<Operation>)
    requires RegisterCorners(ops).Some?
    ensures forall c :: 0 <= c < CornerMax && RegisterCorners(ops).value[c].Some? ==>
      RegisterCorners(ops).value[c].value.subtype == 3
  {
    RegisterCornersSpec(ops);
  }

  // ---------------------------------------------------------------------
  // The panel mesh
  // ---------------------------------------------------------------------

  /** The vertex dropped to the back plane z = 0. */
  function Flatten(p: Point3): Point3 {
    p.(z := 0.0)
  }

  function FlattenAll(pts: seq<Point3>): (r: seq<Point3>)
    ensures |r| == |pts| && forall j :: 0 <= j < |pts| ==> r[j] == Flatten(pts[j])
  {
    if |pts| == 0 then [] else FlattenAll(pts[..|pts| - 1]) + [Flatten(pts[|pts| - 1])]
  }

  function InchesAll(pts: seq<Point3>): (r: seq<Point3>)
    ensures |r| == |pts| && forall j :: 0 <= j < |pts| ==> r[j] == ToInches(pts[j])
  {
    if |pts| == 0 then [] else InchesAll(pts[..|pts| - 1]) + [ToInches(pts[|pts| - 1])]
  }

  /** The band quad of outline edge j: from vertex j to the next, down to z = 0. */
  function BandQuad(pts: seq<Point3>, j: nat): seq<Point3>
    requires j < |pts|
  {
    var next := pts[(j + 1) % |pts|];
    [pts[j], next, Flatten(next), Flatten(pts[j])]
  }

  /** The band quads of the first `k` outline edges, each with its edge's tag. */
  function BandFaces(pts: seq<Point3>, bands: seq<int>, k: nat): (r: seq<Entity>)
    requires |bands| == |pts| && k <= |pts|
    ensures |r| == k
    ensures forall j :: 0 <= j < k ==> r[j] == Face(BandQuad(pts, j), bands[j])
  {
    if k == 0 then [] else BandFaces(pts, bands, k - 1) + [Face(BandQuad(pts, k - 1), bands[k - 1])]
  }

  /** Front face, band quads, back face. */
  function PanelMesh(pts: seq<Point3>, bands: seq<int>, front: int, back: int): seq<Entity>
    requires |bands| == |pts|
  {
    [Face(pts, front)] + BandFaces(pts, bands, |pts|) + [Face(FlattenAll(pts), back)]
  }

  /**
   * An n-vertex outline yields exactly n + 2 faces: the front face in
   * outline order, quad j joining vertex j to vertex j+1 (mod n) down to
   * z = 0 in the tag of edge j, and the back face at z = 0.
   */
  lemma PanelMeshShape(pts: seq<Point3>, bands: seq<int>, front: int, back: int)
    requires |bands| == |pts| > 0
    ensures var m := PanelMesh(pts, bands, front, back);
      && |m| == |pts| + 2
      && m[0] == Face(pts, front)
      && (forall j :: 0 <= j < |pts| ==> m[j + 1] == Face(BandQuad(pts, j), bands[j]))
      && m[|pts| + 1] == Face(FlattenAll(pts), back)
      && forall q <- m[|pts| + 1].vertices :: q.z == 0.0
  {
    var bf := BandFaces(pts, bands, |pts|);
    var back' := Face(FlattenAll(pts), back);
    var m := PanelMesh(pts, bands, front, back);
    assert m == [Face(pts, front)] + bf + [back'];
    forall j | 0 <= j < |pts|
      ensures m[j + 1] == Face(BandQuad(pts, j), bands[j])
    {
      assert m[j + 1] == bf[j];
    }
    assert m[|pts| + 1] == back';
    forall q <- back'.vertices
      ensures q.z == 0.0
    {
      var j :| 0 <= j < |pts| && FlattenAll(pts)[j] == q;
    }
  }

  /** The front face's material: the front band, 0 meaning none. */
  function FrontMaterial(d: DetailDef): int {
    d.mBands[SideFront]
  }

  /** The back face's material: the back band, or the front face's when the back band is 0. */
  function BackMaterial(d: DetailDef): (m: int)
    ensures d.mBands[SideBack] != 0 ==> m == d.mBands[SideBack]
    ensures d.mBands[SideBack] == 0 ==> m == FrontMaterial(d)
  {
    if d.mBands[SideBack] != 0 then d.mBands[SideBack] else FrontMaterial(d)
  }

  // ---------------------------------------------------------------------
  // Drills
  // ---------------------------------------------------------------------

  /** sides[i][0]: the corner of side i that drill positions are measured from. */
  function SideOrigin(d: DetailDef, i: int): Point3
    requires 0 <= i < 6
  {
    if i == SideFront then Point3(0.0, 0.0, d.thickness)
    else if i == SideLeft then Point3(0.0, 0.0, d.thickness)
    else if i == SideTop then Point3(0.0, d.height, d.thickness)
    else if i == SideRight then Point3(d.width, 0.0, d.thickness)
    else if i == SideBottom then Point3(0.0, 0.0, d.thickness)
    else Point3(0.0, 0.0, 0.0)
  }

  /** normals[i]: the drilling direction for side i. */
  function SideNormal(i: int): Vector3
    requires 0 <= i < 6
  {
    if i == SideFront then Vector3(0.0, 0.0, -1.0)
    else if i == SideLeft then Vector3(1.0, 0.0, 0.0)
    else if i == SideTop then Vector3(0.0, -1.0, 0.0)
    else if i == SideRight then Vector3(-1.0, 0.0, 0.0)
    else if i == SideBottom then Vector3(0.0, 1.0, 0.0)
    else Vector3(0.0, 0.0, 1.0)
  }

  predicate InPanel(d: DetailDef, p: Point3) {
    0.0 <= p.x <= d.width && 0.0 <= p.y <= d.height && 0.0 <= p.z <= d.thickness
  }

  /** How far the panel extends behind side i. */
  function Extent(d: DetailDef, i: int): real
    requires 0 <= i < 6
  {
    if i == SideLeft || i == SideRight then d.width
    else if i == SideTop || i == SideBottom then d.height
    else d.thickness
  }

  /**
   * Each normal is a unit axis vector pointing into the panel: from the
   * side's origin it stays inside the panel for the panel's whole extent.
   */
  lemma SideNormalsPointInward(d: DetailDef, i: int, t: real)
    requires 0.0 <= d.width && 0.0 <= d.height && 0.0 <= d.thickness
    requires 0 <= i < 6 && 0.0 <= t <= Extent(d, i)
    ensures InPanel(d, SideOrigin(d, i))
    ensures InPanel(d, Offset(SideOrigin(d, i), SideNormal(i), t))
    ensures var n := SideNormal(i); n.x * n.x + n.y * n.y + n.z * n.z == 1.0
  {
  }

  /** The depth a drill on side i is made with: face drills never go past the thickness. */
  function DrillDepth(depth: real, i: int, thickness: real): (r: real)
    ensures (i == SideFront || i == SideBack) ==> r == Min(depth, thickness)
    ensures !(i == SideFront || i == SideBack) ==> r == depth
  {
    if (i == SideFront || i == SideBack) && depth > thickness then thickness else depth
  }

  /**
   * The hole centre on the side's plane, in inches: on the top and bottom
   * edges y is measured down from the front face, elsewhere along y; on the
   * left and right edges x is measured down from the front face, elsewhere
   * along x.
   */
  function DrillCenter(corner: Point3, op: Operation, side: int): (r: Point3)
    ensures r.x == MmToInch(corner.x) + (if side == SideLeft || side == SideRight then 0.0 else MmToInch(op.x))
    ensures r.y == MmToInch(corner.y) + (if side == SideTop || side == SideBottom then 0.0 else MmToInch(op.y))
    ensures r.z == MmToInch(corner.z) - (if side == SideTop || side == SideBottom then MmToInch(op.y) else 0.0)
                                      - (if side == SideLeft || side == SideRight then MmToInch(op.x) else 0.0)
  {
    var c := ToInches(corner);
    var x := MmToInch(op.x);
    var y := MmToInch(op.y);
    var c1 := if side == SideTop || side == SideBottom then c.(z := c.z - y) else c.(y := c.y + y);
    if side == SideLeft || side == SideRight then c1.(z := c1.z - x) else c1.(x := c1.x + x)
  }

  /**
   * The arc's start: one radius away from the centre, in the plane across
   * the side's drilling direction, so the arc is a circle around the hole's axis.
   */
  function ArcStart(center: Point3, radius: real, side: int): (r: Point3)
    ensures 0 <= side < 6 ==>
      var n := SideNormal(side);
      && (r.x - center.x) * n.x + (r.y - center.y) * n.y + (r.z - center.z) * n.z == 0.0
    ensures var v := Point3(r.x - center.x, r.y - center.y, r.z - center.z);
      v.x * v.x + v.y * v.y + v.z * v.z == radius * radius
  {
    if side == SideLeft || side == SideRight then center.(z := center.z + radius)
    else center.(x := center.x + radius)
  }

  /**
   * _add_drill: a 16-segment circle at the hole's mouth, the same circle
   * `depth` further along the normal, and the axis edge joining the centres.
   */
  function DrillEntities(corner: Point3, op: Operation, normal: Vector3, depth: real, side: int): (es: seq<Entity>)
    ensures |es| == 3 && es[0].ArcCurve? && es[1].ArcCurve? && es[2].Edge?
    ensures es[0].center == DrillCenter(corner, op, side)
    ensures es[1].center == Offset(es[0].center, normal, MmToInch(depth))
    ensures es[2] == Edge(es[0].center, es[1].center)
    ensures forall k :: 0 <= k < 2 ==>
      && es[k].start == es[k].end == ArcStart(es[k].center, MmToInch(op.d) / 2.0, side)
      && es[k].normal == normal && es[k].segments == 16
  {
    var center := DrillCenter(corner, op, side);
    var radius := MmToInch(op.d) / 2.0;
    var center2 := Offset(center, normal, MmToInch(depth));
    var start := ArcStart(center, radius, side);
    var start2 := ArcStart(center2, radius, side);
    [ArcCurve(center, start, start, normal, 16), ArcCurve(center2, start2, start2, normal, 16), Edge(center, center2)]
  }

  /** A point of the panel, with the panel's sizes converted to inches. */
  predicate InPanelInches(d: DetailDef, p: Point3) {
    && 0.0 <= p.x <= MmToInch(d.width)
    && 0.0 <= p.y <= MmToInch(d.height)
    && 0.0 <= p.z <= MmToInch(d.thickness)
  }

  /** The op's x and y fall on side i's face of the panel. */
  predicate MouthOnSide(d: DetailDef, op: Operation, i: int) {
    if i == SideLeft || i == SideRight then 0.0 <= op.x <= d.thickness && 0.0 <= op.y <= d.height
    else if i == SideTop || i == SideBottom then 0.0 <= op.x <= d.width && 0.0 <= op.y <= d.thickness
    else 0.0 <= op.x <= d.width && 0.0 <= op.y <= d.height
  }

  /**
   * A drill whose mouth lies on its side's face has both circle centres
   * inside the panel. On the front and back this holds for any depth, because
   * the depth is clamped to the thickness; on the four edges it needs the
   * depth to stay within the panel's extent behind that edge.
   */
  lemma DrillInsidePanel(d: DetailDef, op: Operation, i: int)
    requires 0 <= i < 6 && 0.0 <= d.width && 0.0 <= d.height && 0.0 <= d.thickness
    requires MouthOnSide(d, op, i) && 0.0 <= op.depth
    requires i == SideFront || i == SideBack || op.depth <= Extent(d, i)
    ensures var es := DrillEntities(SideOrigin(d, i), op, SideNormal(i), DrillDepth(op.depth, i, d.thickness), i);
      InPanelInches(d, es[0].center) && InPanelInches(d, es[1].center)
  {
    var depth := DrillDepth(op.depth, i, d.thickness);
    var es := DrillEntities(SideOrigin(d, i), op, SideNormal(i), depth, i);
    assert 0.0 <= depth <= Extent(d, i);
    InchesMonotone(0.0, depth);
    InchesMonotone(depth, Extent(d, i));
    InchesMonotone(0.0, op.x);
    InchesMonotone(0.0, op.y);
    if i == SideLeft || i == SideRight {
      InchesMonotone(op.x, d.thickness);
      InchesMonotone(op.y, d.height);
    } else if i == SideTop || i == SideBottom {
      InchesMonotone(op.x, d.width);
      InchesMonotone(op.y, d.thickness);
    } else {
      InchesMonotone(op.x, d.width);
      InchesMonotone(op.y, d.height);
    }
  }

  /** Without the clamp, a front drill deeper than the panel would end outside it. */
  lemma UnclampedFrontDrillLeavesPanel(d: DetailDef, op: Operation)
    requires op.depth > d.thickness
    ensures !InPanelInches(d, DrillEntities(SideOrigin(d, SideFront), op, SideNormal(SideFront), op.depth, SideFront)[1].center)
  {
    InchesMonotone(d.thickness, op.depth);
  }

  lemma InchesMonotone(a: real, b: real)
    requires a <= b
    ensures MmToInch(a) <= MmToInch(b)
    ensures a < b ==> MmToInch(a) < MmToInch(b)
  {
  }

  /** A drilling operation on side index i (its `side` attribute is i + 1). */
  predicate DrillsSide(op: Operation, i: int) {
    op.kind == Drilling && op.side == i + 1
  }

  /** The holes of side i among the first `k` operations, in operation order. */
  function SideDrills(d: DetailDef, i: int, k: nat): (es: seq<Entity>)
    requires 0 <= i < 6 && k <= |d.operations|
    ensures |es| % 3 == 0
  {
    if k == 0 then []
    else
      var op := d.operations[k - 1];
      SideDrills(d, i, k - 1) +
      if DrillsSide(op, i) then
        DrillEntities(SideOrigin(d, i), op, SideNormal(i), DrillDepth(op.depth, i, d.thickness), i)
      else []
  }

  /** The holes of the first `i` sides, side by side. */
  function DrillsUpTo(d: DetailDef, i: nat): (es: seq<Entity>)
    requires i <= 6
  {
    if i == 0 then [] else DrillsUpTo(d, i - 1) + SideDrills(d, i - 1, |d.operations|)
  }

  /** The number of drilling operations on side i among the first `k` operations. */
  function DrillCount(ops: seq<Operation>, i: int, k: nat): nat
    requires k <= |ops|
  {
    if k == 0 then 0 else DrillCount(ops, i, k - 1) + (if DrillsSide(ops[k - 1], i) then 1 else 0)
  }

  /** Each drilling operation on a side yields exactly three entities. */
  lemma {:induction false} SideDrillsCount(d: DetailDef, i: int, k: nat)
    requires 0 <= i < 6 && k <= |d.operations|
    ensures |SideDrills(d, i, k)| == 3 * DrillCount(d.operations, i, k)
  {
    if k > 0 {
      SideDrillsCount(d, i, k - 1);
    }
  }

  /** The whole geometry of a panel, or None when a corner operation names a bad corner. */
  function DetailGeometry(d: DetailDef, materials: seq<MaterialDef>): (g: Option<seq<Entity>>)
    ensures g.None? <==> exists j :: 0 <= j < |d.operations| && BadCorner(d.operations[j])
  {
    RegisterCornersRefused(d.operations);
    match RegisterCorners(d.operations)
    case None => None
    case Some(corners) =>
      var outline := OutlineUpTo(d, corners, materials, CornerMax);
      Some(PanelMesh(InchesAll(outline.points), outline.bands, FrontMaterial(d), BackMaterial(d))
           + DrillsUpTo(d, 6))
  }

  // ---------------------------------------------------------------------
  // The builder, on fixed-size arrays
  // ---------------------------------------------------------------------

  /** Overwrite the last of the `count` filled vertices and its tag. */
  method SetLast(points: array<Point3>, bands: array<int>, count: nat, p: Point3, tag: int)
    requires points.Length == bands.Length && 1 <= count <= points.Length
    modifies points, bands
    ensures points[..count] == old(points[..count - 1]) + [p]
    ensures bands[..count] == old(bands[..count - 1]) + [tag]
    ensures forall j :: count <= j < bands.Length ==> bands[j] == old(bands[j])
  {
    points[count - 1] := p;
    bands[count - 1] := tag;
  }

  /** Append a vertex and its tag after the `count` filled ones. */
  method Push(points: array<Point3>, bands: array<int>, count: nat, p: Point3, tag: int) returns (r: nat)
    requires points.Length == bands.Length && count < points.Length
    modifies points, bands
    ensures r == count + 1
    ensures points[..r] == old(points[..count]) + [p]
    ensures bands[..r] == old(bands[..count]) + [tag]
    ensures forall j :: r <= j < bands.Length ==> bands[j] == old(bands[j])
  {
    points[count] := p;
    bands[count] := tag;
    r := count + 1;
  }

  /** The head of _corner_operation: notch size and run tags after edge covering. */
  method ComputeClip(op: Operation, materials: seq<MaterialDef>) returns (c: CornerClip)
    ensures c == Clip(op, materials)
  {
    var X := op.x;
    var Y := op.y;
    var materialH := 1;
    var materialV := 1;
    if op.edgeMaterial > 0 {
      var t := MaterialThickness(materials, op.edgeMaterial);
      if op.edgeCovering == EdgeCoverBoth {
        X := X - t;
        Y := Y - t;
        materialH := op.edgeMaterial;
        materialV := op.edgeMaterial;
      } else if op.edgeCovering == EdgeCoverH {
        materialH := op.edgeMaterial;
        Y := Y - t;
      } else if op.edgeCovering == EdgeCoverV {
        materialV := op.edgeMaterial;
        X := X - t;
      }
    }
    c := CornerClip(X, Y, materialH, materialV);
  }

  /**
   * The per-corner switch of _corner_operation: where the rewritten last
   * vertex, the notch vertex and the closing vertex go, and their tags.
   */
  method CornerRunVertices(original: Point3, cn: int, c: CornerClip)
    returns (first: Point3, notch: Point3, last: Point3, firstTag: int, secondTag: int)
    requires 0 <= cn < CornerMax
    ensures CornerVertices(original, cn, 3, c) == Outline([first, notch, last], [firstTag, secondTag, secondTag])
    ensures forall subtype :: subtype != 3 ==>
      CornerVertices(original, cn, subtype, c) == Outline([first, last], [firstTag, secondTag])
  {
    if cn == CornerLowerLeft {
      first := original.(x := original.x + c.x);
      notch := first.(y := first.y + c.y);
      last := original.(y := original.y + c.y);
      firstTag, secondTag := c.materialH, c.materialV;
    } else if cn == CornerUpperLeft {
      first := original.(y := original.y - c.y);
      notch := first.(x := first.x + c.x);
      last := original.(x := original.x + c.x);
      last := last.(x := last.x + c.x);
      firstTag, secondTag := c.materialV, c.materialH;
    } else if cn == CornerUpperRight {
      first := original.(x := original.x - c.x);
      notch := first.(y := first.y - c.y);
      last := original.(y := original.y - c.y);
      firstTag, secondTag := c.materialH, c.materialV;
    } else {
      first := original.(y := original.y + c.y);
      notch := first.(x := first.x - c.x);
      last := original.(x := original.x - c.x);
      firstTag, secondTag := c.materialV, c.materialH;
    }
  }

  /**
   * _corner_operation: rewrite the last of the `n` filled vertices into the
   * corner's run, appending to the arrays in place; returns the new count.
   * The notch vertex is the copy of the rewritten last vertex moved along the
   * second run; the closing vertex is the original corner moved along it.
   */
  method ApplyCornerOperation(points: array<Point3>, bands: array<int>, n: nat, cn: int,
                              cop: Option<Operation>, materials: seq<MaterialDef>) returns (count: nat)
    requires points.Length == bands.Length == 12
    requires 1 <= n && n + 2 <= 12 && 0 <= cn < CornerMax
    modifies points, bands
    ensures var o := CornerOpOutline(old(points[n - 1]), old(bands[n - 1]), cn, cop, materials);
      && count == n - 1 + |o.points|
      && points[..count] == old(points[..n - 1]) + o.points
      && bands[..count] == old(bands[..n - 1]) + o.bands
    ensures forall j :: count <= j < 12 ==> bands[j] == old(bands[j])
  {
    count := n;
    if cop.None? {
      assert points[..n] == old(points[..n - 1]) + [points[n - 1]];
      assert bands[..n] == old(bands[..n - 1]) + [bands[n - 1]];
      return;
    }
    var op := cop.value;
    var original := points[n - 1];
    var c := ComputeClip(op, materials);
    var first, notch, last, firstTag, secondTag := CornerRunVertices(original, cn, c);
    ghost var o := CornerVertices(original, cn, op.subtype, c);
    ghost var prefixPoints := points[..n - 1];
    ghost var prefixBands := bands[..n - 1];
    SetLast(points, bands, count, first, firstTag);
    if op.subtype == 3 {
      count := Push(points, bands, count, notch, secondTag);
    }
    count := Push(points, bands, count, last, secondTag);
    assert points[..count] == prefixPoints + o.points;
    assert bands[..count] == prefixBands + o.bands;
  }

  /** The corner loop of _create_detail_component: the front outline in millimetres. */
  method BuildOutline(d: DetailDef, corners: seq<Option<Operation>>, materials: seq<MaterialDef>)
    returns (points: array<Point3>, bands: array<int>, n: nat)
    requires |corners| == CornerMax
    ensures fresh(points) && fresh(bands) && points.Length == bands.Length == 12
    ensures var o := OutlineUpTo(d, corners, materials, CornerMax);
      n <= 12 && points[..n] == o.points && bands[..n] == o.bands
  {
    points := new Point3[12];
    bands := new int[12](_ => 0);
    n := 0;
    var cn := 0;
    while cn < CornerMax
      invariant 0 <= cn <= CornerMax && n <= 3 * cn
      invariant points[..n] == OutlineUpTo(d, corners, materials, cn).points
      invariant bands[..n] == OutlineUpTo(d, corners, materials, cn).bands
      invariant forall j :: n <= j < 12 ==> bands[j] == 0
    {
      n := AddCorner(points, bands, n, d, cn, corners, materials);
      cn := cn + 1;
    }
  }

  /** One pass of the corner loop: the front corner, its operation, and the band of the next side. */
  method AddCorner(points: array<Point3>, bands: array<int>, n: nat, d: DetailDef, cn: int,
                   corners: seq<Option<Operation>>, materials: seq<MaterialDef>) returns (count: nat)
    requires points.Length == bands.Length == 12 && |corners| == CornerMax
    requires 0 <= cn < CornerMax && n <= 3 * cn
    requires points[..n] == OutlineUpTo(d, corners, materials, cn).points
    requires bands[..n] == OutlineUpTo(d, corners, materials, cn).bands
    requires forall j :: n <= j < 12 ==> bands[j] == 0
    modifies points, bands
    ensures count <= 3 * (cn + 1)
    ensures points[..count] == OutlineUpTo(d, corners, materials, cn + 1).points
    ensures bands[..count] == OutlineUpTo(d, corners, materials, cn + 1).bands
    ensures forall j :: count <= j < 12 ==> bands[j] == 0
  {
    ghost var before := OutlineUpTo(d, corners, materials, cn);
    points[n] := FrontCorner(d, cn);
    count := n + 1;
    assert points[..count - 1] == before.points && bands[..count - 1] == before.bands;
    count := ApplyCornerOperation(points, bands, count, cn, corners[cn], materials);
    bands[count - 1] := d.mBands[cn + 1];
    assert points[..count] == OutlineUpTo(d, corners, materials, cn + 1).points;
    assert bands[..count] == OutlineUpTo(d, corners, materials, cn + 1).bands;
  }

  /** The first loop of _create_detail_component: fill corner[] from the operations. */
  method RegisterCornerOperations(ops: seq<Operation>) returns (corners: Option<seq<Option<Operation>>>)
    ensures corners == RegisterCorners(ops)
  {
    var table := new Option<Operation>[CornerMax](_ => None);
    assert table[..] == [None, None, None, None];
    var j := 0;
    while j < |ops|
      invariant 0 <= j <= |ops|
      invariant RegisterCorners(ops[..j]) == Some(table[..])
    {
      assert ops[..j + 1][..j] == ops[..j];
      var op := ops[j];
      if op.kind == CornerOperation {
        if op.corner <= 0 || op.corner > CornerMax {
          RegisterCornersSpec(ops);
          assert BadCorner(ops[j]);
          return None;
        }
        if op.subtype == 3 && op.ext == 1 {
          table[op.corner - 1] := Some(op);
        }
      }
      j := j + 1;
    }
    assert ops[..j] == ops;
    corners := Some(table[..]);
  }

  /** MM2INCH on every filled vertex, in place. */
  method ConvertToInches(points: array<Point3>, n: nat)
    requires n <= points.Length
    modifies points
    ensures points[..n] == InchesAll(old(points[..n]))
    ensures points[n..] == old(points[n..])
  {
    var j := 0;
    while j < n
      invariant 0 <= j <= n
      invariant forall k :: 0 <= k < j ==> points[k] == ToInches(old(points[k]))
      invariant forall k :: j <= k < points.Length ==> points[k] == old(points[k])
    {
      points[j] := ToInches(points[j]);
      j := j + 1;
    }
  }

  /** The quad loop: one face per outline edge, in the edge's band tag. */
  method EmitBandQuads(sink: Sink, points: array<Point3>, bands: array<int>, n: nat)
    requires 0 < n <= points.Length && n <= bands.Length
    modifies sink
    ensures sink.entities == old(sink.entities) + BandFaces(points[..n], bands[..n], n)
  {
    var j := 0;
    while j < n
      invariant 0 <= j <= n
      invariant sink.entities == old(sink.entities) + BandFaces(points[..n], bands[..n], j)
    {
      var next := points[(j + 1) % n];
      sink.Add(Face([points[j], next, next.(z := 0.0), points[j].(z := 0.0)], bands[j]));
      j := j + 1;
    }
  }

  /** Set z = 0 on every filled vertex, in place. */
  method FlattenPoints(points: array<Point3>, n: nat)
    requires n <= points.Length
    modifies points
    ensures points[..n] == FlattenAll(old(points[..n]))
  {
    var j := 0;
    while j < n
      invariant 0 <= j <= n
      invariant forall k :: 0 <= k < j ==> points[k] == Flatten(old(points[k]))
      invariant forall k :: j <= k < n ==> points[k] == old(points[k])
    {
      points[j] := points[j].(z := 0.0);
      j := j + 1;
    }
  }

  /** Front face, one quad per outline edge, then the outline dropped to z = 0 as the back face. */
  method EmitPanelMesh(sink: Sink, points: array<Point3>, bands: array<int>, n: nat, front: int, back: int)
    requires 0 < n <= points.Length && n <= bands.Length
    modifies sink, points
    ensures sink.entities == old(sink.entities) + PanelMesh(old(points[..n]), old(bands[..n]), front, back)
  {
    ghost var e0, pts := sink.entities, points[..n];
    ghost var quads := BandFaces(pts, bands[..n], n);
    sink.Add(Face(points[..n], front));
    EmitBandQuads(sink, points, bands, n);
    assert sink.entities == e0 + [Face(pts, front)] + quads;
    EmitBackFace(sink, points, n, back);
    ConcatAssoc(e0, [Face(pts, front)], quads, [Face(FlattenAll(pts), back)]);
  }

  lemma ConcatAssoc<T>(a: seq<T>, b: seq<T>, c: seq<T>, d: seq<T>)
    ensures a + b + c + d == a + (b + c + d)
  {
  }

  /** The back face: the filled vertices dropped to z = 0 in place, then emitted. */
  method EmitBackFace(sink: Sink, points: array<Point3>, n: nat, back: int)
    requires 0 < n <= points.Length
    modifies sink, points
    ensures points[..n] == FlattenAll(old(points[..n]))
    ensures sink.entities == old(sink.entities) + [Face(FlattenAll(old(points[..n])), back)]
  {
    FlattenPoints(points, n);
    sink.Add(Face(points[..n], back));
  }

  /** The drill loops of _create_detail_component: side by side, operations in order. */
  method EmitDrills(sink: Sink, d: DetailDef)
    modifies sink
    ensures sink.entities == old(sink.entities) + DrillsUpTo(d, 6)
  {
    var i := 0;
    while i < 6
      invariant 0 <= i <= 6
      invariant sink.entities == old(sink.entities) + DrillsUpTo(d, i)
    {
      EmitSideDrills(sink, d, i);
      i := i + 1;
    }
  }

  /** The inner loop of the drilling pass: every drilling operation on side `i`, in order. */
  method EmitSideDrills(sink: Sink, d: DetailDef, i: int)
    requires 0 <= i < 6
    modifies sink
    ensures sink.entities == old(sink.entities) + SideDrills(d, i, |d.operations|)
  {
    var j := 0;
    while j < |d.operations|
      invariant 0 <= j <= |d.operations|
      invariant sink.entities == old(sink.entities) + SideDrills(d, i, j)
    {
      EmitDrill(sink, d, i, d.operations[j]);
      j := j + 1;
    }
  }

  /** One step of the drilling pass: the hole of `op` when it drills side `i`, depth clamped on the faces. */
  method EmitDrill(sink: Sink, d: DetailDef, i: int, op: Operation)
    requires 0 <= i < 6
    modifies sink
    ensures sink.entities == old(sink.entities) +
      if DrillsSide(op, i) then
        DrillEntities(SideOrigin(d, i), op, SideNormal(i), DrillDepth(op.depth, i, d.thickness), i)
      else []
  {
    if op.kind == Drilling && op.side == i + 1 {
      var depth := op.depth;
      if (i == SideFront || i == SideBack) && depth > d.thickness {
        depth := d.thickness;
      }
      var es := DrillEntities(SideOrigin(d, i), op, SideNormal(i), depth, i);
      sink.Add(es[0]);
      sink.Add(es[1]);
      sink.Add(es[2]);
      assert es == [es[0], es[1], es[2]];
    }
  }

  /** The outline, face and band part of _create_detail_component, once the corners are known. */
  method EmitOutlineMesh(sink: Sink, d: DetailDef, corners: seq<Option<Operation>>, materials: seq<MaterialDef>)
    requires |corners| == CornerMax
    modifies sink
    ensures var outline := OutlineUpTo(d, corners, materials, CornerMax);
      sink.entities == old(sink.entities) +
        PanelMesh(InchesAll(outline.points), outline.bands, FrontMaterial(d), BackMaterial(d))
  {
    var points, bands, n := BuildOutline(d, corners, materials);
    ConvertToInches(points, n);
    EmitPanelMesh(sink, points, bands, n, FrontMaterial(d), BackMaterial(d));
  }

  /**
   * _create_detail_component: -1 (and nothing emitted) when a corner
   * operation names a bad corner, otherwise 0 with the panel's whole
   * geometry appended to `sink`.
   */
  method CreateDetailComponent(sink: Sink, d: DetailDef, materials: seq<MaterialDef>) returns (status: int)
    modifies sink
    ensures status == 0 || status == -1
    ensures status == -1 <==> DetailGeometry(d, materials).None?
    ensures status == -1 ==> sink.entities == old(sink.entities)
    ensures status == 0 ==> sink.entities == old(sink.entities) + DetailGeometry(d, materials).value
  {
    var corners := RegisterCornerOperations(d.operations);
    if corners.None? {
      return -1;
    }
    ghost var e0 := sink.entities;
    ghost var outline := OutlineUpTo(d, corners.value, materials, CornerMax);
    ghost var mesh := PanelMesh(InchesAll(outline.points), outline.bands, FrontMaterial(d), BackMaterial(d));
    EmitOutlineMesh(sink, d, corners.value, materials);
    EmitDrills(sink, d);
    ConcatAssoc3(e0, mesh, DrillsUpTo(d, 6));
    status := 0;
  }

  lemma ConcatAssoc3<T>(a: seq<T>, b: seq<T>, c: seq<T>)
    ensures a + b + c == a + (b + c)
  {
  }
}
