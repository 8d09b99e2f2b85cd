// Where panel instances go in the model: the shelf packer and the stacking
// of copies (xmllitereader/XmlLiteReader.cpp, _add_update_detail_components).

module Layout {
  import opened Common
  import opened ViyarTypes
  import opened PanelGeometry

  /**
   * The packer's file-level statics: the next position, the extent reached
   * so far and whether the current run grows along X (0) or along Y.
   */
  datatype PackerState = PackerState(lastX: real, lastY: real, maxX: real, maxY: real, direction: int)

  const InitialPacker := PackerState(0.0, 0.0, 0.0, 0.0, 0)

  /** Where a panel's first instance goes, and the packer afterwards. */
  datatype Placement = Placement(x: real, y: real, next: PackerState)

  /**
   * The panel does not fit in the current run: along X, the extent so far
   * is nonzero and the panel would cross it; along Y likewise.
   */
  predicate Wraps(s: PackerState, width: real, height: real) {
    var mx := Max(s.maxX, s.lastX);
    var my := Max(s.maxY, s.lastY);
    if s.direction == 0 then mx > 0.0 && s.lastX + width > mx
    else my > 0.0 && s.lastY + height > my
  }

  /**
   * One placement. A wrapping panel starts a new run DISTANCE past the
   * extent on the other axis, with the direction flipped; the panel goes at
   * the resulting position, and then only the coordinate of the (new)
   * direction advances, by the panel's size plus DISTANCE.
   */
  function NextPlacement(s: PackerState, width: real, height: real): (p: Placement)
    ensures p.next.maxX >= Max(s.maxX, s.lastX) && p.next.maxY >= Max(s.maxY, s.lastY)
    ensures Wraps(s, width, height) && s.direction == 0 ==>
      p.x == Max(s.maxX, s.lastX) + DistanceX && p.y == 0.0 && p.next.direction == 1
    ensures Wraps(s, width, height) && s.direction != 0 ==>
      p.x == 0.0 && p.y == Max(s.maxY, s.lastY) + DistanceY && p.next.direction == 0
    ensures !Wraps(s, width, height) ==> p.x == s.lastX && p.y == s.lastY && p.next.direction == s.direction
    ensures p.next.direction == 0 ==> p.next.lastX == p.x + DistanceX + width && p.next.lastY == p.y
    ensures p.next.direction != 0 ==> p.next.lastY == p.y + DistanceY + height && p.next.lastX == p.x
  {
    var mx := Max(s.maxX, s.lastX);
    var my := Max(s.maxY, s.lastY);
    var placed :=
      if s.direction == 0 then
        if mx > 0.0 && s.lastX + width > mx then
          var lx := mx + DistanceX;
          PackerState(lx, 0.0, Max(mx, lx + width), my, 1)
        else PackerState(s.lastX, s.lastY, mx, Max(my, s.lastY + height), s.direction)
      else
        if my > 0.0 && s.lastY + height > my then
          var ly := my + DistanceY;
          PackerState(0.0, ly, mx, Max(my, ly + height), 0)
        else PackerState(s.lastX, s.lastY, Max(mx, s.lastX + width), my, s.direction);
    var next :=
      if placed.direction == 0 then placed.(lastX := placed.lastX + DistanceX + width)
      else placed.(lastY := placed.lastY + DistanceY + height);
    Placement(placed.lastX, placed.lastY, next)
  }

  /** The footprint of a placed panel, in millimetres. */
  datatype Box = Box(x: real, y: real, w: real, h: real)

  /** Two footprints with a positive gap between them along X or along Y. */
  predicate Separated(a: Box, b: Box) {
    a.x + a.w < b.x || b.x + b.w < a.x || a.y + a.h < b.y || b.y + b.h < a.y
  }

  /**
   * What the packer state knows of the footprints placed so far: each lies
   * within the extent, and each lies entirely before the next position on
   * one of the two axes.
   */
  ghost predicate PackerInvariant(s: PackerState, boxes: seq<Box>) {
    forall b <- boxes ::
      && b.x + b.w <= Max(s.maxX, s.lastX)
      && b.y + b.h <= Max(s.maxY, s.lastY)
      && (b.x + b.w < s.lastX || b.y + b.h < s.lastY)
  }

  /** A placement keeps the invariant and keeps the new footprint clear of the old ones. */
  lemma PlaceKeepsInvariant(s: PackerState, boxes: seq<Box>, width: real, height: real)
    requires width >= 0.0 && height >= 0.0
    requires PackerInvariant(s, boxes)
    ensures var p := NextPlacement(s, width, height);
      && PackerInvariant(p.next, boxes + [Box(p.x, p.y, width, height)])
      && forall b <- boxes :: Separated(b, Box(p.x, p.y, width, height))
  {
    var p := NextPlacement(s, width, height);
    var nb := Box(p.x, p.y, width, height);
    forall b | b in boxes + [nb]
      ensures && b.x + b.w <= Max(p.next.maxX, p.next.lastX)
              && b.y + b.h <= Max(p.next.maxY, p.next.lastY)
              && (b.x + b.w < p.next.lastX || b.y + b.h < p.next.lastY)
    {
      if b in boxes {
        assert b.x + b.w <= Max(s.maxX, s.lastX) && b.y + b.h <= Max(s.maxY, s.lastY);
      }
    }
  }

  /** The footprints of a sequence of (width, height) placements, and the packer after them. */
  datatype Packing = Packing(boxes: seq<Box>, state: PackerState)

  function PackAll(s: PackerState, sizes: seq<(real, real)>): (r: Packing)
    ensures |r.boxes| == |sizes|
    ensures forall k :: 0 <= k < |sizes| ==> r.boxes[k].w == sizes[k].0 && r.boxes[k].h == sizes[k].1
  {
    if |sizes| == 0 then Packing([], s)
    else
      var prev := PackAll(s, sizes[..|sizes| - 1]);
      var size := sizes[|sizes| - 1];
      var p := NextPlacement(prev.state, size.0, size.1);
      Packing(prev.boxes + [Box(p.x, p.y, size.0, size.1)], p.next)
  }

  /**
   * From any packer state, panels of nonnegative size are laid out with a
   * positive gap between every two of their footprints.
   */
  lemma {:induction false} PackAllSeparated(s: PackerState, sizes: seq<(real, real)>)
    requires forall k :: 0 <= k < |sizes| ==> sizes[k].0 >= 0.0 && sizes[k].1 >= 0.0
    ensures PackerInvariant(PackAll(s, sizes).state, PackAll(s, sizes).boxes)
    ensures forall i, j :: 0 <= i < j < |sizes| ==> Separated(PackAll(s, sizes).boxes[i], PackAll(s, sizes).boxes[j])
  {
    if |sizes| > 0 {
      var prefix := sizes[..|sizes| - 1];
      var prev := PackAll(s, prefix);
      var size := sizes[|sizes| - 1];
      PackAllSeparated(s, prefix);
      assert forall i, j :: 0 <= i < j < |prev.boxes| ==> Separated(prev.boxes[i], prev.boxes[j]);
      PlaceKeepsInvariant(prev.state, prev.boxes, size.0, size.1);
      var b := PackAll(s, sizes).boxes;
      forall i, j | 0 <= i < j < |b|
        ensures Separated(b[i], b[j])
      {
        if j < |b| - 1 {
          assert b[i] == prev.boxes[i] && b[j] == prev.boxes[j];
          assert Separated(prev.boxes[i], prev.boxes[j]);
        } else {
          var p := NextPlacement(prev.state, size.0, size.1);
          assert b[j] == Box(p.x, p.y, size.0, size.1);
          assert b[i] == prev.boxes[i] && b[i] in prev.boxes;
        }
      }
    }
  }

  /**
   * The packer's statics as an object: each placement updates them in
   * place.
   */
  class Packer {
    var lastX: real
    var lastY: real
    var maxX: real
    var maxY: real
    var direction: int

    function State(): PackerState
      reads this
    {
      PackerState(lastX, lastY, maxX, maxY, direction)
    }

    /** The statics' initial values. */
    constructor ()
      ensures State() == InitialPacker
    {
      lastX, lastY, maxX, maxY := 0.0, 0.0, 0.0, 0.0;
      direction := 0;
    }

    /** The position block of _add_update_detail_components: returns the instance's position in millimetres. */
    method Place(width: real, height: real) returns (x: real, y: real)
      modifies this
      ensures Placement(x, y, State()) == NextPlacement(old(State()), width, height)
    {
      maxX := Max(maxX, lastX);
      maxY := Max(maxY, lastY);
      if direction == 0 {
        if maxX > 0.0 && lastX + width > maxX {
          lastX := maxX + DistanceX;
          lastY := 0.0;
          maxX := Max(maxX, lastX + width);
          direction := 1;
        } else {
          maxY := Max(maxY, lastY + height);
        }
      } else {
        if maxY > 0.0 && lastY + height > maxY {
          lastY := maxY + DistanceY;
          lastX := 0.0;
          maxY := Max(maxY, lastY + height);
          direction := 0;
        } else {
          maxX := Max(maxX, lastX + width);
        }
      }
      x, y := lastX, lastY;
      if direction == 0 {
        lastX := lastX + DistanceX + width;
      } else {
        lastY := lastY + DistanceY + height;
      }
    }
  }

  /** The height of the i-th stacked copy, in inches: i panel thicknesses times DISTANCE_Z. */
  function StackHeight(i: nat, thickness: real): real {
    MmToInch(i as real * thickness * DistanceZ)
  }

  /**
   * Stacked copies of a panel of positive thickness stand clear of each
   * other: each later copy starts above the top of every earlier one.
   */
  lemma StackedCopiesClear(i: nat, j: nat, thickness: real)
    requires i < j && thickness > 0.0
    ensures StackHeight(i, thickness) + MmToInch(thickness) < StackHeight(j, thickness)
  {
    var gap := (j - i) as real;
    assert gap >= 1.0;
    assert j as real * thickness * DistanceZ == i as real * thickness * DistanceZ + gap * thickness * DistanceZ;
    assert gap * thickness * DistanceZ >= thickness * DistanceZ by {
      assert (gap - 1.0) * thickness >= 0.0;
    }
  }

  /**
   * The instances added for a panel the model holds `existing` of: one at
   * the placed position on the floor, then one for each further index up to
   * amount - 1, stacked at index * thickness * DISTANCE_Z (all in inches).
   */
  function StackedInstances(x: real, y: real, thickness: real, existing: nat, amount: nat): (r: seq<Entity>)
    requires existing < amount
    ensures |r| == amount - existing
    ensures r[0] == Instance(MmToInch(x), MmToInch(y), 0.0)
    ensures forall k :: 1 <= k < |r| ==>
      r[k] == Instance(MmToInch(x), MmToInch(y), StackHeight(existing + k, thickness))
    decreases amount
  {
    if amount == existing + 1 then [Instance(MmToInch(x), MmToInch(y), 0.0)]
    else
      var prev := StackedInstances(x, y, thickness, existing, amount - 1);
      var r := prev + [Instance(MmToInch(x), MmToInch(y), StackHeight(amount - 1, thickness))];
      assert existing + (|r| - 1) == amount - 1;
      assert forall k :: 1 <= k < |prev| ==> r[k] == prev[k];
      r
  }

  /** The geometry a panel's component receives: nothing when its corner operations are refused. */
  function ComponentGeometry(d: DetailDef, materials: seq<MaterialDef>): seq<Entity> {
    match DetailGeometry(d, materials)
    case None => []
    case Some(g) => g
  }

  /** The first instance at (x, y) on the floor and the stacking loop above it. */
  method StackInstances(model: Sink, x: real, y: real, thickness: real, existing: nat, amount: nat)
    requires existing < amount
    modifies model
    ensures model.entities == old(model.entities) + StackedInstances(x, y, thickness, existing, amount)
  {
    model.Add(Instance(MmToInch(x), MmToInch(y), 0.0));
    var i := existing + 1;
    while i < amount
      invariant existing + 1 <= i <= amount
      invariant model.entities == old(model.entities) + StackedInstances(x, y, thickness, existing, i)
    {
      model.Add(Instance(MmToInch(x), MmToInch(y), StackHeight(i, thickness)));
      i := i + 1;
    }
  }

  /**
   * The instance block of _add_update_detail_components: place the first
   * instance with the packer, then stack one copy per further index.
   */
  method AddInstances(packer: Packer, model: Sink, d: DetailDef, existing: nat)
    requires existing < d.amount
    modifies packer, model
    ensures var p := NextPlacement(old(packer.State()), d.width, d.height);
      && packer.State() == p.next
      && model.entities == old(model.entities) + StackedInstances(p.x, p.y, d.thickness, existing, d.amount)
  {
    var x, y := packer.Place(d.width, d.height);
    StackInstances(model, x, y, d.thickness, existing, d.amount);
  }

  /**
   * _add_update_detail_components for a panel whose component already has
   * `existing` instances: nothing at all for amount 0; otherwise the
   * component gets the panel's geometry (its status is not looked at), and
   * only when more instances are wanted than exist is the packer consulted
   * and amount - existing instances added to the model.
   */
  method AddUpdateDetailComponents(packer: Packer, component: Sink, model: Sink, d: DetailDef,
                                   materials: seq<MaterialDef>, existing: nat)
    requires component != model
    modifies packer, component, model
    ensures d.amount == 0 ==> unchanged(packer, component, model)
    ensures d.amount > 0 ==> component.entities == old(component.entities) + ComponentGeometry(d, materials)
    ensures d.amount > existing ==>
      var p := NextPlacement(old(packer.State()), d.width, d.height);
      && packer.State() == p.next
      && model.entities == old(model.entities) + StackedInstances(p.x, p.y, d.thickness, existing, d.amount)
    ensures d.amount <= existing ==> packer.State() == old(packer.State()) && model.entities == old(model.entities)
  {
    if d.amount == 0 {
      return;
    }
    var _ := CreateDetailComponent(component, d, materials);
    if d.amount > existing {
      AddInstances(packer, model, d, existing);
    }
  }
}
