// Drill ledger and classifier (xmllitereader/drill.cpp, xmllitereader/drill.h).

module Drills {
  import opened Common
  import opened Arrays

  /** DRILL_T: diameter, position, blind depth, through depth (0 for a blind hole), side. */
  datatype Drill = Drill(d: real, x: real, y: real, depth: real, tdepth: real, side: int)

  /** DRILL_CLASS_T: a named diameter range and depth range for blind or through holes. */
  datatype DrillClass = DrillClass(name: string, dmin: real, dmax: real,
                                   depthmin: real, depthmax: real, through: bool)

  /** DRILL_ITEM_T: one distinct kind of drill and how many of it were appended. */
  datatype DrillItem = DrillItem(dr: Drill, amount: nat)

  /** sizeof(DRILL_ITEM_T) and sizeof(DRILL_CLASS_T) on a 64-bit target. */
  const DrillItemSize: nat := 56
  const DrillClassSize: nat := 48

  /** A hole is a through hole when its through depth is positive. */
  predicate IsThrough(dr: Drill) {
    dr.tdepth > 0.0
  }

  /** The depth a class range is checked against: through depth or blind depth. */
  function MeasuredDepth(dr: Drill): real {
    if IsThrough(dr) then dr.tdepth else dr.depth
  }

  /** drill_class_cmp_fn: the early-return cascade of drill.cpp. */
  predicate ClassMatches(dc: DrillClass, dr: Drill)
    ensures ClassMatches(dc, dr) <==>
      && dc.dmin <= dr.d <= dc.dmax
      && IsThrough(dr) == dc.through
      && dc.depthmin <= MeasuredDepth(dr) <= dc.depthmax
  {
    if dr.d < dc.dmin || dr.d > dc.dmax then false
    else
      var through := dr.tdepth > 0.0;
      if through != dc.through then false
      else if through then !(dr.tdepth < dc.depthmin || dr.tdepth > dc.depthmax)
      else !(dr.depth < dc.depthmin || dr.depth > dc.depthmax)
  }

  /** Front and back are the face sides; left, top, right and bottom are edge sides. */
  predicate IsFaceSide(side: int) {
    side == SideFront || side == SideBack
  }

  /**
   * drill_params_cmp_fn(element, data): whether a stored item and a new item
   * describe the same kind of drill. Amounts play no part.
   */
  predicate SameParams(item: DrillItem, newItem: DrillItem)
    ensures IsFaceSide(item.dr.side) != IsFaceSide(newItem.dr.side) ==> !SameParams(item, newItem)
    ensures SameParams(item, newItem) <==>
      && IsFaceSide(item.dr.side) == IsFaceSide(newItem.dr.side)
      && item.dr.d == newItem.dr.d
      && if item.dr.tdepth == 0.0 && newItem.dr.tdepth == 0.0
         then item.dr.depth == newItem.dr.depth
         else item.dr.tdepth == newItem.dr.tdepth
  {
    if IsFaceSide(item.dr.side) && !IsFaceSide(newItem.dr.side) then false
    else if IsFaceSide(newItem.dr.side) && !IsFaceSide(item.dr.side) then false
    else if item.dr.d == newItem.dr.d then
      if item.dr.tdepth == 0.0 && newItem.dr.tdepth == 0.0 then item.dr.depth == newItem.dr.depth
      else item.dr.tdepth == newItem.dr.tdepth
    else false
  }

  /** The merge relation is an equivalence on drill items. */
  lemma SameParamsIsEquivalence(a: DrillItem, b: DrillItem, c: DrillItem)
    ensures SameParams(a, a)
    ensures SameParams(a, b) <==> SameParams(b, a)
    ensures SameParams(a, b) && SameParams(b, c) ==> SameParams(a, c)
  {
  }

  /** The callback drill_append hands array_find_element for a new item. */
  function ParamsMatcher(newItem: DrillItem): DrillItem -> bool {
    e => SameParams(e, newItem)
  }

  /** The callback _drill_find_class hands array_find_element for a drill. */
  function ClassMatcher(dr: Drill): DrillClass -> bool {
    dc => ClassMatches(dc, dr)
  }

  // ---------------------------------------------------------------------
  // Class table and classification
  // ---------------------------------------------------------------------

  /** The classes _joints_init_values inserts, group by group, in insertion order. */
  function ClassTable(): seq<DrillClass> {
    KonfirmatClasses() + DowelClasses() + RafixClasses() + DuClasses() + RastexClasses()
  }

  function KonfirmatClasses(): seq<DrillClass> {
    [ DrillClass("Konfirmat 6.4 head", 6.4, 7.0, 2.0, 21.0, true),
      DrillClass("Konfirmat x50 thread", 4.4, 5.0, 33.0, 50.0, false) ]
  }

  function DowelClasses(): seq<DrillClass> {
    [ DrillClass("dowel face", 8.0, 8.0, 12.0, 15.0, false),
      DrillClass("dowel 8x30 side", 8.0, 8.0, 20.0, 21.0, false),
      DrillClass("dowel 8x35 side", 8.0, 8.0, 25.0, 26.0, false),
      DrillClass("dowel 8x60 face", 8.0, 8.0, 16.0, 21.0, true) ]
  }

  function RafixClasses(): seq<DrillClass> {
    [ DrillClass("rafix VB 35/18 drill", 20.0, 20.0, 14.0, 18.0, false),
      DrillClass("rafix VB 35/16 drill", 20.0, 20.0, 12.5, 18.0, false),
      DrillClass("rafix VB 135/16 drill", 20.0, 20.0, 12.5, 18.0, false),
      DrillClass("for rafix DU 321", 5.0, 5.0, 11.5, 18.0, false) ]
  }

  function DuClasses(): seq<DrillClass> {
    [ DrillClass("DU 232 30mm", 5.0, 5.0, 11.5, 18.0, false),
      DrillClass("DU 853 49/30mm", 8.0, 8.0, 18.0, 19.0, true),
      DrillClass("DU 868 46/30mm", 8.0, 8.0, 16.0, 16.0, true) ]
  }

  function RastexClasses(): seq<DrillClass> {
    [ DrillClass("Rastex side", 8.0, 8.0, 28.0, 36.0, false),
      DrillClass("Rastex 15/12", 15.0, 15.0, 10.0, 12.6, false),
      DrillClass("Rastex 15/15", 15.0, 15.0, 12.7, 13.3, false),
      DrillClass("Rastex 15/18", 15.0, 15.0, 13.4, 15.6, false),
      DrillClass("Rastex 15/22", 15.0, 15.0, 15.7, 19.0, false) ]
  }

  /** _drill_find_class on a class list: the first matching class, or None for NULL. */
  function Classify(classes: seq<DrillClass>, dr: Drill): (r: Option<DrillClass>)
    ensures r.Some? <==> exists k :: 0 <= k < |classes| && ClassMatches(classes[k], dr)
    ensures r.Some? ==>
      exists k :: (0 <= k < |classes| && classes[k] == r.value && ClassMatches(classes[k], dr) &&
                   forall j :: 0 <= j < k ==> !ClassMatches(classes[j], dr))
  {
    match FirstIndex(classes, ClassMatcher(dr))
    case None => None
    case Some(k) => Some(classes[k])
  }

  /** Every drill `inner` accepts, `outer` accepts too. */
  predicate Covers(outer: DrillClass, inner: DrillClass) {
    && outer.through == inner.through
    && outer.dmin <= inner.dmin && inner.dmax <= outer.dmax
    && outer.depthmin <= inner.depthmin && inner.depthmax <= outer.depthmax
  }

  /** A class covered by an earlier class is never the first match. */
  lemma ShadowedNeverFirst(classes: seq<DrillClass>, i: nat, k: nat, dr: Drill)
    requires i < k < |classes| && Covers(classes[i], classes[k])
    ensures FirstIndex(classes, ClassMatcher(dr)) != Some(k)
  {
    assert ClassMatcher(dr)(classes[k]) ==> ClassMatcher(dr)(classes[i]);
  }

  /**
   * In the table of drill.cpp "rafix VB 135/16 drill" repeats "rafix VB 35/16 drill",
   * "DU 232 30mm" repeats "for rafix DU 321", and both DU 853 and DU 868 lie
   * inside "dowel 8x60 face": none of the four is ever reported.
   */
  lemma UnreachableTableClasses(dr: Drill)
    ensures var r := FirstIndex(ClassTable(), ClassMatcher(dr));
      r != Some(8) && r != Some(10) && r != Some(11) && r != Some(12)
  {
    var t := ClassTable();
    ShadowingPairs();
    ShadowedNeverFirst(t, 7, 8, dr);
    ShadowedNeverFirst(t, 9, 10, dr);
    ShadowedNeverFirst(t, 5, 11, dr);
    ShadowedNeverFirst(t, 5, 12, dr);
  }

  lemma ShadowingPairs()
    ensures |ClassTable()| == 18
    ensures Covers(ClassTable()[7], ClassTable()[8]) && Covers(ClassTable()[9], ClassTable()[10])
    ensures Covers(ClassTable()[5], ClassTable()[11]) && Covers(ClassTable()[5], ClassTable()[12])
  {
    var t := ClassTable();
    assert t[5] == DowelClasses()[3];
    assert t[7] == RafixClasses()[1] && t[8] == RafixClasses()[2] && t[9] == RafixClasses()[3];
    assert t[10] == DuClasses()[0] && t[11] == DuClasses()[1] && t[12] == DuClasses()[2];
  }

  /** A 6.4 mm through hole 10 mm deep is a Konfirmat head, not its blind thread. */
  lemma KonfirmatHeadExample()
    ensures Classify(ClassTable(), Drill(6.4, 0.0, 0.0, 0.0, 10.0, SideFront))
      == Some(ClassTable()[0])
    ensures !ClassMatches(ClassTable()[1], Drill(6.4, 0.0, 0.0, 0.0, 10.0, SideFront))
  {
    var dr := Drill(6.4, 0.0, 0.0, 0.0, 10.0, SideFront);
    FirstIndexUnique(ClassTable(), ClassMatcher(dr), 0);
  }

  // ---------------------------------------------------------------------
  // The ledger of appended drills
  // ---------------------------------------------------------------------

  /** drill_append on the item list: add to the first equivalent item, or append a new one. */
  function AppendSpec(items: seq<DrillItem>, dr: Drill, amount: nat): seq<DrillItem> {
    var item := DrillItem(dr, amount);
    match FirstIndex(items, ParamsMatcher(item))
    case Some(k) => items[k := items[k].(amount := items[k].amount + amount)]
    case None => items + [item]
  }

  /** No two stored items are merged by drill_params_cmp_fn. */
  ghost predicate Distinct(items: seq<DrillItem>) {
    forall i, j :: 0 <= i < j < |items| ==> !SameParams(items[i], items[j])
  }

  /** The total drill_print_stat prints: the sum of the items' amounts. */
  function TotalAmount(items: seq<DrillItem>): nat {
    if |items| == 0 then 0 else TotalAmount(items[..|items| - 1]) + items[|items| - 1].amount
  }

  /** Appending either merges into the first equivalent item, count unchanged, or adds one item at the end. */
  lemma AppendMergesOrInserts(items: seq<DrillItem>, dr: Drill, amount: nat)
    ensures var r := AppendSpec(items, dr, amount);
      match FirstIndex(items, ParamsMatcher(DrillItem(dr, amount)))
      case Some(k) =>
        && |r| == |items|
        && SameParams(items[k], DrillItem(dr, amount))
        && r[k] == DrillItem(items[k].dr, items[k].amount + amount)
        && forall j :: 0 <= j < |items| && j != k ==> r[j] == items[j]
      case None =>
        && |r| == |items| + 1 && r[..|items|] == items && r[|items|] == DrillItem(dr, amount)
        && forall j :: 0 <= j < |items| ==> !SameParams(items[j], DrillItem(dr, amount))
  {
  }

  lemma {:induction false} TotalAmountAppend(items: seq<DrillItem>, x: DrillItem)
    ensures TotalAmount(items + [x]) == TotalAmount(items) + x.amount
  {
    assert (items + [x])[..|items|] == items;
  }

  lemma {:induction false} TotalAmountUpdate(items: seq<DrillItem>, k: nat, x: DrillItem)
    requires k < |items|
    ensures TotalAmount(items[k := x]) + items[k].amount == TotalAmount(items) + x.amount
    decreases |items|
  {
    var n := |items|;
    var u := items[k := x];
    if k == n - 1 {
      assert u[..n - 1] == items[..n - 1];
    } else {
      assert u[..n - 1] == items[..n - 1][k := x];
      TotalAmountUpdate(items[..n - 1], k, x);
    }
  }

  /** drill_append keeps the items pairwise distinct and adds exactly `amount` to the total. */
  lemma {:induction false} AppendKeepsLedgerInvariant(items: seq<DrillItem>, dr: Drill, amount: nat)
    requires Distinct(items)
    ensures Distinct(AppendSpec(items, dr, amount))
    ensures TotalAmount(AppendSpec(items, dr, amount)) == TotalAmount(items) + amount
  {
    var item := DrillItem(dr, amount);
    var r := AppendSpec(items, dr, amount);
    match FirstIndex(items, ParamsMatcher(item))
    case Some(k) =>
      var merged := items[k].(amount := items[k].amount + amount);
      assert r == items[k := merged];
      forall i, j | 0 <= i < j < |r| ensures !SameParams(r[i], r[j]) {
        assert SameParams(r[i], r[j]) == SameParams(items[i], items[j]);
      }
      TotalAmountUpdate(items, k, merged);
    case None =>
      assert r == items + [item];
      forall i, j | 0 <= i < j < |r| ensures !SameParams(r[i], r[j]) {
        if j == |items| {
          assert !ParamsMatcher(item)(items[i]);
        }
      }
      TotalAmountAppend(items, item);
  }

  /** The items after a run of drill_append calls from an empty ledger. */
  function Ledger(appended: seq<(Drill, nat)>): seq<DrillItem> {
    if |appended| == 0 then []
    else
      var last := appended[|appended| - 1];
      AppendSpec(Ledger(appended[..|appended| - 1]), last.0, last.1)
  }

  /** The sum of all amounts ever appended. */
  function AppendedAmount(appended: seq<(Drill, nat)>): nat {
    if |appended| == 0 then 0
    else AppendedAmount(appended[..|appended| - 1]) + appended[|appended| - 1].1
  }

  /**
   * After any sequence of appends no two items are equivalent, no more items
   * exist than appends, and the printed total is the sum of the appended amounts.
   */
  lemma {:induction false} LedgerInvariant(appended: seq<(Drill, nat)>)
    ensures Distinct(Ledger(appended))
    ensures |Ledger(appended)| <= |appended|
    ensures TotalAmount(Ledger(appended)) == AppendedAmount(appended)
  {
    if |appended| > 0 {
      var prefix := appended[..|appended| - 1];
      var last := appended[|appended| - 1];
      LedgerInvariant(prefix);
      AppendKeepsLedgerInvariant(Ledger(prefix), last.0, last.1);
      AppendMergesOrInserts(Ledger(prefix), last.0, last.1);
    }
  }

  /** Drills that differ only in face side versus edge side never share an item. */
  lemma FaceAndEdgeDrillsStaySeparate(d: real, depth: real, a: nat, b: nat)
    ensures |Ledger([(Drill(d, 0.0, 0.0, depth, 0.0, SideFront), a),
                    (Drill(d, 0.0, 0.0, depth, 0.0, SideBack), b),
                    (Drill(d, 0.0, 0.0, depth, 0.0, SideLeft), 1)])| == 2
    ensures Ledger([(Drill(d, 0.0, 0.0, depth, 0.0, SideFront), a),
                    (Drill(d, 0.0, 0.0, depth, 0.0, SideBack), b)])[0].amount == a + b
  {
    var front := (Drill(d, 0.0, 0.0, depth, 0.0, SideFront), a);
    var back := (Drill(d, 0.0, 0.0, depth, 0.0, SideBack), b);
    var left := (Drill(d, 0.0, 0.0, depth, 0.0, SideLeft), 1);
    var h1 := [front];
    var h2 := [front, back];
    var h3 := [front, back, left];
    assert h3[..2] == h2 && h2[..1] == h1 && h1[..0] == [];
    assert Ledger(h1[..0]) == [];
    FirstIndexUnique([], ParamsMatcher(DrillItem(front.0, a)), -1);
    var l1 := Ledger(h1);
    assert l1 == [DrillItem(front.0, a)];
    FirstIndexUnique(l1, ParamsMatcher(DrillItem(back.0, b)), 0);
    var l2 := Ledger(h2);
    assert l2 == [DrillItem(front.0, a + b)];
    FirstIndexUnique(l2, ParamsMatcher(DrillItem(left.0, 1)), -1);
  }

  // ---------------------------------------------------------------------
  // _joints_init_values, class half, on the class collection
  // ---------------------------------------------------------------------

  /** _add_drill_class: append one class to the collection. */
  method AddDrillClass(classes: GrowableArray<DrillClass>, dc: DrillClass)
    requires classes.Valid()
    modifies classes.Repr
    ensures classes.Valid() && fresh(classes.Repr - old(classes.Repr))
    ensures classes.Contents() == old(classes.Contents()) + [dc]
  {
    var _ := classes.Insert(dc);
  }

  /** The classes _joints_init_values adds, in the order of drill.cpp. */
  method InitClassValues(classes: GrowableArray<DrillClass>)
    requires classes.Valid()
    modifies classes.Repr
    ensures classes.Valid() && fresh(classes.Repr - old(classes.Repr))
    ensures classes.Contents() == old(classes.Contents()) + ClassTable()
  {
    AddDrillClasses(classes, ClassTable());
  }

  /** One _add_drill_class call per entry of `table`, in order. */
  method AddDrillClasses(classes: GrowableArray<DrillClass>, table: seq<DrillClass>)
    requires classes.Valid()
    modifies classes.Repr
    ensures classes.Valid() && fresh(classes.Repr - old(classes.Repr))
    ensures classes.Contents() == old(classes.Contents()) + table
  {
    for i := 0 to |table|
      invariant classes.Valid() && fresh(classes.Repr - old(classes.Repr))
      invariant classes.Contents() == old(classes.Contents()) + table[..i]
    {
      AddDrillClass(classes, table[i]);
      assert table[..i + 1] == table[..i] + [table[i]];
    }
    assert table[..|table|] == table;
  }

  // ---------------------------------------------------------------------
  // The module's static state
  // ---------------------------------------------------------------------

  /** One line of drill_print_stat: the item and the name of its class, or "NONE". */
  datatype StatLine = StatLine(item: DrillItem, className: string)

  function StatLineFor(item: DrillItem, classes: seq<DrillClass>): StatLine {
    match Classify(classes, item.dr)
    case Some(dc) => StatLine(item, dc.name)
    case None => StatLine(item, "NONE")
  }

  /** The static `drills` and `drill_classes` arrays of drill.cpp. */
  class DrillRegistry {
    var drills: GrowableArray<DrillItem>
    var drillClasses: GrowableArray<DrillClass>
    ghost var Repr: set<object>

    ghost predicate Valid()
      reads this, Repr
    {
      && this in Repr && drills in Repr && drillClasses in Repr
      && drills.Repr <= Repr && drillClasses.Repr <= Repr
      && this !in drills.Repr && this !in drillClasses.Repr
      && drills.Repr !! drillClasses.Repr
      && drills.Valid() && drillClasses.Valid()
    }

    ghost function Items(): seq<DrillItem>
      reads this, Repr
      requires Valid()
    {
      drills.Contents()
    }

    ghost function Classes(): seq<DrillClass>
      reads this, Repr
      requires Valid()
    {
      drillClasses.Contents()
    }

    /** drill_init: empty ledger, class table filled by _joints_init_values. */
    constructor Init()
      ensures Valid() && fresh(Repr)
      ensures Items() == [] && Classes() == ClassTable()
    {
      var items := new GrowableArray<DrillItem>.Init(DrillItemSize);
      var classes := new GrowableArray<DrillClass>.Init(DrillClassSize);
      ghost var table := ClassTable();
      InitClassValues(classes);
      assert classes.Contents() == [] + table == table;
      drills := items;
      drillClasses := classes;
      new;
      Repr := {this} + drills.Repr + drillClasses.Repr;
    }

    /** _drill_find_class: the first class in insertion order that accepts the drill. */
    method FindClass(dr: Drill) returns (r: Option<DrillClass>)
      requires Valid()
      ensures r == Classify(Classes(), dr)
    {
      var k := drillClasses.FindElement(ClassMatcher(dr));
      match k
      case None => r := None;
      case Some(i) => r := Some(drillClasses.GetElement(i));
    }

    /** drill_append: add `amount` to the first equivalent item, or insert a new item. */
    method Append(dr: Drill, amount: nat)
      requires Valid()
      modifies Repr
      ensures Valid() && fresh(Repr - old(Repr))
      ensures Items() == AppendSpec(old(Items()), dr, amount)
      ensures Classes() == old(Classes())
    {
      var item := DrillItem(dr, amount);
      var found := drills.FindElement(ParamsMatcher(item));
      match found
      case Some(k) =>
        var existing := drills.GetElement(k);
        drills.SetElement(k, existing.(amount := existing.amount + amount));
      case None =>
        var _ := drills.Insert(item);
        Repr := Repr + drills.Repr;
    }

    /** The line drill_print_stat prints for item `i`: the item and its class name. */
    method StatLineAt(i: nat) returns (line: StatLine)
      requires Valid() && i < |Items()|
      ensures line == StatLineFor(Items()[i], Classes())
    {
      var item := drills.GetElement(i);
      var dc := FindClass(item.dr);
      var name := match dc case Some(c) => c.name case None => "NONE";
      line := StatLine(item, name);
    }

    /** drill_print_stat: one classified line per item, and the total amount. */
    method PrintStat() returns (lines: seq<StatLine>, total: nat)
      requires Valid()
      ensures |lines| == |Items()|
      ensures forall i :: 0 <= i < |lines| ==> lines[i] == StatLineFor(Items()[i], Classes())
      ensures total == TotalAmount(Items())
    {
      ghost var items, classes := Items(), Classes();
      lines, total := [], 0;
      var i := 0;
      while i < drills.Count()
        invariant Items() == items && Classes() == classes
        invariant 0 <= i <= |items|
        invariant |lines| == i
        invariant forall j :: 0 <= j < i ==> lines[j] == StatLineFor(items[j], classes)
        invariant total == TotalAmount(items[..i])
      {
        var line := StatLineAt(i);
        lines := lines + [line];
        assert items[..i + 1] == items[..i] + [line.item];
        TotalAmountAppend(items[..i], line.item);
        total := total + line.item.amount;
        i := i + 1;
      }
      assert items[..i] == items;
    }

    /** drill_deinit: both collections emptied and their storage dropped. */
    method Deinit()
      requires Valid()
      modifies Repr
      ensures Valid() && Repr <= old(Repr)
      ensures Items() == [] && Classes() == []
    {
      drills.Free();
      drillClasses.Free();
    }
  }
}
