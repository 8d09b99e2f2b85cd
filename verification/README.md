# Viyar project import for SketchUp: a Dafny model

skptools' `xmllitereader` reads a Viyar furniture project. This is an XML
document that lists sheet and band materials and the panels ("details") cut
from them: sizes, edge banding per side, and machining operations (drills,
corner notches, …). It builds a SketchUp model from the document. Each panel
becomes a component and has:

- a front face in the shape of the outline, reshaped by corner operations;
- one band quad per outline edge;
- a back face;
- a circle–circle–axis triple for every drilled hole.

The component's instances are laid out on the floor by a two-direction shelf
packer and stacked for multiple copies. A side registry (`drill.cpp`) groups
identical drills and classifies them against a fixed table of drill classes.
The growable vector `ARRAY_T` (`common.cpp`) holds its data.

Files and modules:

- `common.dfy` (`Common`): the macros and constants of `common.h`, `Option`.
- `growable_array.dfy` (`Arrays`): `ARRAY_T` as a class over a reallocated
  array, with `FirstIndex` as the specification of `array_find_element`.
- `drill.dfy` (`Drills`): drill/class matching, the class table,
  `DrillRegistry` (init, find class, append, statistics, deinit).
- `viyar_types.dfy` (`ViyarTypes`): the records of `viyar.h`.
- `viyar_reader.dfy` (`ViyarReader`): the reader callbacks of `viyar.cpp`.
  They are modelled twice: as functions on an immutable `Reader`
  (`OnElementStart`, `OnAttribute`, `Run`, …) and as the statics class
  `ProjectReader`, whose methods are proved equal to those functions. The XML
  itself is abstracted to a stream of start/attribute/end events.
- `panel_geometry.dfy` (`PanelGeometry`):
  - corner operations on the fixed 12-slot point and band arrays;
  - the outline, mesh and drill geometry of a panel (`DetailGeometry`);
  - `CreateDetailComponent`, which emits that geometry into an entity `Sink`
    standing for a SketchUp entities collection.
- `layout.dfy` (`Layout`): the packer statics as class `Packer`, instance
  stacking, `AddUpdateDetailComponents`.

Lengths are millimetres in the document and inches in the SketchUp model.
Doubles are modelled as `real`.

## Model

| member | source | states |
|---|---|---|
| Common.Max | xmllitereader/common.h:8 | result is an upper bound of both arguments and equals one of them |
| Common.Min | xmllitereader/common.h:12 | result is a lower bound of both arguments, equals one of them, and is the first when it is smaller |
| Common.MmToInch | xmllitereader/common.h:15 | INCH2MM undoes it; positive lengths shrink and stay positive |
| Common.InchToMm | xmllitereader/common.h:16 | MM2INCH undoes it |
| Arrays.AlignedSize | xmllitereader/common.cpp:12-23 | slot size is the least multiple of ALLIGN_BYTES that holds an element |
| Arrays.GrownSize | xmllitereader/common.cpp:28-38 | growth gives 2 from empty, otherwise doubles |
| Arrays.FirstIndex | xmllitereader/common.cpp:62-74 | the index found matches, no earlier element matches, None only when nothing matches |
| Arrays.FirstIndexAppend | xmllitereader/common.cpp:62-74 | appending an element changes the search result only when nothing matched before |
| Arrays.FirstIndexUnique | xmllitereader/common.cpp:62-74 | the search result is determined by "first match, or none" |
| Arrays.GrowableArray.Init | xmllitereader/common.cpp:14-24 | no storage, nothing used, padded slot size recorded |
| Arrays.GrowableArray.Insert | xmllitereader/common.cpp:26-43 | contents gain the element at the end; capacity grows only when full, by GrownSize; returns the slot written |
| Arrays.GrowableArray.Count | xmllitereader/common.cpp:50-53 | count is the number of elements inserted |
| Arrays.GrowableArray.GetElement | xmllitereader/common.cpp:45-48 | returns the element at that position |
| Arrays.GrowableArray.SetElement | xmllitereader/common.cpp:45-48 | a write through the returned slot changes exactly that element |
| Arrays.GrowableArray.Free | xmllitereader/common.cpp:55-60 | storage dropped, contents empty, counters zero |
| Arrays.GrowableArray.FindElement | xmllitereader/common.cpp:62-74 | returns FirstIndex of the contents under the comparison callback |
| Drills.ClassMatches | xmllitereader/drill.cpp:103-140 | a class matches iff the diameter is in range, the through flag agrees, and the through or blind depth is in range |
| Drills.SameParams | xmllitereader/drill.cpp:147-182 | face and edge drills never match; otherwise match iff same diameter and same depth (blind) or same through depth |
| Drills.SameParamsIsEquivalence | xmllitereader/drill.cpp:147-182 | the drill comparison is reflexive, symmetric and transitive |
| Drills.Classify | xmllitereader/drill.cpp:142-145 | finds a class iff some class matches, and then the first matching class in table order |
| Drills.ShadowedNeverFirst | xmllitereader/drill.cpp:142-145 | a class whose ranges lie inside an earlier class's is never the one found |
| Drills.ShadowingPairs | xmllitereader/drill.cpp:64-94 | the table has 18 classes; rafix 135/16 is inside rafix 35/16, DU 232 inside "for rafix DU 321", and both DU 853 and DU 868 inside "dowel 8x60 face" |
| Drills.UnreachableTableClasses | xmllitereader/drill.cpp:64-94 | classes 8, 10, 11 and 12 of the table are never the class found |
| Drills.KonfirmatHeadExample | xmllitereader/drill.cpp:64-66 | a 6.4 mm through drill 10 mm deep classifies as the Konfirmat head, not the thread |
| Drills.AppendMergesOrInserts | xmllitereader/drill.cpp:197-214 | append adds the amount to the first item with the same parameters, or inserts a new item at the end |
| Drills.AppendSpec | xmllitereader/drill.cpp:197-214 | drill_append on the item list; its meaning is stated by AppendMergesOrInserts (merge into the first equivalent item or insert at the end) and LedgerInvariant (items stay pairwise distinct and the total grows by the amount) |
| Drills.TotalAmountAppend | xmllitereader/drill.cpp:216-233 | the total of an appended list is the old total plus the new amount |
| Drills.TotalAmountUpdate | xmllitereader/drill.cpp:216-233 | replacing one item changes the total by the difference of the amounts |
| Drills.AppendKeepsLedgerInvariant | xmllitereader/drill.cpp:197-214 | append keeps items pairwise distinct in parameters and raises the total by the amount |
| Drills.LedgerInvariant | xmllitereader/drill.cpp:197-233 | after any appends the items are distinct, no more than the appends, and their total is the sum appended |
| Drills.FaceAndEdgeDrillsStaySeparate | xmllitereader/drill.cpp:147-160 | a face drill and an edge drill of equal size stay two items |
| Drills.AddDrillClass | xmllitereader/drill.cpp:29-41 | the class table gains the class at the end |
| Drills.AddDrillClasses | xmllitereader/drill.cpp:60-94 | the class collection gains exactly the given classes, in order, after what it held |
| Drills.InitClassValues | xmllitereader/drill.cpp:60-94 | the class collection gains exactly the 18 classes of the table, in the order of drill.cpp, after what it held |
| Drills.DrillRegistry.Init | xmllitereader/drill.cpp:188-195 | no drills; the class table is the whole table of drill.cpp |
| Drills.DrillRegistry.FindClass | xmllitereader/drill.cpp:142-145 | returns Classify on the registered table |
| Drills.DrillRegistry.Append | xmllitereader/drill.cpp:197-214 | the items become AppendSpec of the old items; classes untouched |
| Drills.DrillRegistry.StatLineAt | xmllitereader/drill.cpp:216-233 | the line for one item carries that item and the name of its first matching class, or "NONE" |
| Drills.DrillRegistry.PrintStat | xmllitereader/drill.cpp:216-233 | one line per item with its class name ("NONE" when none), and the total amount |
| Drills.DrillRegistry.Deinit | xmllitereader/drill.cpp:235-240 | both collections empty |
| ViyarTypes.ToSize | xmllitereader/viyar.cpp:311-318 | the long to size_t conversion: values in range kept, negatives wrap by 2^64 |
| ViyarTypes.MaterialThickness | xmllitereader/XmlLiteReader.cpp:202-204 | a 1-based id reads its material's thickness; ids past the table read zero |
| ViyarReader.AddOperation | xmllitereader/viyar.cpp:120-126 | the operations array grows by one zeroed entry, nothing else changes |
| ViyarReader.OnElementStart | xmllitereader/viyar.cpp:24-137 | never S_FALSE; materials/details need an open project and reset their table; project opens once; detail starts with all bands 1; edges and operations switch the detail sub-state; edge aborts outside the edges state; operation needs the operations state (and an open detail) and grows its array, else aborts with nothing changed; other names leave the reader unchanged |
| ViyarReader.OnElementEnd | xmllitereader/viyar.cpp:139-184 | closes the project exactly on </project> while opened; </materials> and </details> return to the root state; tables untouched |
| ViyarReader.OnMaterialAttribute | xmllitereader/viyar.cpp:196-266 | E_ABORT with no material open; S_FALSE for other elements; id must equal the count; type sheet or band sets the kind, any other type aborts with nothing changed; a zero thickness aborts; only the last material changes |
| ViyarReader.DetailAttribute | xmllitereader/viyar.cpp:290-368 | id must equal the count; the material must exist and gives the thickness; amount is wrapped to size_t and 0 is accepted; width, height and multiplicity must be positive; a non-empty description names the panel; unknown names give S_FALSE; bands and operations untouched |
| ViyarReader.EdgeSide | xmllitereader/viyar.cpp:381-384 | left/top/right/bottom map to their side ids |
| ViyarReader.EdgeAttribute | xmllitereader/viyar.cpp:369-439 | joint must be "0"; a positive param sets that side's band and widens width or height by the band thickness; other elements give S_FALSE |
| ViyarReader.OperationKind | xmllitereader/viyar.cpp:462-488 | exactly the five type names are recognised, each to its own kind and each kind from its own name |
| ViyarReader.OperationAttribute | xmllitereader/viyar.cpp:445-566 | E_ABORT with no operation; id must equal the count; only the last operation changes |
| ViyarReader.OnDetailAttribute | xmllitereader/viyar.cpp:268-574 | S_FALSE on the details element; E_ABORT with no detail; otherwise only the last detail changes |
| ViyarReader.OnAttribute | xmllitereader/viyar.cpp:577-599 | dispatch by state: root gives S_FALSE, materials and details go to their parsers; states never change |
| ViyarReader.StepModelTransition | xmllitereader/viyar.cpp:30-38 | the model state moves only none→opened on <project> and opened→closed on </project> |
| ViyarReader.RunAcceptsOnlyClosed | xmllitereader/viyar.cpp:832 | a parse never returns S_FALSE, and returns S_OK only with the model closed |
| ViyarReader.Step | xmllitereader/viyar.cpp:725-776 | one reader callback: an element start goes to _element_start (which WriteAttributes calls first), each attribute to _parse_element, an element end (also the implicit one of an empty element) to _element_end, which never fails; StepModelTransition states the only model-state moves |
| ViyarReader.Run | xmllitereader/viyar.cpp:725-832 | the parse loop: stop at the first failing callback, else S_OK only with the project closed; stated by RunAcceptsOnlyClosed, AcceptedRunOpensThenClosesProject and RunKeepsConsistent |
| ViyarReader.AcceptedRunOpensThenClosesProject | xmllitereader/viyar.cpp:725-832 | an accepted parse from scratch contains <project> and later </project> |
| ViyarReader.EdgeAttributeKeepsBands | xmllitereader/viyar.cpp:369-439 | edge attributes never touch the front and back bands and keep every band at least 1 |
| ViyarReader.StepKeepsConsistent | xmllitereader/viyar.cpp:24-599 | a successful callback keeps "collections only inside an open project, bands ≥ 1, front/back bands 1" |
| ViyarReader.StartKeepsConsistent | xmllitereader/viyar.cpp:24-137 | an accepted element start keeps the statics consistent; a new operation leaves every band as it was |
| ViyarReader.AttributeKeepsConsistent | xmllitereader/viyar.cpp:577-599 | an accepted attribute keeps the statics consistent: only the last detail changes, and its front and back bands stay 1 |
| ViyarReader.RunKeepsConsistent | xmllitereader/viyar.cpp:725-832 | an accepted parse leaves the statics consistent |
| ViyarReader.InitialReaderConsistent | xmllitereader/viyar.cpp:24-64 | the initial statics are consistent |
| ViyarReader.OperationBeforeAnyDetail | xmllitereader/viyar.cpp:113-122 | with no detail open, the check in _element_start lets <operation> through into details[-1]; the guarded start aborts |
| ViyarReader.OperationStartInBounds | xmllitereader/viyar.cpp:113-122 | every accepted <operation> start grows an existing detail |
| ViyarReader.ProjectReader.constructor | xmllitereader/viyar.cpp:24-64 | statics start at the root state with no model and empty tables |
| ViyarReader.ProjectReader.ElementStart | xmllitereader/viyar.cpp:24-137 | status and new statics are OnElementStart of the old statics |
| ViyarReader.ProjectReader.ElementEnd | xmllitereader/viyar.cpp:139-184 | new statics are OnElementEnd of the old |
| ViyarReader.ProjectReader.ParseMaterial | xmllitereader/viyar.cpp:196-266 | status and statics are OnMaterialAttribute of the old statics |
| ViyarReader.ProjectReader.ParseDetail | xmllitereader/viyar.cpp:268-574 | status and statics are OnDetailAttribute of the old statics |
| ViyarReader.ProjectReader.ParseElement | xmllitereader/viyar.cpp:577-599 | status and statics are OnAttribute of the old statics |
| ViyarReader.ProjectReader.Parse | xmllitereader/viyar.cpp:666-839 | status and final statics are Run over the event stream: stop at the first failure, else S_OK iff the model is closed |
| PanelGeometry.Sink.constructor | xmllitereader/XmlLiteReader.cpp:90-110 | an entities collection starts empty |
| PanelGeometry.Sink.Add | xmllitereader/XmlLiteReader.cpp:90-110 | adding appends exactly that entity |
| PanelGeometry.Clip | xmllitereader/XmlLiteReader.cpp:197-226 | a covered run takes the edge material and loses its thickness across the notch; uncovered runs keep tag 1; no edge material leaves the notch unchanged |
| PanelGeometry.CornerVertices | xmllitereader/XmlLiteReader.cpp:229-316 | a notch yields 3 vertices (2 without subtype 3), all on the corner's plane |
| PanelGeometry.CornerOpOutline | xmllitereader/XmlLiteReader.cpp:188-194 | without an operation the vertex is kept as it is; otherwise 2 or 3 vertices |
| PanelGeometry.CornerNotchVertices | xmllitereader/XmlLiteReader.cpp:229-316 | LL (X,0),(X,Y),(0,Y); UL (0,H−Y),(X,H−Y),(2X,H); UR (W−X,H),(W−X,H−Y),(W,H−Y); LR (W,Y),(W−X,Y),(W−X,0) |
| PanelGeometry.UpperLeftNotchSkewed | xmllitereader/XmlLiteReader.cpp:266-271 | the upper-left notch closes with an axis-parallel edge only when X = 0 or Y = 0; the other three always do |
| PanelGeometry.RegisterCorners | xmllitereader/XmlLiteReader.cpp:330-363 | the corner table has one entry per corner |
| PanelGeometry.RegisterCornersSpec | xmllitereader/XmlLiteReader.cpp:330-363 | −1 iff some corner operation names a corner outside 1..4; otherwise each corner holds the last subtype-3, ext-1 operation for it, or nothing |
| PanelGeometry.RegisterCornersRefused | xmllitereader/XmlLiteReader.cpp:330-342 | the table is refused iff some corner operation names a corner outside 1..4 |
| PanelGeometry.RegisterCornerEntry | xmllitereader/XmlLiteReader.cpp:344-355 | in an accepted table a corner holds the last subtype-3, ext-1 operation for it, and is empty iff there is none |
| PanelGeometry.RegisteredCornersNotch | xmllitereader/XmlLiteReader.cpp:344-355 | every registered operation has subtype 3 |
| PanelGeometry.CornerRun | xmllitereader/XmlLiteReader.cpp:429-434 | 1 to 3 vertices; the last carries the band of the side following the corner; an unoperated corner is the plain rectangle corner |
| PanelGeometry.OutlineUpTo | xmllitereader/XmlLiteReader.cpp:429-434 | k corners give between k and 3k vertices |
| PanelGeometry.PlainRectangleOutline | xmllitereader/XmlLiteReader.cpp:366-434 | without corner operations the outline is the front rectangle with edges tagged left, top, right, bottom bands |
| PanelGeometry.OutlineLength | xmllitereader/XmlLiteReader.cpp:414-434 | with k notched corners the outline has 4 + 2k ≤ 12 vertices |
| PanelGeometry.FlattenAll | xmllitereader/XmlLiteReader.cpp:477-480 | every vertex dropped to z = 0, order kept |
| PanelGeometry.InchesAll | xmllitereader/XmlLiteReader.cpp:436-441 | every vertex converted to inches, order kept |
| PanelGeometry.BandFaces | xmllitereader/XmlLiteReader.cpp:446-468 | quad j joins vertex j to vertex j+1 (mod n) down to z = 0 in the tag of edge j |
| PanelGeometry.PanelMeshShape | xmllitereader/XmlLiteReader.cpp:444-482 | n vertices give n + 2 faces: front, n band quads, back at z = 0 |
| PanelGeometry.PanelMesh | xmllitereader/XmlLiteReader.cpp:444-482 | front face, one band quad per edge, back face at z = 0; stated by PanelMeshShape |
| PanelGeometry.FrontMaterial | xmllitereader/XmlLiteReader.cpp:436-444 | the front face takes the front band's material; BackMaterial falls back to it when the back band is 0 |
| PanelGeometry.BackMaterial | xmllitereader/XmlLiteReader.cpp:470-475 | the back band when nonzero, else the front face's material |
| PanelGeometry.SideNormalsPointInward | xmllitereader/XmlLiteReader.cpp:366-412 | each side's origin lies on the panel and its unit normal leads into the panel across its extent |
| PanelGeometry.FrontCorner | xmllitereader/XmlLiteReader.cpp:366-412 | the front rectangle's corners at z = thickness, lower-left first and clockwise; PlainRectangleOutline states the outline they give |
| PanelGeometry.SideOrigin | xmllitereader/XmlLiteReader.cpp:366-412 | the corner each side's drill positions are measured from; SideNormalsPointInward states that it lies on the panel |
| PanelGeometry.SideNormal | xmllitereader/XmlLiteReader.cpp:366-412 | each side's drilling direction; SideNormalsPointInward states it is a unit axis vector leading into the panel across its extent |
| PanelGeometry.DrillDepth | xmllitereader/XmlLiteReader.cpp:491-498 | front and back drills are clamped to the thickness; edge drills keep their depth |
| PanelGeometry.DrillCenter | xmllitereader/XmlLiteReader.cpp:116-139 | the hole centre in inches: top/bottom take z − y, other sides y + y; left/right take z − x, other sides x + x |
| PanelGeometry.ArcStart | xmllitereader/XmlLiteReader.cpp:141-150 | the arc start lies one radius from the centre, in the plane across the side's drilling direction |
| PanelGeometry.DrillEntities | xmllitereader/XmlLiteReader.cpp:114-185 | two 16-segment circles around the hole's axis, the second depth along the side's normal, joined by the axis edge |
| PanelGeometry.DrillInsidePanel | xmllitereader/XmlLiteReader.cpp:484-503 | a drill whose mouth lies on its side's face has both circle centres inside the panel: on the front and back for any depth, thanks to the clamp; on the edges when the depth stays within the panel |
| PanelGeometry.UnclampedFrontDrillLeavesPanel | xmllitereader/XmlLiteReader.cpp:494-498 | without the clamp, a front drill deeper than the panel would end outside it |
| PanelGeometry.SideDrills | xmllitereader/XmlLiteReader.cpp:487-502 | the entities come in triples |
| PanelGeometry.SideDrillsCount | xmllitereader/XmlLiteReader.cpp:487-502 | exactly three entities per drilling operation on that side |
| PanelGeometry.SetLast | xmllitereader/XmlLiteReader.cpp:229-316 | overwrites the last filled vertex and its tag only |
| PanelGeometry.Push | xmllitereader/XmlLiteReader.cpp:229-316 | appends one vertex and its tag, nothing past it changes |
| PanelGeometry.ComputeClip | xmllitereader/XmlLiteReader.cpp:197-226 | computes Clip |
| PanelGeometry.CornerRunVertices | xmllitereader/XmlLiteReader.cpp:229-316 | computes the vertices and tags of CornerVertices |
| PanelGeometry.ApplyCornerOperation | xmllitereader/XmlLiteReader.cpp:188-317 | the arrays' filled prefix becomes the old prefix with its last vertex replaced by CornerOpOutline |
| PanelGeometry.BuildOutline | xmllitereader/XmlLiteReader.cpp:414-434 | the filled arrays are the outline of the four corners |
| PanelGeometry.AddCorner | xmllitereader/XmlLiteReader.cpp:429-434 | one corner pass extends the filled outline of the earlier corners by that corner's run, and leaves the unused band slots 0 |
| PanelGeometry.RegisterCornerOperations | xmllitereader/XmlLiteReader.cpp:330-363 | returns RegisterCorners of the operations |
| PanelGeometry.ConvertToInches | xmllitereader/XmlLiteReader.cpp:436-441 | the filled vertices become InchesAll of themselves |
| PanelGeometry.EmitBandQuads | xmllitereader/XmlLiteReader.cpp:446-468 | appends BandFaces |
| PanelGeometry.FlattenPoints | xmllitereader/XmlLiteReader.cpp:477-480 | the filled vertices become FlattenAll of themselves |
| PanelGeometry.EmitPanelMesh | xmllitereader/XmlLiteReader.cpp:444-482 | appends PanelMesh of the outline |
| PanelGeometry.EmitBackFace | xmllitereader/XmlLiteReader.cpp:477-482 | the filled vertices are flattened in place and the back face is appended on them |
| PanelGeometry.EmitDrills | xmllitereader/XmlLiteReader.cpp:484-503 | appends every side's drills, side by side in operation order |
| PanelGeometry.EmitSideDrills | xmllitereader/XmlLiteReader.cpp:486-502 | appends the holes of one side, operations in order |
| PanelGeometry.EmitDrill | xmllitereader/XmlLiteReader.cpp:488-501 | appends the circle-circle-axis triple of a drilling operation on that side at its clamped depth, and nothing otherwise |
| PanelGeometry.EmitOutlineMesh | xmllitereader/XmlLiteReader.cpp:414-482 | appends the mesh of the panel's outline in inches |
| PanelGeometry.CreateDetailComponent | xmllitereader/XmlLiteReader.cpp:319-505 | −1 with nothing emitted iff a corner is bad; otherwise 0 with DetailGeometry appended |
| PanelGeometry.DetailGeometry | xmllitereader/XmlLiteReader.cpp:319-505 | None exactly when some corner operation names a corner outside 1..4; otherwise the panel mesh followed by the drills of all six sides |
| Layout.NextPlacement | xmllitereader/XmlLiteReader.cpp:659-701 | extents never shrink and absorb the last position; the wrap conditions and new run origins; only the coordinate of the new direction advances, by size + 50 |
| Layout.PlaceKeepsInvariant | xmllitereader/XmlLiteReader.cpp:659-701 | a placement keeps the packer invariant and puts the new footprint clear of all earlier ones |
| Layout.PackAll | xmllitereader/XmlLiteReader.cpp:659-701 | one footprint per panel, with that panel's size |
| Layout.PackAllSeparated | xmllitereader/XmlLiteReader.cpp:659-701 | panels of nonnegative size placed from any packer state have pairwise separated footprints |
| Layout.Packer.constructor | xmllitereader/XmlLiteReader.cpp:63-67 | the statics start at zero, direction 0 |
| Layout.Packer.Place | xmllitereader/XmlLiteReader.cpp:659-701 | position and new statics are NextPlacement of the old statics |
| Layout.StackedCopiesClear | xmllitereader/XmlLiteReader.cpp:712-714 | stacked copies of a panel with positive thickness stand clear of each other |
| Layout.StackedInstances | xmllitereader/XmlLiteReader.cpp:703-721 | amount − existing instances, all at the placed x, y: the first on the floor, copy k at (existing + k)·thickness·3 |
| Layout.StackInstances | xmllitereader/XmlLiteReader.cpp:703-721 | appends StackedInstances to the model's entities |
| Layout.AddInstances | xmllitereader/XmlLiteReader.cpp:655-722 | the packer advances by one placement and the instances are appended |
| Layout.AddUpdateDetailComponents | xmllitereader/XmlLiteReader.cpp:507-730 | amount 0 changes nothing; otherwise the component gets the panel geometry; the packer moves only when instances are missing |

## Left out

- SketchUp API calls (model, entities, faces, materials, components,
  transforms) are replaced by the `Sink` entity collections. The
  component lookup, creation and face erasing in `_add_update_detail_components`
  (XmlLiteReader.cpp:534-647) is not part of this model. The number of
  instances a found component already has is the parameter `existing`.
- The material resolution, colour tiering and saving in XmlLiteReader.cpp:732-898
  are not part of this model. Faces record the 1-based material id; 0 stands for
  no material.
- The XmlLite reader loop (`parse_xml`, `WriteAttributes`) is abstracted to
  an event stream. Declarations, text, comments and default attributes are
  not modelled. Each attribute value arrives already converted by `_wtol` and
  `_wtof`.
- `_wtol` returns a 32-bit long; the model's longs are unbounded integers.
- Floating point is modelled as exact real arithmetic.
- Failures of `realloc`, `_wcsdup` and `new` are not modelled.
- The fixed capacities of the statics are not modelled:
  - 100 details, 10 materials, 12 outline points. `OutlineLength` shows 12
    suffices for notching operations.
  - Material ids past the filled entries read zeroed storage, modelled as
    thickness 0.
- A newly reallocated `OPERATION_T` is uninitialised in viyar.cpp; the model
  starts it zeroed.
- The joint table of drill.cpp (`_add_joint`, the `joints` array) holds data
  that nothing reads; it is left out. `DrillRegistry.Deinit` frees only the
  drills and the classes.
- Drills.DrillRegistry.PrintStat: the total is an unbounded natural; the
  `size_t` sum of drill.cpp could wrap, which the model does not show.
- Drills.AppendSpec: the merged amount is an unbounded natural; drill.cpp:207
  adds into a `size_t`, which could wrap, and the model does not show that.
- Drills.DrillRegistry.Append: follows AppendSpec, so the same `size_t` wrap
  of the merged amount is not shown.
- Logging and printing are left out.
- The unreachable `default:` arms of the state switches are left out.
- Header/source mismatches in the repository: `array_insert` is declared to
  return nothing while its callers use the slot; the model returns the slot
  index. `common.h` lacks the `alligned_element_size` field that
  `common.cpp` uses; the model has it.
- Layout.NextPlacement and Layout.PackAllSeparated: separation is proved
  for nonnegative widths and heights only.

## Findings

| source | as written | input that shows it | evidently intended | confidence | as-written member | corrected member |
|---|---|---|---|---|---|---|
| xmllitereader/viyar.cpp:113-122 | `<operation>` is accepted whenever the detail state is "operations", and then `details[_details_cnt-1]` is grown even when no `<detail>` has been opened (index −1) | `<project><details><operations><operation>` | reject an `<operation>` start when no detail is open | not executed | ViyarReader.OperationBeforeAnyDetail | ViyarReader.OperationStartInBounds |

The reader's `Consistent` invariant also shows that every parsed detail keeps
front and back bands equal to 1. So the back-face fallback to the front
material in `_create_detail_component` is never taken for parsed panels.
Parsed panels are still modelled exactly as XmlLiteReader.cpp builds them.
