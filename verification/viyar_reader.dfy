// The project-document state machine and attribute validators
// (xmllitereader/viyar.cpp), driven by a stream of reader events.

module ViyarReader {
  import opened Common
  import opened ViyarTypes

  /** HRESULT values the callbacks return; only E_ABORT counts as FAILED. */
  datatype Status = SOk | SFalse | EAbort

  predicate Failed(hr: Status) {
    hr == EAbort
  }

  /** VIYAR_STATE_T: which top-level collection is being read. */
  datatype ReaderState = StateRoot | StateMaterials | StateDetails

  /** MODEL_STATE_T: whether <project> has been opened and closed. */
  datatype ModelState = ModelNone | ModelOpened | ModelClosed

  /** DETAIL_STATE_T: which part of a <detail> is being read. */
  datatype DetailState = DetailAttr | DetailEdges | DetailOperations

  /** An attribute value with its _wtol and _wtof conversions already applied. */
  datatype AttrValue = AttrValue(text: string, asLong: int, asDouble: real)

  /**
   * The module's static state: the three state variables, the filled entries
   * of model_materials (their number is _materials_cnt) and of details
   * (their number is _details_cnt).
   */
  datatype Reader = Reader(
    state: ReaderState,
    modelState: ModelState,
    detailState: DetailState,
    materials: seq<MaterialDef>,
    details: seq<DetailDef>)

  /** The statics before the first callback. */
  const InitialReader := Reader(StateRoot, ModelNone, DetailAttr, [], [])

  /** A callback's return value together with the statics it leaves behind. */
  datatype Outcome = Outcome(status: Status, reader: Reader)

  /** A callback's return value together with the detail record it leaves behind. */
  datatype DetailOutcome = DetailOutcome(status: Status, detail: DetailDef)

  /** The record a <detail> start fills: zeroed, with every band set to material 1. */
  const NewDetail := ZeroDetail.(mBands := [1, 1, 1, 1, 1, 1])

  /** One more (zeroed) slot in a detail's operations array. */
  function AddOperation(d: DetailDef): (r: DetailDef)
    ensures r.operations == d.operations + [ZeroOperation]
    ensures r == d.(operations := r.operations)
  {
    d.(operations := d.operations + [ZeroOperation])
  }

  // ---------------------------------------------------------------------
  // _element_start and _element_end
  // ---------------------------------------------------------------------

  /** _element_start, with the guard the "operation" case needs (see the findings). */
  function OnElementStart(r: Reader, name: string): (o: Outcome)
    ensures o.status != SFalse
    ensures r.state == StateRoot && (name == "materials" || name == "details") ==>
      (o.status == SOk <==> r.modelState == ModelOpened)
    ensures r.state == StateRoot && name == "materials" && o.status == SOk ==>
      o.reader == r.(state := StateMaterials, materials := [])
    ensures r.state == StateRoot && name == "details" && o.status == SOk ==>
      o.reader == r.(state := StateDetails, details := [])
    ensures r.state == StateRoot && name == "project" ==>
      o.status == SOk &&
      o.reader == if r.modelState == ModelNone then r.(modelState := ModelOpened) else r
    ensures r.state == StateMaterials ==>
      o.status == SOk &&
      o.reader == if name == "material" then r.(materials := r.materials + [ZeroMaterial]) else r
    ensures r.state == StateDetails && name == "detail" ==>
      && o.status == SOk
      && o.reader == r.(details := r.details + [NewDetail], detailState := DetailAttr)
      && o.reader.details[|r.details|].mBands == [1, 1, 1, 1, 1, 1]
    ensures r.state == StateDetails && name == "edges" ==> o == Outcome(SOk, r.(detailState := DetailEdges))
    ensures r.state == StateDetails && name == "operations" ==> o == Outcome(SOk, r.(detailState := DetailOperations))
    ensures r.state == StateRoot && name !in {"project", "materials", "details"} ==> o == Outcome(SOk, r)
    ensures r.state == StateDetails && name !in {"detail", "edges", "edge", "operations", "operation"} ==>
      o == Outcome(SOk, r)
    ensures r.state == StateDetails && name == "edge" ==>
      o == Outcome(if r.detailState == DetailEdges then SOk else EAbort, r)
    ensures r.state == StateDetails && name == "operation" ==>
      (o.status == SOk <==> r.detailState == DetailOperations && |r.details| > 0) &&
      (o.status != SOk ==> o == Outcome(EAbort, r))
    ensures r.state == StateDetails && name == "operation" && o.status == SOk ==>
      var i := |r.details| - 1;
      o.reader == r.(details := r.details[i := AddOperation(r.details[i])]) &&
      |o.reader.details[i].operations| == |r.details[i].operations| + 1
    ensures o.reader.modelState == r.modelState ||
      (r.modelState == ModelNone && o.reader.modelState == ModelOpened)
  {
    match r.state
    case StateRoot =>
      if name == "project" then
        Outcome(SOk, if r.modelState == ModelNone then r.(modelState := ModelOpened) else r)
      else if name == "materials" then
        if r.modelState != ModelOpened then Outcome(EAbort, r)
        else Outcome(SOk, r.(state := StateMaterials, materials := []))
      else if name == "details" then
        if r.modelState != ModelOpened then Outcome(EAbort, r)
        else Outcome(SOk, r.(state := StateDetails, details := []))
      else Outcome(SOk, r)
    case StateMaterials =>
      if name == "material" then Outcome(SOk, r.(materials := r.materials + [ZeroMaterial]))
      else Outcome(SOk, r)
    case StateDetails =>
      if name == "detail" then
        Outcome(SOk, r.(details := r.details + [NewDetail], detailState := DetailAttr))
      else if name == "edges" then Outcome(SOk, r.(detailState := DetailEdges))
      else if name == "edge" then
        Outcome(if r.detailState != DetailEdges then EAbort else SOk, r)
      else if name == "operations" then Outcome(SOk, r.(detailState := DetailOperations))
      else if name == "operation" then
        if r.detailState != DetailOperations || |r.details| < 1 then Outcome(EAbort, r)
        else
          var i := |r.details| - 1;
          Outcome(SOk, r.(details := r.details[i := AddOperation(r.details[i])]))
      else Outcome(SOk, r)
  }

  /** _element_end: never fails; closes the project and leaves a collection. */
  function OnElementEnd(r: Reader, name: string): (r': Reader)
    ensures r'.modelState == ModelClosed <==>
      r.modelState == ModelClosed ||
      (r.state == StateRoot && name == "project" && r.modelState == ModelOpened)
    ensures r'.modelState != ModelClosed ==> r'.modelState == r.modelState
    ensures r'.state ==
      if (r.state == StateMaterials && name == "materials") || (r.state == StateDetails && name == "details")
      then StateRoot else r.state
    ensures r'.materials == r.materials && r'.details == r.details && r'.detailState == r.detailState
  {
    match r.state
    case StateRoot =>
      if name == "project" && r.modelState == ModelOpened then r.(modelState := ModelClosed) else r
    case StateMaterials =>
      if name == "materials" then r.(state := StateRoot) else r
    case StateDetails =>
      if name == "details" then r.(state := StateRoot) else r
  }

  // ---------------------------------------------------------------------
  // _parse_material
  // ---------------------------------------------------------------------

  /** _parse_material: one attribute of the material most recently started. */
  function OnMaterialAttribute(r: Reader, element: string, local: string, value: AttrValue): (o: Outcome)
    ensures |r.materials| < 1 ==> o == Outcome(EAbort, r)
    ensures |r.materials| >= 1 && element != "material" ==> o == Outcome(SFalse, r)
    ensures o.reader == r.(materials := o.reader.materials) && |o.reader.materials| == |r.materials|
    ensures |r.materials| >= 1 ==>
      o.reader.materials[..|r.materials| - 1] == r.materials[..|r.materials| - 1]
    ensures |r.materials| >= 1 && element == "material" ==>
      var last := |r.materials| - 1;
      && (local == "id" ==> o.reader == r && (o.status == EAbort <==> value.asLong != |r.materials|))
      && (local == "type" ==>
            && (o.status == SOk <==> value.text == "sheet" || value.text == "band")
            && (value.text != "sheet" && value.text != "band" ==> o == Outcome(EAbort, r))
            && (value.text == "sheet" ==> o.reader.materials[last].kind == Sheet)
            && (value.text == "band" ==> o.reader.materials[last].kind == Band)
            && o.reader.materials[last].thickness == r.materials[last].thickness)
      && (local == "thickness" ==>
            && o.reader.materials[last] == r.materials[last].(thickness := value.asDouble)
            && (o.status == EAbort <==> value.asDouble == 0.0))
      && (local != "id" && local != "type" && local != "thickness" ==> o == Outcome(SFalse, r))
  {
    if |r.materials| < 1 then Outcome(EAbort, r)
    else if element != "material" then Outcome(SFalse, r)
    else
      var i := |r.materials| - 1;
      var m := r.materials[i];
      if local == "id" then
        Outcome(if value.asLong != |r.materials| then EAbort else SOk, r)
      else if local == "type" then
        if value.text == "sheet" then Outcome(SOk, r.(materials := r.materials[i := m.(kind := Sheet)]))
        else if value.text == "band" then Outcome(SOk, r.(materials := r.materials[i := m.(kind := Band)]))
        else Outcome(EAbort, r)
      else if local == "thickness" then
        var r' := r.(materials := r.materials[i := m.(thickness := value.asDouble)]);
        Outcome(if value.asDouble == 0.0 then EAbort else SOk, r')
      else Outcome(SFalse, r)
  }

  // ---------------------------------------------------------------------
  // _parse_detail, one sub-state at a time
  // ---------------------------------------------------------------------

  /**
   * The DETAIL_ATTR arm of _parse_detail for a <detail> attribute. `count`
   * is _details_cnt. A rejected width, height, multiplicity or material id
   * is stored before the failure is returned, as viyar.cpp does.
   */
  function DetailAttribute(d: DetailDef, count: int, materials: seq<MaterialDef>,
                           local: string, value: AttrValue): (o: DetailOutcome)
    ensures local == "id" ==> o.detail == d && (o.status == EAbort <==> value.asLong != count)
    ensures local == "material" ==>
      && o.detail.materialId == value.asLong
      && (o.status == EAbort <==> !(1 <= value.asLong <= |materials|))
      && (o.status == SOk ==>
            o.detail == d.(materialId := value.asLong, thickness := materials[value.asLong - 1].thickness))
    ensures local == "amount" ==> o == DetailOutcome(SOk, d.(amount := ToSize(value.asLong)))
    ensures local == "width" ==>
      o.detail == d.(width := value.asDouble) && (o.status == EAbort <==> value.asDouble <= 0.0)
    ensures local == "height" ==>
      o.detail == d.(height := value.asDouble) && (o.status == EAbort <==> value.asDouble <= 0.0)
    ensures local == "multiplicity" ==>
      o.detail == d.(multiplicity := value.asLong) && (o.status == EAbort <==> value.asLong <= 0)
    ensures local == "description" ==>
      o.status == SOk && o.detail == if |value.text| > 0 then d.(name := Some(value.text)) else d
    ensures local == "grain" ==> o == DetailOutcome(SOk, d.(grain := value.asLong))
    ensures local !in {"id", "material", "amount", "width", "height", "multiplicity", "description", "grain"} ==>
      o == DetailOutcome(SFalse, d)
    ensures o.detail.mBands == d.mBands && o.detail.operations == d.operations
  {
    if local == "id" then
      DetailOutcome(if value.asLong != count then EAbort else SOk, d)
    else if local == "material" then
      var d' := d.(materialId := value.asLong);
      if value.asLong <= 0 || value.asLong > |materials| then DetailOutcome(EAbort, d')
      else DetailOutcome(SOk, d'.(thickness := materials[value.asLong - 1].thickness))
    else if local == "amount" then
      // An amount of 0 is only warned about.
      DetailOutcome(SOk, d.(amount := ToSize(value.asLong)))
    else if local == "width" then
      DetailOutcome(if value.asDouble <= 0.0 then EAbort else SOk, d.(width := value.asDouble))
    else if local == "height" then
      DetailOutcome(if value.asDouble <= 0.0 then EAbort else SOk, d.(height := value.asDouble))
    else if local == "multiplicity" then
      DetailOutcome(if value.asLong <= 0 then EAbort else SOk, d.(multiplicity := value.asLong))
    else if local == "description" then
      DetailOutcome(SOk, if |value.text| > 0 then d.(name := Some(value.text)) else d)
    else if local == "grain" then
      DetailOutcome(SOk, d.(grain := value.asLong))
    else DetailOutcome(SFalse, d)
  }

  /** The four edge elements of <edges>. */
  predicate IsEdgeElement(element: string) {
    element == "left" || element == "top" || element == "right" || element == "bottom"
  }

  /** The side whose band an edge element sets. */
  function EdgeSide(element: string): (side: int)
    requires IsEdgeElement(element)
    ensures side in {SideLeft, SideTop, SideRight, SideBottom}
    ensures (side == SideLeft || side == SideRight) <==> (element == "left" || element == "right")
  {
    if element == "left" then SideLeft
    else if element == "top" then SideTop
    else if element == "right" then SideRight
    else SideBottom
  }

  /**
   * The DETAIL_EDGES arm of _parse_detail. A positive `param` names a band
   * material: it is recorded for the side and its thickness widens the panel
   * (left/right) or heightens it (top/bottom).
   */
  function EdgeAttribute(d: DetailDef, materials: seq<MaterialDef>,
                         element: string, local: string, value: AttrValue): (o: DetailOutcome)
    ensures element == "edges" ==>
      o.detail == d && (o.status == EAbort <==> local == "joint" && value.text != "0") && o.status != SFalse
    ensures IsEdgeElement(element) && local == "type" ==>
      o.detail == d && (o.status == EAbort <==> value.text != "kromka" && value.text != "")
    ensures IsEdgeElement(element) && local == "param" ==>
      && (o.status == EAbort <==> value.asLong < 0)
      && (value.asLong <= 0 ==> o.detail == d)
    ensures IsEdgeElement(element) && local == "param" && value.asLong > 0 ==>
      var t := MaterialThickness(materials, value.asLong);
      var across := element == "left" || element == "right";
      && o.detail.mBands == d.mBands[EdgeSide(element) := value.asLong]
      && o.detail.width == d.width + (if across then t else 0.0)
      && o.detail.height == d.height + (if across then 0.0 else t)
      && o.detail == d.(mBands := o.detail.mBands, width := o.detail.width, height := o.detail.height)
    ensures IsEdgeElement(element) && local != "type" && local != "param" ==> o == DetailOutcome(SOk, d)
    ensures element != "edges" && !IsEdgeElement(element) ==> o == DetailOutcome(SFalse, d)
  {
    if element == "edges" then
      // Only joint="0" occurs in the files this reader was written for.
      DetailOutcome(if local == "joint" && value.text != "0" then EAbort else SOk, d)
    else if IsEdgeElement(element) then
      if local == "type" then
        DetailOutcome(if value.text != "kromka" && value.text != "" then EAbort else SOk, d)
      else if local == "param" then
        var id := value.asLong;
        if id < 0 then DetailOutcome(EAbort, d)
        else if id > 0 then
          var t := MaterialThickness(materials, id);
          if element == "top" then
            DetailOutcome(SOk, d.(mBands := d.mBands[SideTop := id], height := d.height + t))
          else if element == "bottom" then
            DetailOutcome(SOk, d.(mBands := d.mBands[SideBottom := id], height := d.height + t))
          else if element == "left" then
            DetailOutcome(SOk, d.(mBands := d.mBands[SideLeft := id], width := d.width + t))
          else
            DetailOutcome(SOk, d.(mBands := d.mBands[SideRight := id], width := d.width + t))
        else DetailOutcome(SOk, d)
      else DetailOutcome(SOk, d)
    else DetailOutcome(SFalse, d)
  }

  /** The operation kinds the `type` attribute names; None for an unknown name. */
  function OperationKind(text: string): (k: Option<OperationType>)
    ensures k.Some? <==>
      text in {"drilling", "shapeByPattern", "rabbeting", "grooving", "cornerOperation"}
    ensures k.Some? ==> k.value != OpUndefined
    ensures k == Some(Drilling) <==> text == "drilling"
    ensures k == Some(ShapeByPattern) <==> text == "shapeByPattern"
    ensures k == Some(Rabbeting) <==> text == "rabbeting"
    ensures k == Some(Grooving) <==> text == "grooving"
    ensures k == Some(CornerOperation) <==> text == "cornerOperation"
  {
    if text == "drilling" then Some(Drilling)
    else if text == "shapeByPattern" then Some(ShapeByPattern)
    else if text == "rabbeting" then Some(Rabbeting)
    else if text == "grooving" then Some(Grooving)
    else if text == "cornerOperation" then Some(CornerOperation)
    else None
  }

  /** The attribute names stored into an operation besides `id` and `type`. */
  const OperationFields: set<string> :=
    {"subtype", "xl", "yl", "x", "y", "xo", "yo", "d", "r", "depth", "millD",
     "side", "corner", "mill", "ext", "edgeMaterial", "edgeCovering"}

  /** The operation with the named field set from the attribute value. */
  function SetOperationField(op: Operation, local: string, value: AttrValue): Operation
    requires local in OperationFields
  {
    match local
    case "subtype" => op.(subtype := value.asLong)
    case "xl" => op.(xl := Some(value.text))
    case "yl" => op.(yl := Some(value.text))
    case "x" => op.(x := value.asDouble)
    case "y" => op.(y := value.asDouble)
    case "xo" => op.(xo := value.asDouble)
    case "yo" => op.(yo := value.asDouble)
    case "d" => op.(d := value.asDouble)
    case "r" => op.(r := value.asDouble)
    case "depth" => op.(depth := value.asDouble)
    case "millD" => op.(millD := value.asDouble)
    case "side" => op.(side := value.asLong)
    case "corner" => op.(corner := value.asLong)
    case "mill" => op.(mill := value.asLong)
    case "ext" => op.(ext := value.asLong)
    case "edgeMaterial" => op.(edgeMaterial := value.asLong)
    case "edgeCovering" => op.(edgeCovering := value.asLong)
    case _ => op
  }

  /** The DETAIL_OPERATIONS arm of _parse_detail for an <operation> attribute. */
  function OperationAttribute(d: DetailDef, local: string, value: AttrValue): (o: DetailOutcome)
    ensures |d.operations| == 0 ==> o == DetailOutcome(EAbort, d)
    ensures |d.operations| > 0 ==>
      var last := |d.operations| - 1;
      && o.detail == d.(operations := o.detail.operations)
      && |o.detail.operations| == |d.operations|
      && o.detail.operations[..last] == d.operations[..last]
      && (local == "id" ==> o.detail == d && (o.status == EAbort <==> value.asLong != |d.operations|))
      && (local == "type" ==>
            && (o.status == SFalse <==> OperationKind(value.text).None?)
            && o.status != EAbort
            && (o.status == SOk ==>
                  o.detail.operations[last] == d.operations[last].(kind := OperationKind(value.text).value))
            && (o.status == SFalse ==> o.detail == d))
      && (local in OperationFields ==>
            o.status == SOk &&
            o.detail.operations[last] == SetOperationField(d.operations[last], local, value))
      && (local != "id" && local != "type" && local !in OperationFields ==> o == DetailOutcome(SFalse, d))
  {
    if |d.operations| == 0 then DetailOutcome(EAbort, d)
    else
      var last := |d.operations| - 1;
      var op := d.operations[last];
      if local == "id" then
        DetailOutcome(if value.asLong != |d.operations| then EAbort else SOk, d)
      else if local == "type" then
        match OperationKind(value.text)
        case None => DetailOutcome(SFalse, d)
        case Some(k) => DetailOutcome(SOk, d.(operations := d.operations[last := op.(kind := k)]))
      else if local in OperationFields then
        DetailOutcome(SOk, d.(operations := d.operations[last := SetOperationField(op, local, value)]))
      else DetailOutcome(SFalse, d)
  }

  /** _parse_detail: attributes of the detail most recently started, by sub-state. */
  function OnDetailAttribute(r: Reader, element: string, local: string, value: AttrValue): (o: Outcome)
    ensures element == "details" ==> o == Outcome(SFalse, r)
    ensures element != "details" && |r.details| < 1 ==> o == Outcome(EAbort, r)
    ensures o.reader == r.(details := o.reader.details) && |o.reader.details| == |r.details|
    ensures element != "details" && |r.details| >= 1 ==>
      var i := |r.details| - 1;
      && o.reader.details[..i] == r.details[..i]
      && Outcome(o.status, r.(details := r.details[i := o.reader.details[i]])) == o
      && DetailOutcome(o.status, o.reader.details[i]) ==
         match r.detailState
         case DetailAttr =>
           if element == "detail" then DetailAttribute(r.details[i], |r.details|, r.materials, local, value)
           else DetailOutcome(SFalse, r.details[i])
         case DetailEdges => EdgeAttribute(r.details[i], r.materials, element, local, value)
         case DetailOperations =>
           if element == "operations" then DetailOutcome(SOk, r.details[i])
           else if element == "operation" then OperationAttribute(r.details[i], local, value)
           else DetailOutcome(SFalse, r.details[i])
  {
    if element == "details" then Outcome(SFalse, r)
    else if |r.details| < 1 then Outcome(EAbort, r)
    else
      var i := |r.details| - 1;
      var d := r.details[i];
      var res :=
        match r.detailState
        case DetailAttr =>
          if element == "detail" then DetailAttribute(d, |r.details|, r.materials, local, value)
          else DetailOutcome(SFalse, d)
        case DetailEdges => EdgeAttribute(d, r.materials, element, local, value)
        case DetailOperations =>
          if element == "operations" then DetailOutcome(SOk, d)
          else if element == "operation" then OperationAttribute(d, local, value)
          else DetailOutcome(SFalse, d);
      Outcome(res.status, r.(details := r.details[i := res.detail]))
  }

  /** _parse_element: dispatch on the top-level state. */
  function OnAttribute(r: Reader, element: string, local: string, value: AttrValue): (o: Outcome)
    ensures r.state == StateRoot ==> o == Outcome(SFalse, r)
    ensures r.state == StateMaterials ==> o == OnMaterialAttribute(r, element, local, value)
    ensures r.state == StateDetails ==> o == OnDetailAttribute(r, element, local, value)
    ensures o.reader.state == r.state && o.reader.modelState == r.modelState && o.reader.detailState == r.detailState
  {
    match r.state
    case StateMaterials => OnMaterialAttribute(r, element, local, value)
    case StateDetails => OnDetailAttribute(r, element, local, value)
    case StateRoot => Outcome(SFalse, r)
  }

  // ---------------------------------------------------------------------
  // The event stream
  // ---------------------------------------------------------------------

  /** The callbacks the document reader makes, in document order. */
  datatype Event =
    | Start(name: string)
    | Attribute(element: string, local: string, value: AttrValue)
    | End(name: string)

  /** One callback. */
  function Step(r: Reader, e: Event): Outcome {
    match e
    case Start(name) => OnElementStart(r, name)
    case Attribute(element, local, value) => OnAttribute(r, element, local, value)
    case End(name) => Outcome(SOk, OnElementEnd(r, name))
  }

  /**
   * A whole parse: stop at the first failed callback; otherwise succeed
   * exactly when the project ended up closed.
   */
  function Run(r: Reader, events: seq<Event>): Outcome
    decreases |events|
  {
    if |events| == 0 then Outcome(if r.modelState == ModelClosed then SOk else EAbort, r)
    else
      var o := Step(r, events[0]);
      if Failed(o.status) then o else Run(o.reader, events[1..])
  }

  // ---------------------------------------------------------------------
  // Properties of the state machine
  // ---------------------------------------------------------------------

  /** The model state moves only None to Opened on <project> and Opened to Closed on </project>. */
  lemma StepModelTransition(r: Reader, e: Event)
    ensures var o := Step(r, e);
      o.reader.modelState == r.modelState ||
      (r.modelState == ModelNone && o.reader.modelState == ModelOpened && e == Start("project")) ||
      (r.modelState == ModelOpened && o.reader.modelState == ModelClosed && e == End("project"))
  {
  }

  /** A parse returns S_OK or E_ABORT, and S_OK only when the project was closed. */
  lemma {:induction false} RunAcceptsOnlyClosed(r: Reader, events: seq<Event>)
    ensures Run(r, events).status != SFalse
    ensures Run(r, events).status == SOk ==> Run(r, events).reader.modelState == ModelClosed
    decreases |events|
  {
    if |events| > 0 {
      var o := Step(r, events[0]);
      if !Failed(o.status) {
        RunAcceptsOnlyClosed(o.reader, events[1..]);
      }
    }
  }

  /**
   * An accepted parse that starts with no project open has seen <project>
   * start and, later, </project>.
   */
  lemma {:induction false} AcceptedRunOpensThenClosesProject(r: Reader, events: seq<Event>)
    requires Run(r, events).status == SOk
    ensures r.modelState != ModelClosed ==> exists j :: 0 <= j < |events| && events[j] == End("project")
    ensures r.modelState == ModelNone ==>
      exists i, j :: 0 <= i < j < |events| && events[i] == Start("project") && events[j] == End("project")
    decreases |events|
  {
    if |events| == 0 {
      return;
    }
    var o := Step(r, events[0]);
    var rest := events[1..];
    assert !Failed(o.status) && Run(o.reader, rest) == Run(r, events);
    AcceptedRunOpensThenClosesProject(o.reader, rest);
    StepModelTransition(r, events[0]);
    if r.modelState != ModelClosed && o.reader.modelState != ModelClosed {
      var j :| 0 <= j < |rest| && rest[j] == End("project");
      assert events[j + 1] == End("project");
    }
    if r.modelState == ModelNone {
      if o.reader.modelState == ModelNone {
        var i, j :| 0 <= i < j < |rest| && rest[i] == Start("project") && rest[j] == End("project");
        assert events[i + 1] == Start("project") && events[j + 1] == End("project");
      } else {
        var j :| 0 <= j < |rest| && rest[j] == End("project");
        assert events[0] == Start("project") && events[j + 1] == End("project");
      }
    }
  }

  /**
   * What holds of the statics between callbacks of a parse that has not
   * failed: a collection is open only inside an open project, and every
   * band id of every detail names a material (is at least 1), the front and
   * back bands staying at the default 1.
   */
  ghost predicate Consistent(r: Reader) {
    && (r.state != StateRoot ==> r.modelState == ModelOpened)
    && forall d <- r.details :: d.mBands[SideFront] == 1 && d.mBands[SideBack] == 1 &&
         forall s :: 0 <= s < 6 ==> d.mBands[s] >= 1
  }

  lemma EdgeAttributeKeepsBands(d: DetailDef, materials: seq<MaterialDef>,
                                element: string, local: string, value: AttrValue)
    requires d.mBands[SideFront] == 1 && d.mBands[SideBack] == 1
    requires forall s :: 0 <= s < 6 ==> d.mBands[s] >= 1
    requires !Failed(EdgeAttribute(d, materials, element, local, value).status)
    ensures var d' := EdgeAttribute(d, materials, element, local, value).detail;
      d'.mBands[SideFront] == 1 && d'.mBands[SideBack] == 1 && forall s :: 0 <= s < 6 ==> d'.mBands[s] >= 1
  {
  }

  lemma StepKeepsConsistent(r: Reader, e: Event)
    requires Consistent(r)
    requires !Failed(Step(r, e).status)
    ensures Consistent(Step(r, e).reader)
  {
    match e
    case Start(name) => StartKeepsConsistent(r, name);
    case End(name) =>
    case Attribute(element, local, value) => AttributeKeepsConsistent(r, element, local, value);
  }

  lemma StartKeepsConsistent(r: Reader, name: string)
    requires Consistent(r)
    requires !Failed(OnElementStart(r, name).status)
    ensures Consistent(OnElementStart(r, name).reader)
  {
    var o := OnElementStart(r, name);
    if r.state == StateDetails && name == "operation" {
      assert forall k :: 0 <= k < |o.reader.details| ==>
        o.reader.details[k].mBands == r.details[k].mBands;
    }
  }

  lemma AttributeKeepsConsistent(r: Reader, element: string, local: string, value: AttrValue)
    requires Consistent(r)
    requires !Failed(OnAttribute(r, element, local, value).status)
    ensures Consistent(OnAttribute(r, element, local, value).reader)
  {
    var o := OnAttribute(r, element, local, value);
    if r.state == StateDetails && element != "details" && |r.details| >= 1 {
      var i := |r.details| - 1;
      var d := r.details[i];
      assert d in r.details;
      if r.detailState == DetailEdges {
        EdgeAttributeKeepsBands(d, r.materials, element, local, value);
      }
      assert o.reader.details[..i] == r.details[..i];
      forall d' | d' in o.reader.details
        ensures d'.mBands[SideFront] == 1 && d'.mBands[SideBack] == 1 &&
          forall s :: 0 <= s < 6 ==> d'.mBands[s] >= 1
      {
        var k :| 0 <= k < |o.reader.details| && o.reader.details[k] == d';
        if k < i {
          assert d' == r.details[..i][k];
        }
      }
    }
  }

  /** After an accepted parse, the statics it leaves behind are still consistent. */
  lemma {:induction false} RunKeepsConsistent(r: Reader, events: seq<Event>)
    requires Consistent(r)
    ensures Run(r, events).status == SOk ==> Consistent(Run(r, events).reader)
    decreases |events|
  {
    if |events| > 0 {
      var o := Step(r, events[0]);
      if !Failed(o.status) {
        StepKeepsConsistent(r, events[0]);
        RunKeepsConsistent(o.reader, events[1..]);
      }
    }
  }

  lemma InitialReaderConsistent()
    ensures Consistent(InitialReader)
  {
  }

  // ---------------------------------------------------------------------
  // Finding: an <operation> before any <detail>
  // ---------------------------------------------------------------------

  /** The only check _element_start makes before growing an operations array. */
  predicate OperationStartAcceptedAsWritten(r: Reader) {
    r.state == StateDetails && r.detailState == DetailOperations
  }

  /** The details entry _element_start grows for an accepted <operation>: details[_details_cnt-1]. */
  function OperationSlotAsWritten(r: Reader): int {
    |r.details| - 1
  }

  /**
   * <operations> right after <details>, before any <detail>: viyar.cpp's
   * check lets <operation> through and it grows details[-1]; the guarded
   * start rejects it.
   */
  lemma OperationBeforeAnyDetail()
    ensures var withProject := OnElementStart(InitialReader, "project").reader;
      var inDetails := OnElementStart(withProject, "details").reader;
      var inOperations := OnElementStart(inDetails, "operations").reader;
      && OperationStartAcceptedAsWritten(inOperations)
      && OperationSlotAsWritten(inOperations) == -1
      && OnElementStart(inOperations, "operation").status == EAbort
  {
  }

  /** With the guard, every accepted <operation> start grows an existing detail. */
  lemma OperationStartInBounds(r: Reader, name: string)
    requires r.state == StateDetails && name == "operation"
    requires OnElementStart(r, name).status == SOk
    ensures OperationStartAcceptedAsWritten(r)
    ensures 0 <= OperationSlotAsWritten(r) < |r.details|
  {
  }

  // ---------------------------------------------------------------------
  // The statics as mutable state
  // ---------------------------------------------------------------------

  /** The module's statics, updated field by field by the callbacks. */
  class ProjectReader {
    var state: ReaderState
    var modelState: ModelState
    var detailState: DetailState
    var materials: seq<MaterialDef>
    var details: seq<DetailDef>

    function Snapshot(): Reader
      reads this
    {
      Reader(state, modelState, detailState, materials, details)
    }

    constructor ()
      ensures Snapshot() == InitialReader
    {
      state := StateRoot;
      modelState := ModelNone;
      detailState := DetailAttr;
      materials := [];
      details := [];
    }

    /** _element_start. */
    method ElementStart(name: string) returns (hr: Status)
      modifies this
      ensures Outcome(hr, Snapshot()) == OnElementStart(old(Snapshot()), name)
    {
      hr := SOk;
      match state
      case StateRoot =>
        if name == "project" {
          if modelState == ModelNone {
            modelState := ModelOpened;
          }
        } else if name == "materials" {
          if modelState != ModelOpened {
            return EAbort;
          }
          state := StateMaterials;
          materials := [];
        } else if name == "details" {
          if modelState != ModelOpened {
            return EAbort;
          }
          state := StateDetails;
          details := [];
        }
      case StateMaterials =>
        if name == "material" {
          materials := materials + [ZeroMaterial];
        }
      case StateDetails =>
        if name == "detail" {
          details := details + [NewDetail];
          detailState := DetailAttr;
        } else if name == "edges" {
          detailState := DetailEdges;
        } else if name == "edge" {
          if detailState != DetailEdges {
            return EAbort;
          }
        } else if name == "operations" {
          detailState := DetailOperations;
        } else if name == "operation" {
          if detailState != DetailOperations || |details| < 1 {
            return EAbort;
          }
          var i := |details| - 1;
          details := details[i := AddOperation(details[i])];
        }
    }

    /** _element_end. */
    method ElementEnd(name: string)
      modifies this
      ensures Snapshot() == OnElementEnd(old(Snapshot()), name)
    {
      match state
      case StateRoot =>
        if name == "project" && modelState == ModelOpened {
          modelState := ModelClosed;
        }
      case StateMaterials =>
        if name == "materials" {
          state := StateRoot;
        }
      case StateDetails =>
        if name == "details" {
          state := StateRoot;
        }
    }

    /** _parse_material. */
    method ParseMaterial(element: string, local: string, value: AttrValue) returns (hr: Status)
      modifies this
      ensures Outcome(hr, Snapshot()) == OnMaterialAttribute(old(Snapshot()), element, local, value)
    {
      if |materials| < 1 {
        return EAbort;
      }
      if element != "material" {
        return SFalse;
      }
      var i := |materials| - 1;
      hr := SOk;
      if local == "id" {
        if value.asLong != |materials| {
          hr := EAbort;
        }
      } else if local == "type" {
        if value.text == "sheet" {
          materials := materials[i := materials[i].(kind := Sheet)];
        } else if value.text == "band" {
          materials := materials[i := materials[i].(kind := Band)];
        } else {
          hr := EAbort;
        }
      } else if local == "thickness" {
        materials := materials[i := materials[i].(thickness := value.asDouble)];
        if value.asDouble == 0.0 {
          hr := EAbort;
        }
      } else {
        hr := SFalse;
      }
    }

    /** _parse_detail: the record of the current detail is rewritten by its sub-state's rule. */
    method ParseDetail(element: string, local: string, value: AttrValue) returns (hr: Status)
      modifies this
      ensures Outcome(hr, Snapshot()) == OnDetailAttribute(old(Snapshot()), element, local, value)
    {
      if element == "details" {
        return SFalse;
      }
      if |details| < 1 {
        return EAbort;
      }
      var i := |details| - 1;
      var res: DetailOutcome;
      match detailState {
        case DetailAttr =>
          if element == "detail" {
            res := DetailAttribute(details[i], |details|, materials, local, value);
          } else {
            res := DetailOutcome(SFalse, details[i]);
          }
        case DetailEdges =>
          res := EdgeAttribute(details[i], materials, element, local, value);
        case DetailOperations =>
          if element == "operations" {
            res := DetailOutcome(SOk, details[i]);
          } else if element == "operation" {
            res := OperationAttribute(details[i], local, value);
          } else {
            res := DetailOutcome(SFalse, details[i]);
          }
      }
      details := details[i := res.detail];
      hr := res.status;
    }

    /** _parse_element. */
    method ParseElement(element: string, local: string, value: AttrValue) returns (hr: Status)
      modifies this
      ensures Outcome(hr, Snapshot()) == OnAttribute(old(Snapshot()), element, local, value)
    {
      match state
      case StateMaterials =>
        hr := ParseMaterial(element, local, value);
      case StateDetails =>
        hr := ParseDetail(element, local, value);
      case StateRoot =>
        hr := SFalse;
    }

    /**
     * The callback loop of the document reader and the final check that the
     * project was closed.
     */
    method Parse(events: seq<Event>) returns (hr: Status)
      modifies this
      ensures Outcome(hr, Snapshot()) == Run(old(Snapshot()), events)
    {
      var i := 0;
      while i < |events|
        invariant 0 <= i <= |events|
        invariant Run(old(Snapshot()), events) == Run(Snapshot(), events[i..])
        decreases |events| - i
      {
        ghost var before := Snapshot();
        assert events[i..][1..] == events[i + 1..];
        match events[i] {
          case Start(name) =>
            hr := ElementStart(name);
          case Attribute(element, local, value) =>
            hr := ParseElement(element, local, value);
          case End(name) =>
            ElementEnd(name);
            hr := SOk;
        }
        assert Outcome(hr, Snapshot()) == Step(before, events[i]);
        if Failed(hr) {
          return;
        }
        i := i + 1;
      }
      hr := if modelState == ModelClosed then SOk else EAbort;
    }
  }
}
