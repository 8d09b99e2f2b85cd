// The records of a Viyar project document (xmllitereader/viyar.h).

module ViyarTypes {
  import opened Common

  /** OPERATION_TYPE_T. */
  datatype OperationType = OpUndefined | Drilling | Rabbeting | ShapeByPattern | Grooving | CornerOperation

  /**
   * OPERATION_T: one machining operation of a panel. `xl`/`yl` are the
   * duplicated attribute strings (None while the pointer is still NULL).
   */
  datatype Operation = Operation(
    kind: OperationType,
    side: int,
    corner: int,
    x: real,
    y: real,
    xo: real,
    yo: real,
    d: real,
    depth: real,
    millD: real,
    r: real,
    mill: int,
    ext: int,
    edgeMaterial: int,
    edgeCovering: int,
    xl: Option<string>,
    yl: Option<string>,
    subtype: int)

  /** An OPERATION_T with every field zero. */
  const ZeroOperation := Operation(OpUndefined, 0, 0, 0.0, 0.0, 0.0, 0.0, 0.0, 0.0, 0.0, 0.0,
                                   0, 0, 0, 0, None, None, 0)

  /** The six band material ids of a panel, indexed by side id. */
  type Bands = s: seq<int> | |s| == 6 witness [0, 0, 0, 0, 0, 0]

  /** 2^64: `amount` is a size_t. */
  const SizeModulus: int := 0x1_0000_0000_0000_0000

  /** Conversion of a C long to size_t: negative values wrap. */
  function ToSize(v: int): (r: nat)
    ensures r < SizeModulus
    ensures 0 <= v < SizeModulus ==> r == v
    ensures -SizeModulus <= v < 0 ==> r == v + SizeModulus
  {
    v % SizeModulus
  }

  /**
   * DETAIL_DEF_T: one panel. `operations` holds the operations_cnt entries of
   * the dynamic operations array.
   */
  datatype DetailDef = DetailDef(
    name: Option<string>,
    materialId: int,
    width: real,
    height: real,
    thickness: real,
    multiplicity: int,
    grain: int,
    amount: nat,
    mBands: Bands,
    operations: seq<Operation>)

  /** A DETAIL_DEF_T with every field zero, as the project's memset leaves it. */
  const ZeroDetail := DetailDef(None, 0, 0.0, 0.0, 0.0, 0, 0, 0, [0, 0, 0, 0, 0, 0], [])

  /** MATERIAL_TYPE_T. */
  datatype MaterialType = MaterialUndefined | Sheet | Band

  /** MATERIAL_DEF_T. */
  datatype MaterialDef = MaterialDef(kind: MaterialType, thickness: real)

  const ZeroMaterial := MaterialDef(MaterialUndefined, 0.0)

  /**
   * The thickness read through a 1-based material id. Ids past the filled
   * entries reach zeroed static storage, so they read 0.
   */
  function MaterialThickness(materials: seq<MaterialDef>, id: int): (t: real)
    ensures 1 <= id <= |materials| ==> t == materials[id - 1].thickness
    ensures !(1 <= id <= |materials|) ==> t == 0.0
  {
    if 1 <= id <= |materials| then materials[id - 1].thickness else 0.0
  }
}
