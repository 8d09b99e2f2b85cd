// Global definitions shared by the reader and the geometry builder
// (xmllitereader/common.h).

module Common {

  /** The conventional Some/None datatype; stands for a nullable pointer. */
  datatype Option<+T> = None | Some(value: T)

  /** MAX(x,y): the larger of the two, x on a strict win, else y. */
  function Max(x: real, y: real): (r: real)
    ensures r >= x && r >= y
    ensures r == x || r == y
    ensures x > y ==> r == x
  {
    if x > y then x else y
  }

  /** MIN(x,y): the smaller of the two, x on a strict win, else y. */
  function Min(x: real, y: real): (r: real)
    ensures r <= x && r <= y
    ensures r == x || r == y
    ensures x < y ==> r == x
  {
    if x < y then x else y
  }

  const MillimetresPerInch: real := 25.4

  /** MM2INCH: millimetres to the sink's native unit; INCH2MM undoes it. */
  function MmToInch(x: real): (r: real)
    ensures InchToMm(r) == x
    ensures x > 0.0 ==> 0.0 < r < x
  {
    x / MillimetresPerInch
  }

  /** INCH2MM: inches back to millimetres; MM2INCH undoes it. */
  function InchToMm(x: real): (r: real)
    ensures r / MillimetresPerInch == x
  {
    x * MillimetresPerInch
  }

  /** Gap between packed panels (mm) and the stacking factor (times thickness). */
  const DistanceX: real := 50.0
  const DistanceY: real := 50.0
  const DistanceZ: real := 3.0

  /** Side ids, also the index into a panel's six band materials. */
  const SideFront := 0
  const SideLeft := 1
  const SideTop := 2
  const SideRight := 3
  const SideBottom := 4
  const SideBack := 5

  /** Corner ids in outline order. */
  const CornerLowerLeft := 0
  const CornerUpperLeft := 1
  const CornerUpperRight := 2
  const CornerLowerRight := 3
  const CornerMax := 4

  /** Which runs of a corner clip an edge material covers. */
  const EdgeCoverBoth := 0
  const EdgeCoverH := 1
  const EdgeCoverV := 2
}
