// The capacity-doubling, append-only vector ARRAY_T (xmllitereader/common.cpp).

module Arrays {
  import opened Common

  /** ALLIGN_BYTES: slots are padded to a multiple of this many bytes. */
  const AlignBytes: nat := 8

  /** The padded slot size: the least multiple of AlignBytes that holds an element. */
  function AlignedSize(elementSize: nat): (r: nat)
    requires elementSize > 0
    ensures r % AlignBytes == 0
    ensures elementSize <= r < elementSize + AlignBytes
    ensures forall m: nat {:trigger m % AlignBytes} :: m % AlignBytes == 0 && elementSize <= m ==> r <= m
  {
    ((elementSize + AlignBytes - 1) / AlignBytes) * AlignBytes
  }

  /** The capacity after a growth step: 2 from empty storage, otherwise doubled. */
  function GrownSize(size: nat): (r: nat)
    ensures r > size && r >= 2
    ensures size > 0 ==> r == 2 * size
  {
    if size == 0 then 2 else 2 * size
  }

  /**
   * The lowest index of `s` whose element satisfies `matches`, or None:
   * what array_find_element's index loop computes.
   */
  function FirstIndex<T>(s: seq<T>, matches: T -> bool): (r: Option<nat>)
    ensures r.Some? ==> r.value < |s| && matches(s[r.value])
    ensures r.Some? ==> forall j :: 0 <= j < r.value ==> !matches(s[j])
    ensures r.None? ==> forall j :: 0 <= j < |s| ==> !matches(s[j])
  {
    if |s| == 0 then None
    else if matches(s[0]) then Some(0)
    else match FirstIndex(s[1..], matches)
      case None => None
      case Some(k) => Some(k + 1)
  }

  /** FirstIndex depends on nothing but the elements before and at the first match. */
  lemma {:induction false} FirstIndexAppend<T>(s: seq<T>, x: T, matches: T -> bool)
    ensures FirstIndex(s + [x], matches) ==
      if FirstIndex(s, matches).Some? then FirstIndex(s, matches)
      else if matches(x) then Some(|s|) else None
  {
    var t := s + [x];
    assert forall j :: 0 <= j < |s| ==> t[j] == s[j];
    match FirstIndex(s, matches)
    case Some(k) => FirstIndexUnique(t, matches, k);
    case None =>
      if matches(x) {
        FirstIndexUnique(t, matches, |s|);
      } else {
        FirstIndexUnique(t, matches, -1);
      }
  }

  /**
   * ARRAY_T: `storage` is the realloc'd buffer (null until the first insert),
   * `size` its capacity in elements and `used` the number of filled slots.
   */
  class GrowableArray<T(0)> {
    var storage: array?<T>
    var used: nat
    var size: nat
    var elementSize: nat
    var alignedElementSize: nat
    ghost var Repr: set<object>

    ghost predicate Valid()
      reads this, Repr
    {
      && Repr == {this} + (if storage == null then {} else {storage})
      && (storage == null <==> size == 0)
      && (storage != null ==> storage.Length == size)
      && used <= size
      && elementSize > 0
      && alignedElementSize == AlignedSize(elementSize)
    }

    /** The elements inserted so far, in insertion order. */
    ghost function Contents(): seq<T>
      reads this, Repr
      requires Valid()
    {
      if storage == null then [] else storage[..used]
    }

    /** array_init: no storage, nothing used, slot size padded. */
    constructor Init(elementSize: nat)
      requires elementSize > 0
      ensures Valid() && fresh(Repr)
      ensures storage == null && used == 0 && size == 0 && Contents() == []
      ensures this.elementSize == elementSize && alignedElementSize == AlignedSize(elementSize)
    {
      storage := null;
      size := 0;
      used := 0;
      this.elementSize := elementSize;
      alignedElementSize := AlignedSize(elementSize);
      Repr := {this};
    }

    /**
     * array_insert: grow (only when full) by GrownSize, copying the old slots,
     * then write the element at index `used`. Returns the slot it wrote.
     */
    method Insert(element: T) returns (pos: nat)
      requires Valid()
      modifies Repr
      ensures Valid() && fresh(Repr - old(Repr))
      ensures pos == old(used) && used == old(used) + 1
      ensures Contents() == old(Contents()) + [element]
      ensures size == if old(used) == old(size) then GrownSize(old(size)) else old(size)
      ensures elementSize == old(elementSize) && alignedElementSize == old(alignedElementSize)
    {
      if used == size {
        var newSize := GrownSize(size);
        var grown := new T[newSize];
        var i := 0;
        while i < used
          modifies grown
          invariant 0 <= i <= used
          invariant used > 0 ==> storage != null
          invariant forall k :: 0 <= k < i ==> grown[k] == storage[k]
        {
          grown[i] := storage[i];
          i := i + 1;
        }
        storage := grown;
        size := newSize;
        Repr := {this, grown};
      }
      storage[used] := element;
      pos := used;
      used := used + 1;
    }

    /** array_get_count. */
    function Count(): (r: nat)
      reads this, Repr
      requires Valid()
      ensures r == |Contents()|
    {
      used
    }

    /** array_get_element, for a position the caller knows is filled. */
    function GetElement(pos: nat): (r: T)
      reads this, Repr
      requires Valid() && pos < |Contents()|
      ensures r == Contents()[pos]
    {
      storage[pos]
    }

    /** A write through the slot pointer that array_get_element/array_find_element hand out. */
    method SetElement(pos: nat, element: T)
      requires Valid() && pos < |Contents()|
      modifies storage
      ensures Valid() && Repr == old(Repr)
      ensures Contents() == old(Contents())[pos := element]
    {
      storage[pos] := element;
    }

    /** array_free: storage dropped, counters reset. */
    method Free()
      requires Valid()
      modifies this
      ensures Valid() && Repr == {this}
      ensures storage == null && used == 0 && size == 0 && Contents() == []
      ensures elementSize == old(elementSize)
    {
      storage := null;
      used := 0;
      size := 0;
      Repr := {this};
    }

    /** array_find_element: the lowest-index element satisfying `matches`, or None. */
    method FindElement(matches: T -> bool) returns (r: Option<nat>)
      requires Valid()
      ensures r == FirstIndex(Contents(), matches)
      ensures r.Some? ==> r.value < |Contents()| && matches(Contents()[r.value])
    {
      var i := 0;
      while i < used
        invariant 0 <= i <= used
        invariant forall j :: 0 <= j < i ==> !matches(Contents()[j])
      {
        if matches(storage[i]) {
          FirstIndexUnique(Contents(), matches, i);
          return Some(i);
        }
        i := i + 1;
      }
      FirstIndexUnique(Contents(), matches, -1);
      return None;
    }
  }

  /** FirstIndex is pinned down by its contract: the first match, or -1 for none. */
  lemma FirstIndexUnique<T>(s: seq<T>, matches: T -> bool, k: int)
    requires -1 <= k < |s|
    requires k >= 0 ==> matches(s[k])
    requires forall j :: 0 <= j < (if k >= 0 then k else |s|) ==> !matches(s[j])
    ensures FirstIndex(s, matches) == if k >= 0 then Some(k) else None
  {
  }
}
