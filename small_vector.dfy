/**
 * SmallVectorBase::grow_pod (ros_control_boilerplate/src/dummy_wpilib_common.cpp):
 * growing the byte storage of a small vector, which starts in an inline
 * buffer and moves to the heap the first time it grows.
 *
 * The storage [BeginX, CapacityX) is an array of bytes, EndX is kept as the
 * size in bytes, and whether malloc/realloc succeed is an input. Capacity
 * arithmetic is in size_t and wraps around.
 */
module SmallVector {
  import opened Wrappers

  /** One more than the largest size_t. */
  const SizeTModulus: nat := 0x1_0000_0000_0000_0000

  /** The capacity after growing: twice the old capacity plus one element
      (wrapping in size_t), raised to the requested minimum if below it. */
  function NewCapacity(capacity: nat, tSize: nat, minSizeInBytes: nat): (r: nat)
    ensures r >= minSizeInBytes
    ensures r == minSizeInBytes || r == (2 * capacity + tSize) % SizeTModulus
  {
    var grown := (2 * capacity + tSize) % SizeTModulus;
    if grown < minSizeInBytes then minSizeInBytes else grown
  }

  /** Growing always makes room for at least one more element, unless
      doubling the capacity overflows size_t; and the result still fits in
      a size_t. */
  lemma NewCapacityGrows(capacity: nat, tSize: nat, minSizeInBytes: nat)
    requires minSizeInBytes < SizeTModulus
    ensures 0 < tSize && 2 * capacity + tSize < SizeTModulus ==>
              NewCapacity(capacity, tSize, minSizeInBytes) >= capacity + tSize
    ensures NewCapacity(capacity, tSize, minSizeInBytes) < SizeTModulus
  {
    if 2 * capacity + tSize < SizeTModulus {
      assert (2 * capacity + tSize) % SizeTModulus == 2 * capacity + tSize;
    }
  }

  /** The bytes in use fit the grown block whenever doubling does not
      overflow, or the caller asks for at least the bytes in use. */
  lemma SizeFitsNewCapacity(capacity: nat, size: nat, tSize: nat, minSizeInBytes: nat)
    requires size <= capacity
    requires 2 * capacity + tSize < SizeTModulus || size <= minSizeInBytes
    ensures size <= NewCapacity(capacity, tSize, minSizeInBytes)
  {
    if 2 * capacity + tSize < SizeTModulus {
      assert (2 * capacity + tSize) % SizeTModulus == 2 * capacity + tSize;
    }
  }

  function Min(a: nat, b: nat): nat {
    if a < b then a else b
  }

  /** memcpy of count bytes between distinct blocks. */
  method Memcpy(dst: array<bv8>, src: array<bv8>, count: nat)
    requires dst != src && count <= dst.Length && count <= src.Length
    modifies dst
    ensures dst[..count] == src[..count]
    ensures dst[count..] == old(dst[count..])
  {
    for j := 0 to count
      invariant dst[..j] == src[..j]
      invariant dst[count..] == old(dst[count..])
    {
      dst[j] := src[j];
    }
  }

  class SmallVectorBase {
    /** The storage from BeginX to CapacityX. */
    var elements: array<bv8>
    /** EndX - BeginX. */
    var sizeInBytes: nat

    ghost predicate Valid()
      reads this
    {
      sizeInBytes <= elements.Length < SizeTModulus
    }

    /** A vector in its inline buffer. */
    constructor(firstEl: array<bv8>)
      requires firstEl.Length < SizeTModulus
      ensures Valid() && elements == firstEl && sizeInBytes == 0
    {
      elements := firstEl;
      sizeInBytes := 0;
    }

    /** grow_pod: move the bytes to a larger block. Out of the inline buffer
        (BeginX == FirstEl) it mallocs and copies the current bytes; from the
        heap it reallocs, which keeps the bytes both blocks share. A failed
        allocation throws before anything changes. */
    method GrowPod(firstEl: array<bv8>, minSizeInBytes: nat, tSize: nat, allocSucceeds: bool)
      returns (r: Result<(), string>)
      requires Valid() && minSizeInBytes < SizeTModulus && tSize < SizeTModulus
      // The copied bytes and EndX stay inside the new block: either doubling
      // does not overflow size_t, or the caller asks for at least the size.
      requires 2 * elements.Length + tSize < SizeTModulus || sizeInBytes <= minSizeInBytes
      modifies this
      ensures Valid()
      ensures r.Failure? <==> !allocSucceeds
      ensures !allocSucceeds ==> elements == old(elements) && sizeInBytes == old(sizeInBytes)
      ensures !allocSucceeds ==>
                r.error == if old(elements) == firstEl then "Allocation of SmallVector element failed."
                           else "Reallocation of SmallVector element failed."
      ensures allocSucceeds ==> fresh(elements)
      ensures allocSucceeds ==> elements.Length == NewCapacity(old(elements.Length), tSize, minSizeInBytes)
      ensures sizeInBytes == old(sizeInBytes)
      ensures allocSucceeds ==> elements[..sizeInBytes] == old(elements[..sizeInBytes])
      ensures allocSucceeds && old(elements) != firstEl ==>
                var kept := Min(old(elements.Length), elements.Length);
                elements[..kept] == old(elements[..kept])
    {
      var curSizeBytes := sizeInBytes;
      var newCapacityInBytes := (2 * elements.Length + tSize) % SizeTModulus;
      if newCapacityInBytes < minSizeInBytes {
        newCapacityInBytes := minSizeInBytes;
      }
      assert newCapacityInBytes == NewCapacity(elements.Length, tSize, minSizeInBytes);
      SizeFitsNewCapacity(elements.Length, curSizeBytes, tSize, minSizeInBytes);
      NewCapacityGrows(elements.Length, tSize, minSizeInBytes);
      var newElts: array<bv8>;
      if elements == firstEl {
        if !allocSucceeds {
          return Failure("Allocation of SmallVector element failed.");
        }
        newElts := new bv8[newCapacityInBytes];
        Memcpy(newElts, elements, curSizeBytes);
      } else {
        if !allocSucceeds {
          return Failure("Reallocation of SmallVector element failed.");
        }
        newElts := new bv8[newCapacityInBytes];
        Memcpy(newElts, elements, Min(elements.Length, newCapacityInBytes));
        assert newElts[..curSizeBytes] == newElts[..Min(elements.Length, newCapacityInBytes)][..curSizeBytes];
      }
      elements := newElts;
      sizeInBytes := curSizeBytes;
      r := Success(());
    }
  }
}
