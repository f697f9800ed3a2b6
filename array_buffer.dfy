/**
 * src/base/Array.h: a growable buffer that hands out typed pointers into raw
 * bytes. The source picks the element type T per call (`obtain<T>`, `put<T>`,
 * `at<T>`); every user of an Array sticks to one T, so the model fixes the
 * element type and its size (`unit`, sizeof(T)) per instance. Capacity and
 * the put size stay in BYTES, as in the source.
 */
module ArrayBuffer {
  import opened Log

  /** The product of two positive integers is positive. */
  lemma PositiveProduct(x: int, u: int)
    requires x > 0 && u > 0
    ensures x * u > 0
  {
  }

  /** Multiplication by a positive unit size preserves strict order (and therefore equality). */
  lemma MulMonotone(a: int, b: int, u: int)
    requires u > 0
    ensures a < b <==> a * u < b * u
    ensures a == b <==> a * u == b * u
  {
    var d := b - a;
    assert b * u == a * u + d * u;
    if d > 0 {
      PositiveProduct(d, u);
    } else if d < 0 {
      PositiveProduct(-d, u);
      assert d * u == -((-d) * u);
    }
  }

  /** Euclidean division undoes multiplication by a positive unit size. */
  lemma MulDivCancel(n: int, u: int)
    requires u > 0
    ensures n * u / u == n
  {
    var q := n * u / u;
    var r := n * u % u;
    assert q * u + r == n * u;
    assert 0 <= r < u;
    assert (n - q) * u == r;
    if n - q > 0 { MulMonotone(0, n - q, u); }
    if n - q < 0 { MulMonotone(n - q, 0, u); }
  }

  /** Reduction of an integer into size_t. */
  function SizeT(x: int): (r: nat)
    ensures r < SIZE_T_MOD
  {
    x % SIZE_T_MOD
  }

  /**
   * The bounds test of `data<T>(index)` as the source writes it: with
   * `size_t bi = index * unitSize`, it is fatal iff `bi < 0 || bi > m_capacity - unitSize`
   * in size_t arithmetic. `bi < 0` never holds for an unsigned value, and
   * `m_capacity - unitSize` wraps to a huge value when the capacity is below one element.
   */
  predicate DataIndexFatalAsWritten(index: int, unit: nat, capacity: nat)
  {
    SizeT(SizeT(index) * unit) > SizeT(capacity - unit)
  }

  /** The evidently intended test: fatal unless element `index` lies entirely inside the capacity. */
  predicate DataIndexFatal(index: int, unit: nat, capacity: nat)
  {
    index < 0 || index * unit + unit > capacity
  }

  /** The intended test lets through exactly the indices of whole elements inside the buffer. */
  lemma DataIndexFatalIffOutside(index: int, unit: nat, length: nat)
    requires unit > 0
    ensures !DataIndexFatal(index, unit, length * unit) <==> 0 <= index < length
  {
    MulMonotone(length, index + 1, unit);
    assert (index + 1) * unit == index * unit + unit;
  }

  /** Whenever the capacity holds at least one element and no product wraps, the written test is the intended one. */
  lemma AsWrittenAgreesWhenNonEmpty(index: int, unit: nat, capacity: nat)
    requires 0 < unit <= capacity < SIZE_T_MOD
    requires 0 <= index && index * unit < SIZE_T_MOD
    ensures DataIndexFatalAsWritten(index, unit, capacity) == DataIndexFatal(index, unit, capacity)
  {
    assert SizeT(index) == index;
    assert 0 <= index * unit;
    assert SizeT(index * unit) == index * unit;
    assert SizeT(capacity - unit) == capacity - unit;
  }

  /** On an empty (null, capacity 0) buffer the written test lets index 0 through: the subtraction wraps. */
  lemma EmptyArrayPassesAsWrittenCheck(unit: nat)
    requires 0 < unit < SIZE_T_MOD
    ensures !DataIndexFatalAsWritten(0, unit, 0)
    ensures DataIndexFatal(0, unit, 0)
  {
    assert SizeT(0) == 0;
    assert SizeT(0 - unit) == SIZE_T_MOD - unit;
  }

  class Array<T(0)> {
    /** sizeof(T) */
    const unit: nat
    /** m_data, viewed as elements of T; null when nothing is allocated. */
    var data: array?<T>
    /** m_capacity, in bytes. */
    var capacity: nat
    /** m_data_size, in bytes: what the last put() copied. */
    var dataSize: nat
    ghost var Repr: set<object>

    ghost predicate Valid()
      reads this
    {
      && unit > 0
      && (data == null <==> capacity == 0)
      && (data != null ==> data.Length * unit == capacity)
      && Repr == {this} + (if data == null then {} else {data})
    }

    /** The elements currently allocated. */
    function Contents(): (s: seq<T>)
      reads this, Repr
      requires Valid()
      ensures |s| * unit == capacity
    {
      if data == null then [] else data[..]
    }

    constructor (unitSize: nat)
      requires unitSize > 0
      ensures Valid() && fresh(Repr)
      ensures unit == unitSize && data == null && capacity == 0 && dataSize == 0
    {
      unit := unitSize;
      data := null;
      capacity := 0;
      dataSize := 0;
      Repr := {this};
    }

    /**
     * obtain<T>(size, strict) with obtainBytes folded in: the request is
     * `size * sizeof(T)` bytes; a grow-only request reallocates when it exceeds
     * the capacity, a strict one whenever it differs. A reallocation to 0 bytes
     * leaves a null buffer. Without reallocation the buffer and its contents stay.
     */
    method Obtain(size: nat, strict: bool) returns (d: array?<T>)
      requires Valid()
      modifies this
      ensures Valid() && fresh(Repr - old(Repr))
      ensures d == data && dataSize == old(dataSize)
      ensures var realloc := if strict then size * unit != old(capacity) else size * unit > old(capacity);
              && (realloc ==> capacity == size * unit && (size > 0 ==> fresh(data)))
              && (!realloc ==> data == old(data) && capacity == old(capacity))
      ensures !strict ==> capacity == if size * unit > old(capacity) then size * unit else old(capacity)
      ensures strict ==> capacity == size * unit
      ensures data != null ==> size <= data.Length
      ensures data == old(data) ==> Contents() == old(Contents())
    {
      var bytes := size * unit;
      var needReallocate := bytes > capacity;
      if strict {
        needReallocate := bytes != capacity;
      }
      if needReallocate {
        if bytes > 0 {
          data := new T[size];
        } else {
          data := null;
        }
        capacity := bytes;
        Repr := {this} + (if data == null then {} else {data});
      }
      d := data;
      if data != null {
        MulMonotone(data.Length, size, unit);
      }
    }

    /**
     * put<T>(src, size, strict): obtains room for `size` elements, copies them
     * from `src` (memcpy reads `size` elements, so `src` must hold that many) and
     * records the byte count.
     */
    method Put(src: seq<T>, size: nat, strict: bool)
      requires Valid() && size <= |src|
      modifies Repr
      ensures Valid() && fresh(Repr - old(Repr))
      ensures !strict ==> capacity == if size * unit > old(capacity) then size * unit else old(capacity)
      ensures strict ==> capacity == size * unit
      ensures size <= |Contents()| && Contents()[..size] == src[..size]
      ensures (if strict then size * unit == old(capacity) else size * unit <= old(capacity)) ==>
                |Contents()| == |old(Contents())| && Contents()[size..] == old(Contents())[size..]
      ensures dataSize == size * unit
      ensures GetPutSize() == size
    {
      var d := Obtain(size, strict);
      if d != null {
        forall i | 0 <= i < size {
          d[i] := src[i];
        }
      } else {
        MulMonotone(0, size, unit);
      }
      dataSize := size * unit;
      MulDivCancel(size, unit);
    }

    /** getPutSize<T>(): the number of elements the last put() copied. */
    function GetPutSize(): int
      reads this
      requires Valid()
    {
      dataSize / unit
    }

    /**
     * data<T>(index): the element offset it returns, or the fatal error of its
     * bounds check. The check is the intended one; see DataIndexFatalAsWritten
     * for the code as written.
     */
    function Data(index: int): (r: Outcome<nat>)
      reads this, Repr
      requires Valid()
      ensures r.Ok? <==> 0 <= index < |Contents()|
      ensures r.Ok? ==> r.value == index
    {
      DataIndexFatalIffOutside(index, unit, |Contents()|);
      if DataIndexFatal(index, unit, capacity) then Raised("Invalid index") else Ok(index)
    }

    /** at<T>(index): the element data<T>(index) points at. */
    function At(index: int): (r: Outcome<T>)
      reads this, Repr
      requires Valid()
      ensures r.Ok? <==> 0 <= index < |Contents()|
      ensures r.Ok? ==> r.value == Contents()[index]
    {
      match Data(index)
      case Ok(i) => Ok(data[i])
      case Raised(msg) => Raised(msg)
    }

    /** free(): drops the buffer but not m_data_size, so getPutSize() still reports the last put. */
    method Free()
      requires Valid()
      modifies this
      ensures Valid() && Repr == {this}
      ensures data == null && capacity == 0
      ensures dataSize == old(dataSize) && GetPutSize() == old(GetPutSize())
    {
      data := null;
      capacity := 0;
      Repr := {this};
    }
  }
}
