/** clox's growable array of constants (value.c). */
module Values {
  import Memory

  /** In this clox snapshot every value is a double; the model uses reals. */
  type Value = real

  class ValueArray {
    var capacity: int
    var count: int
    var values: array?<Value>

    ghost predicate Valid()
      reads this
    {
      && 0 <= count <= capacity
      && (values == null ==> capacity == 0)
      && (values != null ==> values.Length == capacity)
    }

    /** The values written so far, in order. */
    ghost function Contents(): seq<Value>
      reads this, values
      requires Valid()
    {
      if values == null then [] else values[..count]
    }

    /** initValueArray on a freshly declared array. */
    constructor ()
      ensures Valid() && values == null && capacity == 0 && count == 0 && Contents() == []
    {
      values, capacity, count := null, 0, 0;
    }

    /** initValueArray: empty, no storage. */
    method Init()
      modifies this
      ensures Valid() && values == null && capacity == 0 && count == 0 && Contents() == []
    {
      values, capacity, count := null, 0, 0;
    }

    /** freeValueArray: release the storage and re-initialise. */
    method Free()
      modifies this
      ensures Valid() && values == null && capacity == 0 && count == 0 && Contents() == []
    {
      Init();
    }

    /**
     * writeValueArray: grow (to GROW_CAPACITY of the old capacity) only when the
     * buffer is full, then store the value at the old count.
     */
    method Write(value: Value)
      requires Valid()
      modifies this, values
      ensures Valid()
      ensures count == old(count) + 1
      ensures Contents() == old(Contents()) + [value]
      ensures capacity == if old(capacity) <= old(count) then Memory.GrowCapacity(old(capacity)) else old(capacity)
      ensures old(capacity) > old(count) ==> values == old(values)
    {
      ghost var before := Contents();
      if capacity <= count {
        var oldCapacity := capacity;
        var newCapacity := Memory.GrowCapacity(oldCapacity);
        values := Memory.GrowArray(values, oldCapacity, newCapacity, 0.0);
        capacity := newCapacity;
        assert values[..count] == before;
      }
      values[count] := value;
      count := count + 1;
      assert values[..count] == before + [value];
    }
  }
}
