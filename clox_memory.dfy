/** The growth policy and the reallocation contract of clox's memory.h. */
module Memory {

  /** GROW_CAPACITY: an empty or small buffer jumps to 8 slots, larger ones double. */
  function GrowCapacity(capacity: int): (r: int)
    ensures r >= 8
    ensures capacity >= 0 ==> r > capacity
    ensures capacity >= 8 ==> r == 2 * capacity
    ensures capacity < 8 ==> r == 8
  {
    if capacity < 8 then 8 else capacity * 2
  }

  /** The sequence of capacities a buffer goes through when grown `n` times from `start`. */
  function Capacities(start: int, n: nat): (cs: seq<int>)
    ensures |cs| == n + 1 && cs[0] == start
    decreases n
  {
    if n == 0 then [start] else [start] + Capacities(GrowCapacity(start), n - 1)
  }

  /** Growing from nothing gives 8, 16, 32, ...: after the first step each capacity doubles. */
  lemma {:induction false} CapacitiesFromZero(n: nat, k: nat)
    requires 1 <= k <= n
    ensures Capacities(0, n)[k] == 8 * Pow2(k - 1)
  {
    CapacitiesShift(0, n, k);
    CapacitiesFromEight(n - 1, k - 1);
  }

  lemma {:induction false} CapacitiesShift(start: int, n: nat, k: nat)
    requires 1 <= k <= n
    ensures Capacities(start, n)[k] == Capacities(GrowCapacity(start), n - 1)[k - 1]
  {
  }

  lemma {:induction false} CapacitiesFromEight(n: nat, k: nat)
    requires k <= n
    ensures Capacities(8, n)[k] == 8 * Pow2(k)
    decreases n
  {
    if k > 0 {
      CapacitiesDouble(8, n, k);
      CapacitiesFromEight(n - 1, k - 1);
      assert Capacities(16, n - 1)[k - 1] == 2 * Capacities(8, n - 1)[k - 1] by {
        CapacitiesScale(8, n - 1, k - 1);
      }
    }
  }

  lemma {:induction false} CapacitiesDouble(start: int, n: nat, k: nat)
    requires start >= 8 && 1 <= k <= n
    ensures Capacities(start, n)[k] == Capacities(2 * start, n - 1)[k - 1]
  {
  }

  /** Starting twice as large (and at least 8) stays twice as large. */
  lemma {:induction false} CapacitiesScale(start: int, n: nat, k: nat)
    requires start >= 8 && k <= n
    ensures Capacities(2 * start, n)[k] == 2 * Capacities(start, n)[k]
    decreases n
  {
    if k > 0 {
      CapacitiesScale(2 * start, n - 1, k - 1);
    }
  }

  function Pow2(k: nat): (r: nat)
    ensures r >= 1
  {
    if k == 0 then 1 else 2 * Pow2(k - 1)
  }

  function Min(a: int, b: int): int { if a < b then a else b }

  /**
   * GROW_ARRAY (checked_grow_array over realloc): a new count of zero releases the
   * storage and yields NULL; otherwise the result holds newCount slots and keeps the
   * elements the old allocation and the new one have in common. The new slots are
   * filled with `fill` (C leaves them indeterminate).
   */
  method GrowArray<T>(pointer: array?<T>, oldCount: nat, newCount: nat, fill: T) returns (r: array?<T>)
    requires pointer == null ==> oldCount == 0
    requires pointer != null ==> oldCount <= pointer.Length
    ensures newCount == 0 ==> r == null
    ensures newCount > 0 ==> r != null && fresh(r) && r.Length == newCount
    ensures newCount > 0 && pointer != null ==>
      r[..Min(pointer.Length, newCount)] == old(pointer[..Min(pointer.Length, newCount)])
  {
    if newCount == 0 {
      return null;
    }
    var b := new T[newCount](_ => fill);
    if pointer != null {
      var keep := Min(pointer.Length, newCount);
      var i := 0;
      while i < keep
        invariant 0 <= i <= keep
        invariant b[..i] == pointer[..i]
      {
        b[i] := pointer[i];
        i := i + 1;
      }
    }
    r := b;
  }
}
