/**
 * The growth policy every realloc-backed buffer of the system follows: when an
 * append finds the buffer full, its capacity is doubled first.
 */
module Growth {

  /** The capacity after making room for one more element: doubled exactly when
      the buffer is full. */
  function GrownCapacity(count: nat, capacity: nat): (r: nat)
    ensures r == capacity || r == 2 * capacity
    ensures 0 < capacity && count <= capacity ==> count < r
    ensures 0 < capacity ==> (r == 2 * capacity <==> count >= capacity)
  {
    if count >= capacity then 2 * capacity else capacity
  }

  /** The capacity of a buffer created with room for `initial` elements once
      `n` elements have been appended to it. */
  function CapacityAfter(initial: nat, n: nat): (c: nat)
  {
    if n == 0 then initial else GrownCapacity(n - 1, CapacityAfter(initial, n - 1))
  }

  /** Appending never overflows the buffer, and doubling over-allocates by less
      than a factor of two. */
  lemma {:induction false} CapacityAfterBounds(initial: nat, n: nat)
    requires 0 < initial
    ensures n <= CapacityAfter(initial, n)
    ensures n <= initial ==> CapacityAfter(initial, n) == initial
    ensures n > initial ==> CapacityAfter(initial, n) < 2 * n
  {
    if n > 0 {
      CapacityAfterBounds(initial, n - 1);
    }
  }
}
