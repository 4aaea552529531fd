/** The socket set's slot allocator: the lowest free slot is reused first. */
module Slots {
  function FirstFreeFrom(used: set<nat>, i: nat): (slot: nat)
    requires forall j: nat :: j < i ==> j in used
    ensures slot !in used && forall j: nat :: j < slot ==> j in used
    decreases |used| - i
  {
    if i !in used then i else
    Below(used, i + 1);
    FirstFreeFrom(used, i + 1)
  }

  function FirstFree(used: set<nat>): (slot: nat)
    ensures slot !in used && forall j: nat :: j < slot ==> j in used
  {
    FirstFreeFrom(used, 0)
  }

  /** A set holding every number below n has at least n elements. */
  lemma {:induction false} Below(used: set<nat>, n: nat)
    requires forall j: nat :: j < n ==> j in used
    ensures n <= |used|
  {
    if n == 0 {
    } else {
      Below(used - {n - 1}, n - 1);
    }
  }
}
