/** The int32 arithmetic the two executors do on `spec.replicas`. */
module Replicas {
  import opened Common

  const MAX_INT32 := 0x7fff_ffff
  const MIN_INT32 := -0x8000_0000

  /** Two's-complement truncation, as in Go's `int32(x)` and in int32 overflow. */
  function Wrap(x: int): (w: int)
    ensures MIN_INT32 <= w <= MAX_INT32
    ensures MIN_INT32 <= x <= MAX_INT32 ==> w == x
  {
    if MIN_INT32 <= x <= MAX_INT32 then x else (x + 0x8000_0000) % 0x1_0000_0000 - 0x8000_0000
  }

  /** A missing `spec.replicas` reads as zero. */
  function Deref(replicas: Option<int>): int { if replicas.Some? then replicas.value else 0 }

  /** Replicas to add for `n` requests when `unclaimed` Machines already wait. */
  function Deficit(n: nat, unclaimed: nat): int {
    var d := Wrap(Wrap(n) - Wrap(unclaimed));
    if d < 0 then 0 else d
  }

  /** The value a create batch leaves in `spec.replicas`, given what it read. */
  function Raised(replicas: int, n: nat, unclaimed: nat): int {
    var d := Deficit(n, unclaimed);
    if d > 0 then Wrap(replicas + d) else replicas
  }

  /** The value a delete batch writes to `spec.replicas`, given what it read. */
  function Lowered(replicas: int, marked: nat): int {
    var r := Wrap(replicas - Wrap(marked));
    if r < 0 then 0 else r
  }

  /** The increment is the mathematical one exactly when it does not overflow. */
  lemma RaisedExactIff(replicas: int, n: nat, unclaimed: nat)
    requires 0 <= replicas <= MAX_INT32 && n <= MAX_INT32 && unclaimed <= MAX_INT32
    ensures Raised(replicas, n, unclaimed) == replicas + Max(0, n - unclaimed)
       <==> replicas + Max(0, n - unclaimed) <= MAX_INT32
  {
  }

  /** The decrement never overflows; it stops at zero. */
  lemma LoweredExact(replicas: int, marked: nat)
    requires 0 <= replicas <= MAX_INT32 && marked <= MAX_INT32
    ensures Lowered(replicas, marked) == Max(0, replicas - marked)
  {
  }
}
