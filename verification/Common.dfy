/** Small vocabulary shared by every other module. */
module Common {

  datatype Option<+T> = None | Some(value: T)

  /** Go's `(value, error)` pair, when the value is meaningful only without an error. */
  datatype Outcome<+T> = Ok(value: T) | Failed

  /** The distinct errors the batch machinery hands to its callers. */
  datatype Error =
    | GetMachineDeploymentError
    | UpdateMachineDeploymentError
    | GetMachineError
    | LabelMachineError
    | MarkMachineError
    | AnnotateNodeClaimError
    | NoMachineError
    | TooFewResultsError

  /** `batcher.Result`: a Go struct, so both halves, or neither, can be present. */
  datatype Result<+U> = Result(output: Option<U>, err: Option<Error>) {
    predicate Success() { output.Some? && err.None? }
    predicate Failure() { output.None? && err.Some? }
    /** Carries exactly one of output and error. */
    predicate Definite() { Success() || Failure() }
  }

  function Succeed<U>(u: U): Result<U> { Result(Some(u), None) }
  function Fail<U>(e: Error): Result<U> { Result(None, Some(e)) }

  function Min(a: int, b: int): int { if a < b then a else b }
  function Max(a: int, b: int): int { if a < b then b else a }

  function Upto(n: nat): set<nat> { if n == 0 then {} else Upto(n - 1) + {n - 1} }

  lemma UptoMembers(n: nat)
    ensures forall i: nat :: i in Upto(n) <==> i < n
  {
  }

  /** There is always a number not used yet. */
  lemma AboveAll(used: set<nat>) returns (n: nat)
    ensures forall x | x in used :: x < n
  {
    if used == {} {
      n := 0;
    } else {
      var x :| x in used;
      var m := AboveAll(used - {x});
      n := Max(m, x + 1);
      assert forall y | y in used :: y == x || y in used - {x};
    }
  }

  lemma CardSubset<T>(a: set<T>, b: set<T>)
    requires a <= b
    ensures |a| <= |b|
  {
    assert b == a + (b - a);
  }
}
