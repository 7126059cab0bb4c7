/** The executors' critical sections are the steps the interleaving system folds. */
module Sections {
  import opened Common
  import opened Machines
  import opened Replicas
  import opened ApiServer
  import opened CreateSpec
  import opened CreateBatch
  import opened CreateRuns
  import DeleteBatch
  import DeleteTheorems
  import Fleet

  /** A served create batch is `Raise`; a refused one is nothing. */
  lemma CreateIsSection(w: World, inputs: seq<CreateInput>, results: seq<Result<CreateOutput>>, t: Trail, v: World,
                        d: Key)
    requires inputs != [] && inputs[0].deployment == d && |inputs| <= MAX_INT32
    requires CreateEffect(w, inputs, results, t, v)
    requires |UnclaimedOf(w.machines, d)| <= MAX_INT32
    requires 0 <= ReplicasOf(w, d) && ReplicasOf(w, d) + |inputs| <= MAX_INT32
    ensures var e := if Served(w, inputs, results, t, v)
                     then Fleet.Raise(|inputs|, if t.listed then |UnclaimedOf(w.machines, d)| else 0)
                     else Fleet.Nothing;
      ReplicasOf(v, d) == Fleet.Apply(e, ReplicasOf(w, d))
  {
    RaisedExactIff(ReplicasOf(w, d), |inputs|, if t.listed then |UnclaimedOf(w.machines, d)| else 0);
  }

  /** A delete batch in which somebody succeeds is `Lower`; any other is nothing. */
  lemma DeleteIsSection(w: World, inputs: seq<DeleteBatch.DeleteInput>, results: seq<Result<DeleteBatch.DeleteOutput>>,
                        annotated: seq<bool>, left: set<Key>, v: World, d: Key)
    requires inputs != [] && inputs[0].deployment == d && |inputs| <= MAX_INT32
    requires DeleteBatch.DeleteEffect(w, inputs, results, annotated, left, v)
    requires 0 <= ReplicasOf(w, d) <= MAX_INT32
    ensures var e := if exists i :: 0 <= i < |results| && results[i].Success()
                     then Fleet.Lower(DeleteBatch.Count(annotated)) else Fleet.Nothing;
      ReplicasOf(v, d) == Fleet.Apply(e, ReplicasOf(w, d))
  {
    DeleteTheorems.CountBound(annotated);
    DeleteBatch.CountPositive(inputs, annotated);
    LoweredExact(ReplicasOf(w, d), DeleteBatch.Count(annotated));
    if DeleteBatch.Count(annotated) != 0 && DeleteBatch.Done(w, inputs, results, annotated, v) {
      var i :| 0 <= i < |annotated| && annotated[i];
      assert results[i].Success();
    }
  }
}
