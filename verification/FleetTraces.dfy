/** Building runs step by step: a run together with the states it goes through. */
module FleetTraces {
  import opened Fleet
  import opened FleetSafety

  datatype Trace = Trace(actions: seq<Action>, states: seq<State>)

  /** From `s`, every action is enabled, obeys `p`, and leads to the next state. */
  ghost predicate Follows(s: State, r: Trace, p: (State, Action) -> bool) {
    && |r.states| == |r.actions| + 1 && r.states[0] == s
    && forall i {:trigger r.actions[i]} | 0 <= i < |r.actions| :: Step(r.states[i], r.actions[i], r.states[i + 1], p)
  }

  ghost predicate Step(s: State, a: Action, t: State, p: (State, Action) -> bool) {
    Enabled(s, a) && p(s, a) && Do(s, a) == t
  }

  function Last(r: Trace): State
    requires r.states != []
  {
    r.states[|r.states| - 1]
  }

  lemma Start(s: State, p: (State, Action) -> bool) returns (r: Trace)
    ensures Follows(s, r, p) && Last(r) == s
  {
    r := Trace([], [s]);
  }

  /** A trace can be continued by one enabled action that obeys `p`. */
  lemma Extend(s: State, r: Trace, a: Action, p: (State, Action) -> bool) returns (longer: Trace)
    requires Follows(s, r, p) && Enabled(Last(r), a) && p(Last(r), a)
    ensures Follows(s, longer, p) && Last(longer) == Do(Last(r), a)
  {
    longer := Trace(r.actions + [a], r.states + [Do(Last(r), a)]);
  }

  function Front(r: Trace): Trace
    requires r.actions != [] && |r.states| == |r.actions| + 1
  {
    Trace(r.actions[..|r.actions| - 1], r.states[..|r.actions|])
  }

  lemma FrontFollows(s: State, r: Trace, p: (State, Action) -> bool)
    requires Follows(s, r, p) && r.actions != []
    ensures Follows(s, Front(r), p)
    ensures Step(Last(Front(r)), r.actions[|r.actions| - 1], Last(r), p)
  {
    var n, front := |r.actions| - 1, Front(r);
    forall i {:trigger front.actions[i]} | 0 <= i < n
      ensures Step(front.states[i], front.actions[i], front.states[i + 1], p)
    {
      assert front.actions[i] == r.actions[i];
      assert front.states[i] == r.states[i] && front.states[i + 1] == r.states[i + 1];
    }
    assert Step(r.states[n], r.actions[n], r.states[n + 1], p);
  }

  /** A trace is a run, under `p` all along. */
  lemma {:induction false} IsRun(s: State, r: Trace, p: (State, Action) -> bool)
    requires Follows(s, r, p)
    ensures Legal(s, r.actions) && AllAlong(s, r.actions, p) && End(s, r.actions) == Last(r)
    decreases |r.actions|
  {
    if r.actions != [] {
      FrontFollows(s, r, p);
      IsRun(s, Front(r), p);
    }
  }

  /** A run can be continued by another. */
  lemma {:induction false} Concat(s: State, first: seq<Action>, second: seq<Action>, p: (State, Action) -> bool)
    requires Legal(s, first) && AllAlong(s, first, p)
    requires Legal(End(s, first), second) && AllAlong(End(s, first), second, p)
    ensures Legal(s, first + second) && AllAlong(s, first + second, p)
    ensures End(s, first + second) == End(End(s, first), second)
    decreases |second|
  {
    if second == [] {
      assert first + second == first;
    } else {
      var front, a := second[..|second| - 1], second[|second| - 1];
      Concat(s, first, front, p);
      assert (first + second)[..|first + second| - 1] == first + front;
    }
  }

  /** A discipline that concerns nothing but submitted deletions and label writes. */
  ghost predicate Lenient(p: (State, Action) -> bool) {
    forall t: State, a: Action | !a.SubmitDelete? && !a.WriteLabel? :: p(t, a)
  }
}
