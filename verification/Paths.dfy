/** Building a run step by step, for any step relation. */
module Paths {

  ghost predicate IsPath<S(!new), E(!new)>(step: (S, E, S) -> bool, trace: seq<S>, events: seq<E>) {
    && |trace| == |events| + 1
    && forall i :: 0 <= i < |events| ==> step(trace[i], events[i], trace[i + 1])
  }

  ghost predicate Leads<S(!new), E(!new)>(step: (S, E, S) -> bool, trace: seq<S>, events: seq<E>, from: S, to: S) {
    IsPath(step, trace, events) && trace[0] == from && trace[|trace| - 1] == to
  }

  lemma Extend<S(!new), E(!new)>(step: (S, E, S) -> bool, trace: seq<S>, events: seq<E>, from: S, to: S, e: E, next: S)
    requires Leads(step, trace, events, from, to) && step(to, e, next)
    ensures Leads(step, trace + [next], events + [e], from, next)
  {
    var trace', events' := trace + [next], events + [e];
    forall i | 0 <= i < |events'|
      ensures step(trace'[i], events'[i], trace'[i + 1])
    {
      if i < |events| {
        assert step(trace[i], events[i], trace[i + 1]);
      }
    }
  }
}
