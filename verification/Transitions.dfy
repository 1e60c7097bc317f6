/** Runs of a transition system whose step says what an event leads to, if it can happen. */
module Transitions {
  import opened Wrappers

  /** The events can happen one after the other from `s` and lead to `t`. */
  ghost predicate Leads<S, E>(step: (S, E) -> Option<S>, s: S, events: seq<E>, t: S)
    decreases |events|
  {
    if events == [] then s == t
    else step(s, events[0]).Some? && Leads(step, step(s, events[0]).value, events[1..], t)
  }

  /** One more event. */
  lemma {:induction false} LeadsOn<S, E>(step: (S, E) -> Option<S>, start: S, events: seq<E>, s: S, e: E)
    requires Leads(step, start, events, s) && step(s, e).Some?
    ensures Leads(step, start, events + [e], step(s, e).value)
    decreases |events|
  {
    if events == [] {
      assert Leads(step, step(s, e).value, [e][1..], step(s, e).value);
    } else {
      LeadsOn(step, step(start, events[0]).value, events[1..], s, e);
      assert (events + [e])[1..] == events[1..] + [e];
    }
  }

  predicate PathAt<S(==), E>(step: (S, E) -> Option<S>, states: seq<S>, events: seq<E>, i: nat)
    requires |states| == |events| + 1 && i < |events|
  {
    step(states[i], events[i]) == Some(states[i + 1])
  }

  /** The states such events go through. */
  lemma {:induction false} PathOf<S, E>(step: (S, E) -> Option<S>, s: S, events: seq<E>, t: S) returns (states: seq<S>)
    requires Leads(step, s, events, t)
    ensures |states| == |events| + 1 && states[0] == s && states[|events|] == t
    ensures forall i :: 0 <= i < |events| ==> PathAt(step, states, events, i)
    decreases |events|
  {
    if events == [] {
      states := [s];
    } else {
      var rest := PathOf(step, step(s, events[0]).value, events[1..], t);
      states := [s] + rest;
      forall i | 0 <= i < |events| ensures PathAt(step, states, events, i) {
        if i > 0 { assert PathAt(step, rest, events[1..], i - 1); }
      }
    }
  }
}
