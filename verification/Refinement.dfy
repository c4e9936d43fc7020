/** Runs of the protocol from one state to another. The code is shown to be such runs, and what holds in every
    reachable state therefore holds after it. */
module Refinement {
  import opened Protocol
  import ProtocolTheorems

  /** All the actions are enabled, one after the other, and the last one ends in `n`. */
  predicate Leads(s: State, actions: seq<Action>, n: State)
    decreases |actions|
  {
    if actions == [] then n == s else Enabled(s, actions[0]) && Leads(Step(s, actions[0]), actions[1..], n)
  }

  lemma {:induction false} LeadsOn(s: State, a: Action, rest: seq<Action>, n: State)
    requires Enabled(s, a) && Leads(Step(s, a), rest, n)
    ensures Leads(s, [a] + rest, n)
  {
    hide Step, Enabled;
    assert ([a] + rest)[1..] == rest;
  }

  lemma {:induction false} LeadsTogether(s: State, first: seq<Action>, m: State, second: seq<Action>, n: State)
    requires Leads(s, first, m) && Leads(m, second, n)
    ensures Leads(s, first + second, n)
    decreases |first|
  {
    hide Step, Enabled;
    if first == [] {
      assert first + second == second;
    } else {
      LeadsTogether(Step(s, first[0]), first[1..], m, second, n);
      assert (first + second)[1..] == first[1..] + second;
    }
  }

  /** A run from a reachable state ends in a reachable state. */
  lemma {:induction false} LeadsReachable(s: State, actions: seq<Action>, n: State)
    requires Reachable(s) && Leads(s, actions, n)
    ensures Reachable(n)
    decreases |actions|
  {
    hide Step, Enabled, Reachable;
    if actions != [] {
      ProtocolTheorems.ReachableNext(s, actions[0]);
      LeadsReachable(Step(s, actions[0]), actions[1..], n);
    }
  }

  // ---------------------------------------------------------------- short runs

  lemma {:induction false} NoActions(s: State) returns (actions: seq<Action>)
    ensures Leads(s, actions, s)
  {
    actions := [];
  }

  predicate IsStep(s: State, a: Action, n: State) {
    Enabled(s, a) && Step(s, a) == n
  }

  lemma {:induction false} OneStep(s: State, a: Action, n: State) returns (actions: seq<Action>)
    requires IsStep(s, a, n)
    ensures Leads(s, actions, n)
  {
    hide Step, Enabled;
    actions := StepThen(s, a, n, [], n);
  }

  lemma {:induction false} StepThen(s: State, a: Action, m: State, rest: seq<Action>, n: State)
    returns (actions: seq<Action>)
    requires IsStep(s, a, m) && Leads(m, rest, n)
    ensures Leads(s, actions, n)
  {
    hide Step, Enabled;
    LeadsOn(s, a, rest, n);
    actions := [a] + rest;
  }

  lemma {:induction false} FreshId(used: set<nat>) returns (t: nat)
    ensures forall u :: u in used ==> u < t
  {
    t := 0;
    var rest := used;
    while rest != {}
      invariant rest <= used
      invariant forall u :: u in used && u !in rest ==> u < t
      decreases rest
    {
      var u :| u in rest;
      t := if u < t then t else u + 1;
      rest := rest - {u};
    }
  }
}
