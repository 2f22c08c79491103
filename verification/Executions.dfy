/** Runs of the protocol, under the hypotheses one chooses to assume. */
module Executions {
  import opened Basics
  import opened Protocol

  /** The step can happen where it stands and meets the hypotheses. */
  ghost predicate CanStep(w: World, a: Action, assumed: Assumed) {
    Linked(w) && Enabled(w, a) && Meets(w, a, assumed)
  }

  ghost predicate Admissible(w: World, run: seq<Action>, assumed: Assumed)
    decreases |run|
  {
    run == [] || (CanStep(w, run[0], assumed) && Admissible(Apply(w, run[0]).0, run[1..], assumed))
  }

  /** The world after a run. */
  ghost function Exec(w: World, run: seq<Action>, assumed: Assumed): World
    requires Admissible(w, run, assumed)
    decreases |run|
  {
    if run == [] then w else Exec(Apply(w, run[0]).0, run[1..], assumed)
  }

  ghost predicate Leads(w: World, run: seq<Action>, w': World, assumed: Assumed) {
    Admissible(w, run, assumed) && Exec(w, run, assumed) == w'
  }

  ghost predicate LeadsFromStart(w0: World, run: seq<Action>, w: World, assumed: Assumed) {
    Initial(w0) && Leads(w0, run, w, assumed)
  }

  /** Some run from an empty gateway leads to this world. */
  ghost predicate Reached(w: World, assumed: Assumed) {
    exists w0: World, run: seq<Action> :: LeadsFromStart(w0, run, w, assumed)
  }

  lemma {:induction false} OneMore(w0: World, run: seq<Action>, w: World, a: Action, assumed: Assumed)
    requires Leads(w0, run, w, assumed) && CanStep(w, a, assumed)
    ensures Leads(w0, run + [a], Apply(w, a).0, assumed)
    decreases |run|
  {
    if run == [] {
      assert run + [a] == [a];
      assert [a][1..] == [];
    } else {
      assert (run + [a])[1..] == run[1..] + [a];
      OneMore(Apply(w0, run[0]).0, run[1..], w, a, assumed);
    }
  }

  /** A run that meets more hypotheses meets fewer. */
  lemma {:induction false} LeadsUnderFewer(w: World, run: seq<Action>, w': World, more: Assumed, fewer: Assumed)
    requires Leads(w, run, w', more)
    requires (fewer.h1 ==> more.h1) && (fewer.h2 ==> more.h2) && (fewer.h3 ==> more.h3) && (fewer.h4 ==> more.h4)
    ensures Leads(w, run, w', fewer)
    decreases |run|
  {
    if run != [] {
      LeadsUnderFewer(Apply(w, run[0]).0, run[1..], w', more, fewer);
    }
  }
}
