/** Whole runs: the invariant holds along them, and what never goes back. */
module Runs {
  import opened Basics
  import opened Steps
  import opened SessionStore
  import opened HttpApi
  import opened Protocol
  import opened Effects
  import opened Ledger
  import opened Custody
  import opened Storage
  import opened Executions
  import opened Invariant
  import opened Preservation
  import opened StepInvariants
  import opened StartInvariants

  lemma AdvanceJourneys(w: World, t: Tid, input: Input)
    requires Inv(w) && CanStep(w, Advance(t, input), ALL)
    ensures Journeys(DoAdvance(w, t, input).0)
  {
    match w.threads[t]
    case Starting(_, _, _, _, _, _) => NewJourneys(w, t, input.reading);
    case Created(_, _, _, _) => BegunJourneys(w, t);
    case Found(_, _) => ClaimJourneys(w, t);
    case Claimed(_, _, _) => ResumeJourneys(w, t, input.reply);
    case Got(_, _, _) => KeepHandleJourneys(w, t);
    case Planned(_, _, _, _) => PlannedJourneys(w, t, input);
    case Responded(_, _, _, _, _) => ResumeHTTPJourneys(w, t, input.reply);
    case Indexed(_, _, _, _) => ReopenJourneys(w, t);
    case Finalizing(_, _, _) => FinalizeJourneys(w, t);
    case Driven(_, _, _, _, _) => ViewJourneys(w, t);
    case _ => ReturnJourneys(w, t);
  }

  lemma PlannedJourneys(w: World, t: Tid, input: Input)
    requires Journeys(w) && t in w.threads && w.threads[t].Planned? && InputFits(w.threads[t], input)
    ensures Journeys(DoPlanned(w, t, input))
  {
    match w.threads[t].plan
    case Effect(_) => UpstreamJourneys(w, t, input.response);
    case Index(_, _) => IndexJourneys(w, t);
    case _ => SettleJourneys(w, t);
  }

  lemma StepJourneys(w: World, a: Action)
    requires Inv(w) && CanStep(w, a, ALL)
    ensures Journeys(Apply(w, a).0)
  {
    match a
    case Tick(reading) => TickJourneys(w, reading);
    case Poll(id, what) => PollJourneys(w, id, what);
    case Start(t, r, id, clientState, conformance, reply) => StartJourneys(w, t, r, id, clientState, conformance, reply);
    case Callback(t, req) => LookupJourneys(w, t, req);
    case Advance(t, input) => AdvanceJourneys(w, t, input);
  }

  /** Every step that can happen, in any interleaving, keeps the invariant under H1-H4. */
  lemma StepInv(w: World, a: Action)
    requires Inv(w) && CanStep(w, a, ALL)
    ensures Inv(Apply(w, a).0)
  {
    StepCustody(w, a);
    StepJourneys(w, a);
  }

  lemma {:induction false} RunInv(w: World, run: seq<Action>)
    requires Inv(w) && Admissible(w, run, ALL)
    ensures Inv(Exec(w, run, ALL))
    decreases |run|
  {
    if run != [] {
      StepInv(w, run[0]);
      RunInv(Apply(w, run[0]).0, run[1..]);
    }
  }

  /** A world some run from an empty gateway leads to, under H1-H4. */
  ghost predicate Reachable(w: World)
    ensures Reachable(w) ==> Linked(w)
  {
    assert Reached(w, ALL) ==> Linked(w) by {
      if Reached(w, ALL) { ReachedInv(w); }
    }
    Reached(w, ALL)
  }

  lemma ReachedInv(w: World)
    requires Reached(w, ALL)
    ensures Inv(w)
  {
    var w0: World, run: seq<Action> :| LeadsFromStart(w0, run, w, ALL);
    InitialInv(w0);
    RunInv(w0, run);
  }

  /** The invariant holds in every reachable world. */
  lemma ReachableInv(w: World)
    requires Reachable(w)
    ensures Inv(w)
  {
    ReachedInv(w);
  }

  // --- What only grows -------------------------------------------------------------

  /** Session `r` later: same identity and deadline, a longer conversation, no new settlement, no
      way back into the store. */
  ghost predicate SessionLater(w: World, w': World, r: Ref)
    requires r in w.hist && r in w'.hist
  {
    HistoryLater(w.hist[r], w'.hist[r]) && (r in w.store.heap ==> SameIdentity(w, w', r))
  }

  ghost predicate Later(w: World, w': World) {
    && NamesLater(w, w')
    && (forall r | r in w.hist :: r in w'.hist && SessionLater(w, w', r))
  }

  lemma LaterTransitive(w1: World, w2: World, w3: World)
    requires Later(w1, w2) && Later(w2, w3)
    ensures Later(w1, w3)
  {
    forall r | r in w1.hist ensures r in w3.hist && SessionLater(w1, w3, r) {
      assert SessionLater(w1, w2, r);
      assert SessionLater(w2, w3, r);
    }
  }

  // --- Histories -----------------------------------------------------------------------

  ghost predicate HistoryLater(h: Hist, h': Hist) {
    GrownFrom(h, h') && (h.settled.Some? ==> h'.settled == h.settled)
  }

  /** Only a settlement settles. */
  lemma SettledStays(w: World, t: Tid, input: Input, r: Ref)
    requires Linked(w) && Enabled(w, Advance(t, input)) && r in w.hist && w.hist[r].settled.Some?
    requires w.threads[t].Planned? ==> w.threads[t].r != r
    ensures r in DoAdvance(w, t, input).0.hist && DoAdvance(w, t, input).0.hist[r].settled == w.hist[r].settled
  {
    match w.threads[t]
    case Starting(_, _, _, _, _, _) =>
    case Found(_, _) => ClaimSettles(w, t, r);
    case Driven(_, _, _, _, _) =>
    case Begun(_, _, _) => ReturnTouches(w, t);
    case Answered(_, _, _, _, _) => ReturnTouches(w, t);
    case _ =>
      AdvancePuts(w, t, input);
      PutSettles(w, DoAdvance(w, t, input).0, t, input, r);
  }

  lemma ClaimSettles(w: World, t: Tid, r: Ref)
    requires Linked(w) && t in w.threads && w.threads[t].Found? && r in w.hist
    ensures r in DoClaim(w, t).hist && DoClaim(w, t).hist[r].settled == w.hist[r].settled
  {
    if Consume(w.store, w.threads[t].r, w.now).1.Ok? { ClaimPuts(w, t); } else { RefusedPuts(w, t); }
  }

  lemma PutSettles(w: World, w': World, t: Tid, input: Input, r: Ref)
    requires t in w.threads && PutsOnly(w.threads[t]) && InputFits(w.threads[t], input) && r in w.hist
    requires w.threads[t].r in w.store.heap && w.threads[t].r in w.hist && Advances(w, w', t, input)
    requires w.threads[t].Planned? ==> w.threads[t].r != r
    ensures r in w'.hist && w'.hist[r].settled == w.hist[r].settled
  {
  }

  /** No call is about to settle a session that is settled. */
  lemma PlannerIsOpen(w: World, t: Tid)
    requires Inv(w) && t in w.threads && w.threads[t].Planned?
    ensures w.hist[w.threads[t].r].settled == None
  {
    assert SessionAt(w, w.threads[t].r) && ThreadAt(w, t);
  }

  lemma StepHistory(w: World, a: Action, r: Ref)
    requires Inv(w) && CanStep(w, a, ALL) && r in w.hist
    ensures r in Apply(w, a).0.hist && HistoryLater(w.hist[r], Apply(w, a).0.hist[r])
  {
    HistoryGrows(w, a, r);
    if a.Advance? && w.hist[r].settled.Some? {
      if w.threads[a.t].Planned? { PlannerIsOpen(w, a.t); }
      SettledStays(w, a.t, a.input, r);
    }
  }

  // --- Identities, names, the clock -------------------------------------------------------

  ghost predicate NamesLater(w: World, w': World) {
    && w'.cfg == w.cfg && w.now <= w'.now && w.published <= w'.published
    && (forall x | x in w.ids :: x in w'.ids && w'.ids[x] == w.ids[x])
  }

  lemma AdvanceNames(w: World, t: Tid, input: Input)
    requires CanStep(w, Advance(t, input), H1_H2)
    ensures NamesLater(w, DoAdvance(w, t, input).0)
  {
  }

  lemma StepNames(w: World, a: Action)
    requires CanStep(w, a, H1_H2)
    ensures NamesLater(w, Apply(w, a).0)
  {
    if a.Advance? { AdvanceNames(w, a.t, a.input); }
  }

  /** Nothing that has happened is undone by a step. */
  lemma StepLater(w: World, a: Action)
    requires Inv(w) && CanStep(w, a, ALL)
    ensures Later(w, Apply(w, a).0)
  {
    var w' := Apply(w, a).0;
    StepNames(w, a);
    forall r | r in w.hist ensures r in w'.hist && SessionLater(w, w', r) {
      StepHistory(w, a, r);
      if r in w.store.heap { StepIdentities(w, a, r); }
    }
  }

  lemma {:induction false} RunLater(w: World, run: seq<Action>)
    requires Inv(w) && Admissible(w, run, ALL)
    ensures Later(w, Exec(w, run, ALL))
    decreases |run|
  {
    if run != [] {
      var w' := Apply(w, run[0]).0;
      StepInv(w, run[0]);
      StepLater(w, run[0]);
      RunLater(w', run[1..]);
      LaterTransitive(w, w', Exec(w, run, ALL));
    }
  }
}
