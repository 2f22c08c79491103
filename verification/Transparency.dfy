/**
 Polling is invisible: extra status and result polls, anywhere in any run, change no answer of the
 others. Expiry is applied lazily by whoever looks, so a poll may rewrite the record of a session,
 even while a drive is in flight; the two worlds below differ by exactly such rewriting. H4 is not
 needed: claims may race as they like.
 */
module Transparency {
  import opened Basics
  import opened Steps
  import opened SessionStore
  import opened HttpApi
  import opened Protocol
  import opened Executions
  import opened Effects
  import opened Ledger
  import opened Custody
  import opened Storage

  /** The record as a look at it now would leave it. */
  ghost function Now(rec: Record, now: int): Record {
    if Due(rec, now) then Lapsed(rec) else rec
  }

  /** A look shows the same, but for the reason of a completed session, which no answer shows. */
  ghost predicate ShowAlike(a: View, b: View) {
    a == b.(reason := a.reason) && (a.status != Completed ==> a.reason == b.reason)
  }

  /** Two records of one session that no answer tells apart: the same before the deadline, and after it
      the same to look at. */
  ghost predicate Alike(now: int, a: Record, b: Record) {
    && a.correlationID == b.correlationID && a.clientState == b.clientState && a.conformance == b.conformance
    && a.createdAt == b.createdAt && a.expiresAt == b.expiresAt && a.resuming == b.resuming
    && a.resultPDF == b.resultPDF && a.evidence == b.evidence
    && (if PastDeadline(a, now) then ShowAlike(ViewOf(Now(a, now)), ViewOf(Now(b, now))) else a == b)
  }

  ghost predicate AlikeHeaps(now: int, a: map<Ref, Record>, b: map<Ref, Record>) {
    a.Keys == b.Keys && forall r | r in a :: Alike(now, a[r], b[r])
  }

  /** Two worlds that differ at most in what lazy expiry has or has not written yet. */
  ghost predicate Sim(w: World, v: World) {
    && v == w.(store := v.store)
    && v.store.byID == w.store.byID
    && AlikeHeaps(w.now, w.store.heap, v.store.heap)
  }

  lemma SimReflexive(w: World)
    ensures Sim(w, w)
  {
  }

  lemma SimSymmetric(w: World, v: World)
    requires Sim(w, v)
    ensures Sim(v, w)
  {
  }

  lemma LapseAlike(now: int, a: Record, b: Record)
    requires Alike(now, a, b) && Due(a, now)
    ensures Alike(now, Lapsed(a), b)
  {
  }

  lemma SimExpireLeft(w: World, v: World, r: Ref)
    requires Sim(w, v) && r in w.store.heap
    ensures Sim(Expired(w, r), v)
  {
    if Due(w.store.heap[r], w.now) {
      LapseAlike(w.now, w.store.heap[r], v.store.heap[r]);
    }
  }

  lemma SimExpireBoth(w: World, v: World, r: Ref)
    requires Sim(w, v) && r in w.store.heap
    ensures Sim(Expired(w, r), Expired(v, r))
  {
    SimExpireLeft(w, v, r);
    SimSymmetric(Expired(w, r), v);
    SimExpireLeft(v, Expired(w, r), r);
    SimSymmetric(Expired(v, r), Expired(w, r));
  }

  // --- Views ---------------------------------------------------------------------

  lemma ObservationsAlike(a: View, b: View)
    requires ShowAlike(a, b)
    ensures StatusAnswer(Some(a)) == StatusAnswer(Some(b)) && ResultAnswer(Some(a)) == ResultAnswer(Some(b))
  {
  }

  /** Looked at now, similar sessions show the same. */
  lemma LookAlike(w: World, v: World, id: string)
    requires Linked(w) && Linked(v) && Sim(w, v) && id in w.store.byID
    ensures var a, b := ViewByID(w.store, id, w.now).1, ViewByID(v.store, id, v.now).1;
            a.Some? && b.Some? && ShowAlike(a.value, b.value)
  {
    var r := w.store.byID[id];
    assert Alike(w.now, w.store.heap[r], v.store.heap[r]);
  }

  lemma PollSim(w: World, v: World, id: string, what: Observation)
    requires Linked(w) && Linked(v) && Sim(w, v)
    ensures Sim(DoPoll(w, id, what).0, DoPoll(v, id, what).0)
    ensures DoPoll(w, id, what).1 == DoPoll(v, id, what).1
  {
    if id in w.store.byID {
      SimExpireBoth(w, v, w.store.byID[id]);
      LookAlike(w, v, id);
      ObservationsAlike(ViewByID(w.store, id, w.now).1.value, ViewByID(v.store, id, v.now).1.value);
    }
  }

  /** An extra poll on one side leaves the worlds similar. */
  lemma ExtraPoll(w: World, v: World, id: string, what: Observation)
    requires Linked(w) && Sim(w, v)
    ensures Sim(DoPoll(w, id, what).0, v)
  {
    if id in w.store.byID {
      SimExpireLeft(w, v, w.store.byID[id]);
    }
  }

  // --- Lookup and claim ------------------------------------------------------------

  /** A state that has been handed out finds only sessions before their deadline. */
  lemma FindsOpenOnly(w: World, state: string, r: Ref)
    requires Orderly(w) && (state in w.issued ==> state in w.published)
    requires GetByState(w.store, state, w.now).1 == Some(r)
    ensures ScanFinds(w.store, state, r) && !PastDeadline(w.store.heap[r], w.now)
  {
    LookupIsScan(w.store, state, w.now, r);
    if w.store.heap[r].status.Terminal() {
      MarkedIsUnpublished(w, state, r);
    }
  }

  lemma FindsAlike(w: World, v: World, state: string, r: Ref)
    requires Orderly(w) && Orderly(v) && Sim(w, v) && (state in w.issued ==> state in w.published)
    requires GetByState(w.store, state, w.now).1 == Some(r)
    ensures GetByState(v.store, state, v.now).1 == Some(r)
  {
    FindsOpenOnly(w, state, r);
    assert Alike(w.now, w.store.heap[r], v.store.heap[r]);
    LookupIsScan(w.store, state, w.now, r);
    LookupIsScan(v.store, state, v.now, r);
  }

  lemma LookupStoreSim(w: World, v: World, state: string)
    requires Linked(w) && Linked(v) && Sim(w, v)
    ensures Sim(AfterLookup(w, state), AfterLookup(v, state))
  {
    var w1, v1 := AfterLookup(w, state), AfterLookup(v, state);
    if state in w.store.byState && w.store.byState[state] != "" && w.store.byState[state] in w.store.byID {
      SimExpireLeft(w, v, w.store.byID[w.store.byState[state]]);
    }
    SimSymmetric(w1, v);
    if state in v.store.byState && v.store.byState[state] != "" && v.store.byState[state] in v.store.byID {
      SimExpireLeft(v, w1, v.store.byID[v.store.byState[state]]);
    }
    SimSymmetric(v1, w1);
  }

  lemma LookupSim(w: World, v: World, t: Tid, req: Request)
    requires Orderly(w) && Orderly(v) && Sim(w, v) && t !in w.threads
    requires StateWasHandedOut(w, Callback(t, req))
    ensures Sim(DoLookup(w, t, req).0, DoLookup(v, t, req).0)
    ensures DoLookup(w, t, req).1 == DoLookup(v, t, req).1
  {
    if Valid(req) {
      LookupStoreSim(w, v, req.state);
      var fw := GetByState(w.store, req.state, w.now).1;
      var fv := GetByState(v.store, req.state, v.now).1;
      if fw.Some? { FindsAlike(w, v, req.state, fw.value); }
      SimSymmetric(w, v);
      if fv.Some? { FindsAlike(v, w, req.state, fv.value); }
      assert fw == fv;
    }
  }

  /** Similar sessions accept or refuse a claim alike, give the same handle, and stay alike. */
  lemma ClaimAlike(w: World, v: World, r: Ref)
    requires Sim(w, v) && r in w.store.heap
    ensures Consume(w.store, r, w.now).1 == Consume(v.store, r, v.now).1
    ensures Consume(w.store, r, w.now).1.Ok? ==> w.store.heap[r] == v.store.heap[r]
    ensures AlikeHeaps(w.now, Consume(w.store, r, w.now).0.heap, Consume(v.store, r, v.now).0.heap)
  {
    assert Alike(w.now, w.store.heap[r], v.store.heap[r]);
    SimExpireBoth(w, v, r);
  }

  lemma ClaimSim(w: World, v: World, t: Tid)
    requires Linked(w) && Linked(v) && Sim(w, v) && t in w.threads && w.threads[t].Found?
    ensures Sim(DoClaim(w, t), DoClaim(v, t))
  {
    ClaimAlike(w, v, w.threads[t].r);
  }

  // --- Writes -----------------------------------------------------------------------

  lemma HandleAlike(now: int, a: Record, b: Record, handle: Bytes)
    requires Alike(now, a, b)
    ensures Alike(now, WithHandle(a, handle), WithHandle(b, handle))
  {
  }

  lemma ReopenAlike(now: int, a: Record, b: Record)
    requires Alike(now, a, b)
    ensures Alike(now, Reopened(a), Reopened(b))
  {
  }

  lemma StateAlike(now: int, a: Record, b: Record, state: string)
    requires Alike(now, a, b)
    ensures Alike(now, a.(oauthState := state, resuming := false), b.(oauthState := state, resuming := false))
  {
  }

  lemma SettleAlike(now: int, a: Record, b: Record, plan: Plan)
    requires Alike(now, a, b) && (plan.Finish? || plan.Fail?)
    ensures Alike(now, Settled(a, plan), Settled(b, plan))
  {
  }

  /** Every write of a call leaves alike records alike. */
  lemma NextAlike(now: int, th: Thread, a: Record, b: Record)
    requires PutsOnly(th) && Alike(now, a, b)
    ensures Alike(now, NextRecord(th, a), NextRecord(th, b))
  {
    match th
    case Created(_, handle, _, _) =>
      HandleAlike(now, a, b, handle);
      ReopenAlike(now, WithHandle(a, handle), WithHandle(b, handle));
    case Got(_, _, res) => HandleAlike(now, a, b, res.handle);
    case Planned(_, _, _, plan) =>
      if plan.Index? { StateAlike(now, a, b, plan.state); } else if !plan.Effect? { SettleAlike(now, a, b, plan); }
    case Indexed(_, _, _, _) => ReopenAlike(now, a, b);
    case Finalizing(_, _, _) =>
      HandleAlike(now, a, b, []);
      StateAlike(now, WithHandle(a, []), WithHandle(b, []), "");
    case _ =>
  }

  /** A step that puts alike records in the place of alike ones, and the rest the same, keeps the worlds
      similar. */
  lemma PutSim(w: World, v: World, w': World, v': World, t: Tid, input: Input)
    requires Sim(w, v) && t in w.threads && PutsOnly(w.threads[t]) && InputFits(w.threads[t], input)
    requires w.threads[t].r in w.store.heap && w.threads[t].r in w.hist
    requires Advances(w, w', t, input) && Advances(v, v', t, input)
    ensures Sim(w', v')
  {
    var r := w.threads[t].r;
    assert Alike(w.now, w.store.heap[r], v.store.heap[r]);
    NextAlike(w.now, w.threads[t], w.store.heap[r], v.store.heap[r]);
    HeapsStayAlike(w.now, w.store.heap, v.store.heap, r, w'.store.heap[r], v'.store.heap[r]);
  }

  lemma HeapsStayAlike(now: int, a: map<Ref, Record>, b: map<Ref, Record>, r: Ref, rec: Record, rec': Record)
    requires AlikeHeaps(now, a, b) && r in a && Alike(now, rec, rec')
    ensures AlikeHeaps(now, a[r := rec], b[r := rec'])
  {
  }

  lemma DriveSim(w: World, v: World, t: Tid, input: Input)
    requires Sim(w, v) && Linked(w) && Linked(v) && Enabled(w, Advance(t, input)) && PutsOnly(w.threads[t])
    ensures Sim(DoAdvance(w, t, input).0, DoAdvance(v, t, input).0)
    ensures DoAdvance(w, t, input).1 == DoAdvance(v, t, input).1 == None
  {
    AdvancePuts(w, t, input);
    AdvancePuts(v, t, input);
    PutSim(w, v, DoAdvance(w, t, input).0, DoAdvance(v, t, input).0, t, input);
  }

  /** Returning reads only what no poll changes. */
  lemma LeaveSim(w: World, v: World, t: Tid)
    requires Sim(w, v) && Linked(w) && Linked(v) && t in w.threads && (w.threads[t].Begun? || w.threads[t].Answered?)
    ensures Sim(DoReturn(w, t).0, DoReturn(v, t).0)
    ensures DoReturn(w, t).1 == DoReturn(v, t).1
  {
    var r := w.threads[t].r;
    assert Alike(w.now, w.store.heap[r], v.store.heap[r]);
  }

  lemma NewSim(w: World, v: World, t: Tid, reading: int)
    requires Sim(w, v) && Linked(w) && Linked(v) && t in w.threads && w.threads[t].Starting? && w.now <= reading
    ensures Sim(DoNew(w, t, reading), DoNew(v, t, reading))
  {
    forall id | id in w.store.byID
      ensures Evictable(w.store.heap[w.store.byID[id]], w.now) <==> Evictable(v.store.heap[w.store.byID[id]], v.now)
    {
      var r := w.store.byID[id];
      assert Alike(w.now, w.store.heap[r], v.store.heap[r]);
    }
    assert Doomed(w.store, w.now) == Doomed(v.store, v.now);
    var w', v' := DoNew(w, t, reading), DoNew(v, t, reading);
    forall r | r in w'.store.heap ensures Alike(w'.now, w'.store.heap[r], v'.store.heap[r]) {
      if r != w.threads[t].r {
        AlikeLater(w.now, reading, w.store.heap[r], v.store.heap[r]);
      }
    }
  }

  lemma AlikeLater(now: int, later: int, a: Record, b: Record)
    requires Alike(now, a, b) && now <= later
    ensures Alike(later, a, b)
  {
  }

  // --- The final view -----------------------------------------------------------------

  /** An answer shows no more of a view than an observer sees, if a failure it reports has a reason of
      its own. */
  lemma MergeAlike(req: Request, outcome: Outcome, a: View, b: View)
    requires ShowAlike(a, b) && Reportable(outcome)
    ensures CompleteAnswer(req, outcome, Some(a)) == CompleteAnswer(req, outcome, Some(b))
  {
  }

  lemma ViewSim(w: World, v: World, t: Tid)
    requires Linked(w) && Linked(v) && Sim(w, v) && t in w.threads && w.threads[t].Driven? && Reportable(w.threads[t].outcome)
    ensures Sim(DoView(w, t), DoView(v, t))
  {
    var th := w.threads[t];
    assert Alike(w.now, w.store.heap[th.r], v.store.heap[th.r]);
    var id := w.store.heap[th.r].correlationID;
    if id in w.store.byID {
      SimExpireBoth(w, v, w.store.byID[id]);
      LookAlike(w, v, id);
      MergeAlike(th.req, th.outcome, ViewByID(w.store, id, w.now).1.value, ViewByID(v.store, id, v.now).1.value);
    }
  }

  // --- Steps and runs --------------------------------------------------------------------

  lemma AdvanceSim(w: World, v: World, t: Tid, input: Input)
    requires Linked(w) && Linked(v) && Sim(w, v) && Enabled(w, Advance(t, input)) && ClockForward(w, Advance(t, input))
    requires w.threads[t].Driven? ==> Reportable(w.threads[t].outcome)
    ensures Sim(DoAdvance(w, t, input).0, DoAdvance(v, t, input).0)
    ensures DoAdvance(w, t, input).1 == DoAdvance(v, t, input).1
  {
    match w.threads[t]
    case Starting(_, _, _, _, _, _) => NewSim(w, v, t, input.reading);
    case Found(_, _) => ClaimSim(w, v, t);
    case Driven(_, _, _, _, _) => ViewSim(w, v, t);
    case Begun(_, _, _) => LeaveSim(w, v, t);
    case Answered(_, _, _, _, _) => LeaveSim(w, v, t);
    case _ => DriveSim(w, v, t, input);
  }

  /** Similar worlds allow the same steps, under the same hypotheses, with the same answers, and stay
      similar. */
  lemma StepSim(w: World, v: World, a: Action, assumed: Assumed)
    requires Orderly(w) && Orderly(v) && Sim(w, v) && CanStep(v, a, assumed) && Enough(assumed)
    ensures CanStep(w, a, assumed)
    ensures Sim(Apply(w, a).0, Apply(v, a).0) && Apply(w, a).1 == Apply(v, a).1
  {
    SameChoice(w, v, a, assumed);
    match a
    case Tick(_) => TickSim(w, v, a);
    case Poll(id, what) => PollSim(w, v, id, what);
    case Start(_, _, _, _, _, _) =>
    case Callback(t, req) => LookupSim(w, v, t, req);
    case Advance(t, input) => OrderlySim(w, v, t, input);
  }

  lemma OrderlySim(w: World, v: World, t: Tid, input: Input)
    requires Orderly(w) && Linked(v) && Sim(w, v) && Enabled(w, Advance(t, input)) && ClockForward(w, Advance(t, input))
    ensures Sim(DoAdvance(w, t, input).0, DoAdvance(v, t, input).0)
    ensures DoAdvance(w, t, input).1 == DoAdvance(v, t, input).1
  {
    assert Carried(w, t);
    AdvanceSim(w, v, t, input);
  }

  lemma SameChoice(w: World, v: World, a: Action, assumed: Assumed)
    requires Linked(w) && Sim(w, v) && CanStep(v, a, assumed)
    ensures CanStep(w, a, assumed)
  {
    if a.Advance? && w.threads[a.t].Found? {
      ClaimAlike(w, v, w.threads[a.t].r);
    }
  }

  lemma TickSim(w: World, v: World, a: Action)
    requires Linked(w) && Linked(v) && Sim(w, v) && a.Tick? && w.now <= a.reading
    ensures Sim(Apply(w, a).0, Apply(v, a).0)
  {
    forall r | r in w.store.heap ensures Alike(a.reading, w.store.heap[r], v.store.heap[r]) {
      AlikeLater(w.now, a.reading, w.store.heap[r], v.store.heap[r]);
    }
  }

  /** H1, H2 and H3 are what transparency needs; H4 may be assumed or not. */
  predicate Enough(assumed: Assumed) {
    assumed.h1 && assumed.h2 && assumed.h3
  }

  /** A run in which some polls are marked as extra. */
  datatype Marked = Marked(action: Action, extra: bool)

  predicate OnlyPollsExtra(run: seq<Marked>) {
    forall i | 0 <= i < |run| && run[i].extra :: run[i].action.Poll?
  }

  function All(run: seq<Marked>): seq<Action> {
    if run == [] then [] else [run[0].action] + All(run[1..])
  }

  /** The run without the extra polls. */
  function Strip(run: seq<Marked>): seq<Action> {
    if run == [] then [] else (if run[0].extra then [] else [run[0].action]) + Strip(run[1..])
  }

  /** What each step of a run answers. */
  ghost function Answers(w: World, run: seq<Action>, assumed: Assumed): seq<Option<Answer>>
    requires Admissible(w, run, assumed)
    decreases |run|
  {
    if run == [] then [] else [Apply(w, run[0]).1] + Answers(Apply(w, run[0]).0, run[1..], assumed)
  }

  /** The answers of the full run, without those of the extra polls themselves. */
  ghost function AnswersBesides(w: World, run: seq<Marked>, assumed: Assumed): seq<Option<Answer>>
    requires Admissible(w, All(run), assumed)
    decreases |run|
  {
    if run == [] then []
    else
      assert All(run)[1..] == All(run[1..]);
      (if run[0].extra then [] else [Apply(w, run[0].action).1]) + AnswersBesides(Apply(w, run[0].action).0, run[1..], assumed)
  }

  /** One step on both sides, as the next world of each run. */
  lemma BothStep(w: World, v: World, a: Action, assumed: Assumed)
    requires Orderly(w) && Orderly(v) && Sim(w, v) && CanStep(v, a, assumed) && Enough(assumed)
    ensures CanStep(w, a, assumed) && Apply(w, a).1 == Apply(v, a).1
    ensures Orderly(Apply(w, a).0) && Orderly(Apply(v, a).0) && Sim(Apply(w, a).0, Apply(v, a).0)
  {
    StepSim(w, v, a, assumed);
    StepCustody(w, a);
    StepCustody(v, a);
  }

  lemma ExtraStep(w: World, v: World, a: Action, assumed: Assumed)
    requires Orderly(w) && Sim(w, v) && a.Poll?
    ensures CanStep(w, a, assumed)
    ensures Orderly(Apply(w, a).0) && Sim(Apply(w, a).0, v)
  {
    ExtraPoll(w, v, a.id, a.what);
    PollCustody(w, a.id, a.what);
  }

  /** How the run functions unfold at an extra poll, and at any other step. */
  lemma UnfoldExtra(w: World, run: seq<Marked>, assumed: Assumed)
    requires run != [] && run[0].extra && CanStep(w, run[0].action, assumed)
    requires Admissible(Apply(w, run[0].action).0, All(run[1..]), assumed)
    ensures Strip(run) == Strip(run[1..]) && Admissible(w, All(run), assumed)
    ensures AnswersBesides(w, run, assumed) == AnswersBesides(Apply(w, run[0].action).0, run[1..], assumed)
    ensures Exec(w, All(run), assumed) == Exec(Apply(w, run[0].action).0, All(run[1..]), assumed)
  {
    assert All(run)[1..] == All(run[1..]);
  }

  lemma UnfoldKept(w: World, run: seq<Marked>, assumed: Assumed)
    requires run != [] && !run[0].extra && CanStep(w, run[0].action, assumed)
    requires Admissible(Apply(w, run[0].action).0, All(run[1..]), assumed)
    ensures Admissible(w, All(run), assumed)
    ensures AnswersBesides(w, run, assumed) == [Apply(w, run[0].action).1] + AnswersBesides(Apply(w, run[0].action).0, run[1..], assumed)
    ensures Exec(w, All(run), assumed) == Exec(Apply(w, run[0].action).0, All(run[1..]), assumed)
  {
    assert All(run)[1..] == All(run[1..]);
  }

  lemma UnfoldStripped(v: World, run: seq<Marked>, assumed: Assumed)
    requires run != [] && !run[0].extra && Admissible(v, Strip(run), assumed)
    ensures CanStep(v, run[0].action, assumed)
    ensures Admissible(Apply(v, run[0].action).0, Strip(run[1..]), assumed)
    ensures Answers(v, Strip(run), assumed) == [Apply(v, run[0].action).1] + Answers(Apply(v, run[0].action).0, Strip(run[1..]), assumed)
    ensures Exec(v, Strip(run), assumed) == Exec(Apply(v, run[0].action).0, Strip(run[1..]), assumed)
  {
    assert Strip(run)[0] == run[0].action && Strip(run)[1..] == Strip(run[1..]);
  }

  lemma {:induction false} SimulatedRun(w: World, v: World, run: seq<Marked>, assumed: Assumed)
    requires Orderly(w) && Orderly(v) && Sim(w, v) && OnlyPollsExtra(run) && Enough(assumed)
    requires Admissible(v, Strip(run), assumed)
    ensures Admissible(w, All(run), assumed)
    ensures AnswersBesides(w, run, assumed) == Answers(v, Strip(run), assumed)
    ensures Sim(Exec(w, All(run), assumed), Exec(v, Strip(run), assumed))
    decreases |run|
  {
    if run == [] {
    } else if run[0].extra {
      var a := run[0].action;
      ExtraStep(w, v, a, assumed);
      assert Strip(run) == Strip(run[1..]);
      SimulatedRun(Apply(w, a).0, v, run[1..], assumed);
      UnfoldExtra(w, run, assumed);
    } else {
      var a := run[0].action;
      UnfoldStripped(v, run, assumed);
      BothStep(w, v, a, assumed);
      SimulatedRun(Apply(w, a).0, Apply(v, a).0, run[1..], assumed);
      UnfoldKept(w, run, assumed);
    }
  }

  /** Polling transparency, under H1, H2 and H3, and with or without H4: take any run from any reachable
      world, and insert any number of polls anywhere. The longer run can happen too, and every other
      answer in it is the same. */
  lemma PollsAreInvisible(w: World, run: seq<Marked>, assumed: Assumed)
    requires Enough(assumed) && Reached(w, assumed) && OnlyPollsExtra(run) && Admissible(w, Strip(run), assumed)
    ensures Admissible(w, All(run), assumed) && AnswersBesides(w, run, assumed) == Answers(w, Strip(run), assumed)
  {
    ReachedCustody(w, assumed);
    SimReflexive(w);
    SimulatedRun(w, w, run, assumed);
  }
}
