/** What callbacks are answered, whatever the environment does, and under H1 and H2 alone. */
module Answers {
  import opened Basics
  import opened Steps
  import opened SessionStore
  import opened HttpApi
  import opened Protocol
  import opened Executions
  import opened Effects
  import opened Ledger
  import opened Custody
  import opened Storage
  import opened Settlement

  // --- With nothing assumed ------------------------------------------------------------------

  /** A redirect step of this conversation asks for this URL. */
  ghost predicate AskedIn(cfg: Config, calls: seq<Call>, url: string) {
    exists i, res, state :: Gave(calls, i, res) && Decide(cfg, res) == Index(url, state)
  }

  /** A redirect URL on its way out is one the SDK asked for in this conversation, rewritten; and a callback
      that did not claim its session has nothing to show but the refusal. */
  ghost predicate ThreadFair(w: World, t: Tid)
    requires t in w.threads && w.threads[t].r in w.hist
  {
    var th := w.threads[t];
    var calls := w.hist[th.r].calls;
    match th
    case Indexed(_, _, url, _) => AskedIn(w.cfg, calls, url)
    case Finalizing(_, _, outcome) => outcome.redirectURL == ""
    case Driven(_, _, outcome, entered, _) =>
      && (outcome.redirectURL != "" ==> IsRewritten(w.cfg, calls, outcome.redirectURL))
      && (!entered ==> outcome == Refused(ErrTerminal) || outcome == Refused(ErrResuming))
    case Answered(_, req, answer, entered, _) =>
      && (answer.ToProvider? ==> IsRewritten(w.cfg, calls, answer.url))
      && (!entered ==> answer == AlreadyProcessing || (req.browser && answer.ToApplication?))
    case _ => true
  }

  ghost predicate IsRewritten(cfg: Config, calls: seq<Call>, url: string) {
    exists given :: AskedIn(cfg, calls, given) && url == cfg.rewrite(given)
  }

  ghost predicate Fair(w: World) {
    Earnest(w) && forall t {:trigger ThreadFair(w, t)} | t in w.threads :: ThreadFair(w, t)
  }

  lemma StillAsked(cfg: Config, calls: seq<Call>, calls': seq<Call>, url: string)
    requires calls <= calls' && AskedIn(cfg, calls, url)
    ensures AskedIn(cfg, calls', url)
  {
    var i, res, state :| Gave(calls, i, res) && Decide(cfg, res) == Index(url, state);
    assert Gave(calls', i, res);
  }

  lemma StillRewritten(cfg: Config, calls: seq<Call>, calls': seq<Call>, url: string)
    requires calls <= calls' && IsRewritten(cfg, calls, url)
    ensures IsRewritten(cfg, calls', url)
  {
    var given :| AskedIn(cfg, calls, given) && url == cfg.rewrite(given);
    StillAsked(cfg, calls, calls', given);
  }

  lemma ThreadStaysFair(w: World, w': World, t: Tid)
    requires t in w.threads && w.threads[t].r in w.hist && ThreadFair(w, t)
    requires t in w'.threads && w'.threads[t] == w.threads[t] && w.threads[t].r in w'.hist
    requires w'.cfg == w.cfg && w.hist[w.threads[t].r].calls <= w'.hist[w.threads[t].r].calls
    ensures ThreadFair(w', t)
  {
    var th := w.threads[t];
    var calls, calls' := w.hist[th.r].calls, w'.hist[th.r].calls;
    match th
    case Indexed(_, _, url, _) => StillAsked(w.cfg, calls, calls', url);
    case Driven(_, _, outcome, _, _) =>
      if outcome.redirectURL != "" { StillRewritten(w.cfg, calls, calls', outcome.redirectURL); }
    case Answered(_, _, answer, _, _) =>
      if answer.ToProvider? { StillRewritten(w.cfg, calls, calls', answer.url); }
    case _ =>
  }

  /** An answer shows no URL the outcome did not have, and a refusal is answered by 409 or, to a browser
      whose journey is over, by the way back. */
  lemma AnswerIsFair(req: Request, outcome: Outcome, view: Option<View>)
    ensures var answer := CompleteAnswer(req, outcome, view);
            && (answer.ToProvider? ==> answer.url == outcome.redirectURL != "")
            && (outcome == Refused(ErrTerminal) || outcome == Refused(ErrResuming) ==>
                  answer == AlreadyProcessing || (req.browser && answer.ToApplication?))
  {
  }

  lemma NextThreadFair(w: World, w': World, t: Tid, input: Input)
    requires Fair(w) && t in w.threads && PutsOnly(w.threads[t]) && InputFits(w.threads[t], input)
    requires w.threads[t].r in w.store.heap && w.threads[t].r in w.hist && Advances(w, w', t, input)
    ensures ThreadFair(w', t)
  {
    var th := w.threads[t];
    var calls := w.hist[th.r].calls;
    assert ThreadFair(w, t) && ThreadEarnest(w, t);
    match th
    case Planned(_, _, _, plan) =>
      if plan.Index? {
        var i, res :| Gave(calls, i, res) && plan == Decide(w.cfg, res);
        assert AskedIn(w.cfg, calls, plan.url);
      } else if plan.Finish? || plan.Fail? {
        EndsWithoutURL(w.cfg, calls, plan);
      }
    case Indexed(_, _, url, _) => assert IsRewritten(w.cfg, calls, w.cfg.rewrite(url));
    case _ =>
  }

  lemma EndsWithoutURL(cfg: Config, calls: seq<Call>, plan: Plan)
    requires PlanFrom(cfg, calls, plan) && (plan.Finish? || plan.Fail?)
    ensures EndOutcome(plan).redirectURL == ""
  {
    if plan != ResumeFailure && plan != UpstreamFailure {
      var i, res :| Gave(calls, i, res) && plan == Decide(cfg, res);
      DecideIsSound(cfg, res);
    }
  }

  lemma MoverFair(w: World, t: Tid, input: Input)
    requires Fair(w) && Enabled(w, Advance(t, input)) && Linked(DoAdvance(w, t, input).0)
    ensures t in DoAdvance(w, t, input).0.threads ==> ThreadFair(DoAdvance(w, t, input).0, t)
  {
    match w.threads[t]
    case Starting(_, _, _, _, _, _) =>
    case Found(_, _) => ClaimFair(w, t);
    case Driven(_, _, _, _, _) => ViewFair(w, t);
    case Begun(_, _, _) => ReturnTouches(w, t);
    case Answered(_, _, _, _, _) => ReturnTouches(w, t);
    case _ =>
      AdvancePuts(w, t, input);
      NextThreadFair(w, DoAdvance(w, t, input).0, t, input);
  }

  lemma ClaimFair(w: World, t: Tid)
    requires Linked(w) && t in w.threads && w.threads[t].Found? && Linked(DoClaim(w, t))
    ensures t in DoClaim(w, t).threads && ThreadFair(DoClaim(w, t), t)
  {
    if Consume(w.store, w.threads[t].r, w.now).1.Ok? { ClaimPuts(w, t); } else { RefusedPuts(w, t); }
  }

  lemma ViewFair(w: World, t: Tid)
    requires Fair(w) && t in w.threads && w.threads[t].Driven? && Linked(DoView(w, t))
    ensures t in DoView(w, t).threads && ThreadFair(DoView(w, t), t)
  {
    var th := w.threads[t];
    assert ThreadFair(w, t);
    AnswerIsFair(th.req, th.outcome, ViewByID(w.store, w.store.heap[th.r].correlationID, w.now).1);
    ViewTouches(w, t);
  }

  lemma StepFair(w: World, a: Action)
    requires Fair(w) && Enabled(w, a)
    ensures Fair(Apply(w, a).0)
  {
    var w' := Apply(w, a).0;
    StepEarnest(w, a);
    forall t | t in w'.threads ensures ThreadFair(w', t) {
      if a.Advance? && a.t == t {
        MoverFair(w, t, a.input);
      } else {
        OthersUnmoved(w, a, t);
        if t in w.threads { OtherStaysFair(w, a, t); }
      }
    }
  }

  lemma OtherStaysFair(w: World, a: Action, t: Tid)
    requires Fair(w) && Enabled(w, a) && Linked(Apply(w, a).0) && t in w.threads
    requires t in Apply(w, a).0.threads && Apply(w, a).0.threads[t] == w.threads[t]
    ensures ThreadFair(Apply(w, a).0, t)
  {
    assert ThreadFair(w, t);
    HistoryGrows(w, a, w.threads[t].r);
    SameSettings(w, a);
    ThreadStaysFair(w, Apply(w, a).0, t);
  }

  lemma SameSettings(w: World, a: Action)
    requires Linked(w) && Enabled(w, a)
    ensures Apply(w, a).0.cfg == w.cfg
  {
  }

  lemma {:induction false} RunFair(w: World, run: seq<Action>, assumed: Assumed)
    requires Fair(w) && Admissible(w, run, assumed)
    ensures Fair(Exec(w, run, assumed))
    decreases |run|
  {
    if run != [] {
      StepFair(w, run[0]);
      RunFair(Apply(w, run[0]).0, run[1..], assumed);
    }
  }

  lemma ReachedFair(w: World, assumed: Assumed)
    requires Reached(w, assumed)
    ensures Fair(w)
  {
    var w0: World, run: seq<Action> :| LeadsFromStart(w0, run, w, assumed);
    RunFair(w0, run, assumed);
  }

  /** A callback that lost its session to a duplicate is told 409, or, on the browser route, sent back to
      the application: never a 500, whatever else happened to the session meanwhile. */
  lemma LosersNeverFail(w: World, t: Tid)
    requires Reached(w, NOTHING) && t in w.threads && w.threads[t].Answered? && !w.threads[t].entered
    ensures var th := w.threads[t]; th.answer == AlreadyProcessing || (th.req.browser && th.answer.ToApplication?)
  {
    ReachedFair(w, NOTHING);
    assert ThreadFair(w, t);
  }

  /** A browser is only ever sent to the provider at a URL the SDK asked for, rewritten, in the conversation
      of the callback's own session. */
  lemma ToProviderIsAsked(w: World, t: Tid)
    requires Reached(w, NOTHING) && t in w.threads && w.threads[t].Answered? && w.threads[t].answer.ToProvider?
    ensures w.threads[t].r in w.hist && IsRewritten(w.cfg, w.hist[w.threads[t].r].calls, w.threads[t].answer.url)
  {
    ReachedFair(w, NOTHING);
    assert ThreadFair(w, t);
  }

  // --- Under H1 and H2 ----------------------------------------------------------------------------

  /** A way back to the application carries the references of the callback's own session. */
  ghost predicate AnswerOwn(w: World, t: Tid)
    requires t in w.threads
  {
    var th := w.threads[t];
    th.Answered? && th.answer.ToApplication? ==>
      && th.r in w.store.heap
      && th.answer == ToApplication(w.store.heap[th.r].clientState, w.store.heap[th.r].correlationID)
  }

  ghost predicate AnswersOwn(w: World) {
    Orderly(w) && forall t {:trigger AnswerOwn(w, t)} | t in w.threads :: AnswerOwn(w, t)
  }

  lemma ViewNames(req: Request, outcome: Outcome, view: Option<View>)
    ensures var answer := CompleteAnswer(req, outcome, view);
            answer.ToApplication? ==> view.Some? && answer == ToApplication(view.value.clientState, view.value.correlationID)
  {
  }

  lemma ViewOwn(w: World, t: Tid)
    requires Orderly(w) && t in w.threads && w.threads[t].Driven?
    ensures t in DoView(w, t).threads && AnswerOwn(DoView(w, t), t)
  {
    var th := w.threads[t];
    ViewFindsOwn(w, th.r);
    ViewTouches(w, t);
    ViewNames(th.req, th.outcome, ViewByID(w.store, w.store.heap[th.r].correlationID, w.now).1);
  }

  lemma StepOwn(w: World, a: Action)
    requires AnswersOwn(w) && CanStep(w, a, H1_H2)
    ensures AnswersOwn(Apply(w, a).0)
  {
    var w' := Apply(w, a).0;
    StepCustody(w, a);
    forall t | t in w'.threads ensures AnswerOwn(w', t) {
      if a.Advance? && a.t == t {
        MoverOwn(w, t, a.input);
      } else {
        OthersUnmoved(w, a, t);
        if t in w.threads {
          assert AnswerOwn(w, t);
          if w.threads[t].r in w.store.heap { StepIdentities(w, a, w.threads[t].r); }
        }
      }
    }
  }

  lemma MoverOwn(w: World, t: Tid, input: Input)
    requires AnswersOwn(w) && Enabled(w, Advance(t, input))
    ensures t in DoAdvance(w, t, input).0.threads ==> AnswerOwn(DoAdvance(w, t, input).0, t)
  {
    if w.threads[t].Driven? { ViewOwn(w, t); } else { NotAnswered(w, t, input); }
  }

  /** Only the final view prepares an answer. */
  lemma NotAnswered(w: World, t: Tid, input: Input)
    requires Linked(w) && Enabled(w, Advance(t, input)) && !w.threads[t].Driven?
    ensures t in DoAdvance(w, t, input).0.threads ==> !DoAdvance(w, t, input).0.threads[t].Answered?
  {
    match w.threads[t]
    case Begun(_, _, _) => ReturnTouches(w, t);
    case Answered(_, _, _, _, _) => ReturnTouches(w, t);
    case Starting(_, _, _, _, _, _) =>
    case Found(_, _) => ClaimNotAnswered(w, t);
    case Driven(_, _, _, _, _) =>
    case _ => AdvancePuts(w, t, input);
  }

  lemma ClaimNotAnswered(w: World, t: Tid)
    requires Linked(w) && t in w.threads && w.threads[t].Found?
    ensures t in DoClaim(w, t).threads && !DoClaim(w, t).threads[t].Answered?
  {
    if Consume(w.store, w.threads[t].r, w.now).1.Ok? { ClaimPuts(w, t); } else { RefusedPuts(w, t); }
  }

  lemma {:induction false} RunOwn(w: World, run: seq<Action>, assumed: Assumed)
    requires AnswersOwn(w) && Admissible(w, run, assumed) && assumed.h1 && assumed.h2
    ensures AnswersOwn(Exec(w, run, assumed))
    decreases |run|
  {
    if run != [] {
      StepOwn(w, run[0]);
      RunOwn(Apply(w, run[0]).0, run[1..], assumed);
    }
  }

  /** The start of session `r` brought `clientState` and got `id`, and both have been kept. */
  ghost predicate Bears(w: World, start: Action)
    requires start.Start?
  {
    && start.r in w.hist && w.hist[start.r].id == start.id
    && (|| (start.t in w.threads && w.threads[start.t].Starting? && w.threads[start.t].r == start.r
            && w.threads[start.t].clientState == start.clientState)
        || (start.r in w.store.heap && w.store.heap[start.r].clientState == start.clientState))
  }

  lemma StepBears(w: World, a: Action, start: Action)
    requires Orderly(w) && CanStep(w, a, H1_H2) && start.Start? && Bears(w, start)
    ensures Bears(Apply(w, a).0, start)
  {
    HistoryGrows(w, a, start.r);
    if start.r in w.store.heap && w.store.heap[start.r].clientState == start.clientState {
      StepIdentities(w, a, start.r);
    } else if !(a.Advance? && a.t == start.t) {
      OthersUnmoved(w, a, start.t);
    }
  }

  lemma {:induction false} RunBears(w: World, run: seq<Action>, start: Action)
    requires Orderly(w) && Admissible(w, run, H1_H2) && start.Start? && Bears(w, start)
    ensures Bears(Exec(w, run, H1_H2), start)
    decreases |run|
  {
    if run != [] {
      StepCustody(w, run[0]);
      StepBears(w, run[0], start);
      RunBears(Apply(w, run[0]).0, run[1..], start);
    }
  }

  lemma ReachedOwn(w: World)
    requires Reached(w, H1_H2)
    ensures AnswersOwn(w)
  {
    var w0: World, run: seq<Action> :| LeadsFromStart(w0, run, w, H1_H2);
    RunOwn(w0, run, H1_H2);
  }

  /** From the start to the end of a journey, whatever happens in between: a browser sent back to the
      application carries exactly the client state the journey was started with, and its own id. */
  lemma ClientStateComesBack(w: World, start: Action, run: seq<Action>, u: Tid)
    requires Reached(w, H1_H2) && start.Start? && CanStep(w, start, H1_H2) && Apply(w, start).1 == None
    requires Admissible(Apply(w, start).0, run, H1_H2)
    requires var w' := Exec(Apply(w, start).0, run, H1_H2);
             u in w'.threads && w'.threads[u].Answered? && w'.threads[u].r == start.r && w'.threads[u].answer.ToApplication?
    ensures Exec(Apply(w, start).0, run, H1_H2).threads[u].answer == ToApplication(start.clientState, start.id)
  {
    ReachedOwn(w);
    StepOwn(w, start);
    var w1 := Apply(w, start).0;
    RunOwn(w1, run, H1_H2);
    RunBears(w1, run, start);
    OwnReferences(Exec(w1, run, H1_H2), start, u);
  }

  lemma OwnReferences(w: World, start: Action, u: Tid)
    requires AnswersOwn(w) && start.Start? && Bears(w, start)
    requires u in w.threads && w.threads[u].Answered? && w.threads[u].r == start.r && w.threads[u].answer.ToApplication?
    ensures w.threads[u].answer == ToApplication(start.clientState, start.id)
  {
    assert AnswerOwn(w, u);
    assert Kept(w, start.r);
  }
}
