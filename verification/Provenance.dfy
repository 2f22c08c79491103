/** Where everything that is taken to the SDK comes from: with nothing assumed, from the callbacks themselves. */
module Provenance {
  import opened Basics
  import opened Steps
  import opened SessionStore
  import opened HttpApi
  import opened Protocol
  import opened Executions
  import opened Effects
  import opened Ledger

  /** A redirect resume with what this callback brought: its error if it has one, else its code, as they are,
      and its state. */
  predicate Brings(req: Request, call: Call) {
    && call.RedirectCall? && call.state == req.state != ""
    && if req.error != "" then call.denied && call.payload == req.error
       else !call.denied && call.payload == req.code != ""
  }

  predicate HasRequest(th: Thread) {
    !th.Starting? && !th.Created? && !th.Begun?
  }

  /** The thread works on one of these requests, a well-formed one. */
  predicate WorksOn(th: Thread, reqs: set<Request>) {
    HasRequest(th) ==> th.req in reqs && th.req.state != "" && (th.req.code != "" || th.req.error != "")
  }

  predicate BroughtBy(call: Call, reqs: set<Request>) {
    call.RedirectCall? ==> exists req | req in reqs :: Brings(req, call)
  }

  predicate AllBrought(calls: seq<Call>, reqs: set<Request>) {
    forall i | 0 <= i < |calls| :: BroughtBy(calls[i], reqs)
  }

  ghost predicate FromRequests(w: World, reqs: set<Request>) {
    && Linked(w)
    && (forall t | t in w.threads :: WorksOn(w.threads[t], reqs))
    && (forall r | r in w.hist :: AllBrought(w.hist[r].calls, reqs))
  }

  /** The request a step brings in. */
  function With(reqs: set<Request>, a: Action): set<Request> {
    if a.Callback? then reqs + {a.req} else reqs
  }

  lemma StillBrought(calls: seq<Call>, reqs: set<Request>, reqs': set<Request>)
    requires AllBrought(calls, reqs) && reqs <= reqs'
    ensures AllBrought(calls, reqs')
  {
    forall i | 0 <= i < |calls| ensures BroughtBy(calls[i], reqs') {
      if calls[i].RedirectCall? {
        var req :| req in reqs && Brings(req, calls[i]);
        assert req in reqs';
      }
    }
  }

  lemma MoverWorksOn(w: World, t: Tid, input: Input, reqs: set<Request>)
    requires FromRequests(w, reqs) && Enabled(w, Advance(t, input))
    ensures var w' := DoAdvance(w, t, input).0; t in w'.threads ==> WorksOn(w'.threads[t], reqs)
  {
    assert WorksOn(w.threads[t], reqs);
    match w.threads[t]
    case Starting(_, _, _, _, _, _) =>
    case Found(_, _) => if Consume(w.store, w.threads[t].r, w.now).1.Ok? { ClaimPuts(w, t); } else { RefusedPuts(w, t); }
    case Driven(_, _, _, _, _) =>
    case Begun(_, _, _) => ReturnTouches(w, t);
    case Answered(_, _, _, _, _) => ReturnTouches(w, t);
    case _ => AdvancePuts(w, t, input);
  }

  lemma ClaimAddsNoCall(w: World, t: Tid, r: Ref)
    requires Linked(w) && t in w.threads && w.threads[t].Found? && r in w.hist
    ensures r in DoClaim(w, t).hist && DoClaim(w, t).hist[r].calls == w.hist[r].calls
  {
    if Consume(w.store, w.threads[t].r, w.now).1.Ok? { ClaimPuts(w, t); } else { RefusedPuts(w, t); }
  }

  /** What the step adds to a conversation was brought by the thread's request. */
  lemma MoverBrings(w: World, t: Tid, input: Input, r: Ref, reqs: set<Request>)
    requires FromRequests(w, reqs) && Enabled(w, Advance(t, input)) && r in w.hist
    ensures var w' := DoAdvance(w, t, input).0; r in w'.hist && AllBrought(w'.hist[r].calls, reqs)
  {
    assert AllBrought(w.hist[r].calls, reqs);
    match w.threads[t]
    case Starting(_, _, _, _, _, _) =>
    case Found(_, _) => ClaimAddsNoCall(w, t, r);
    case Driven(_, _, _, _, _) =>
    case Begun(_, _, _) => ReturnTouches(w, t);
    case Answered(_, _, _, _, _) => ReturnTouches(w, t);
    case _ =>
      PutBrings(w, t, input, r, reqs);
  }

  lemma PutBrings(w: World, t: Tid, input: Input, r: Ref, reqs: set<Request>)
    requires FromRequests(w, reqs) && Enabled(w, Advance(t, input)) && PutsOnly(w.threads[t]) && r in w.hist
    ensures var w' := DoAdvance(w, t, input).0; r in w'.hist && AllBrought(w'.hist[r].calls, reqs)
  {
    assert WorksOn(w.threads[t], reqs) && AllBrought(w.hist[r].calls, reqs);
    AdvancePuts(w, t, input);
    NextBrought(w.threads[t], w.hist[w.threads[t].r], input, reqs);
  }

  lemma NextBrought(th: Thread, h: Hist, input: Input, reqs: set<Request>)
    requires PutsOnly(th) && InputFits(th, input) && WorksOn(th, reqs) && AllBrought(h.calls, reqs)
    ensures AllBrought(NextHist(th, h, input).calls, reqs)
  {
    if th.Claimed? { assert Brings(th.req, ReturnCall(th, input.reply)); }
  }

  lemma StepFromRequests(w: World, a: Action, reqs: set<Request>)
    requires FromRequests(w, reqs) && Enabled(w, a) && Linked(Apply(w, a).0)
    ensures FromRequests(Apply(w, a).0, With(reqs, a))
  {
    var w' := Apply(w, a).0;
    forall t | t in w'.threads ensures WorksOn(w'.threads[t], With(reqs, a)) {
      if a.Advance? && a.t == t { MoverWorksOn(w, t, a.input, reqs); } else { OthersUnmoved(w, a, t); NewWorksOn(w, a, t, reqs); }
    }
    forall r | r in w'.hist ensures AllBrought(w'.hist[r].calls, With(reqs, a)) {
      if r in w.hist {
        if a.Advance? { MoverBrings(w, a.t, a.input, r, reqs); }
        StillBrought(w'.hist[r].calls, reqs, With(reqs, a));
      }
    }
  }

  lemma NewWorksOn(w: World, a: Action, t: Tid, reqs: set<Request>)
    requires FromRequests(w, reqs) && Enabled(w, a) && !(a.Advance? && a.t == t) && t in Apply(w, a).0.threads
    ensures WorksOn(Apply(w, a).0.threads[t], With(reqs, a))
  {
    OthersUnmoved(w, a, t);
    if t in w.threads { assert WorksOn(w.threads[t], reqs); }
  }

  /** The requests of the callbacks along a run. */
  function Callbacks(run: seq<Action>): set<Request> {
    set i | 0 <= i < |run| && run[i].Callback? :: run[i].req
  }

  lemma {:induction false} RunFromRequests(w: World, run: seq<Action>, reqs: set<Request>, assumed: Assumed)
    requires FromRequests(w, reqs) && Accounted(w) && Admissible(w, run, assumed)
    ensures FromRequests(Exec(w, run, assumed), reqs + Callbacks(run))
    decreases |run|
  {
    if run == [] {
      assert reqs + Callbacks(run) == reqs;
    } else {
      StepAccounted(w, run[0]);
      StepFromRequests(w, run[0], reqs);
      RunFromRequests(Apply(w, run[0]).0, run[1..], With(reqs, run[0]), assumed);
      CallbacksFirst(run, reqs);
    }
  }

  lemma CallbacksFirst(run: seq<Action>, reqs: set<Request>)
    requires run != []
    ensures With(reqs, run[0]) + Callbacks(run[1..]) == reqs + Callbacks(run)
  {
    forall req | req in Callbacks(run) ensures req in With(reqs, run[0]) + Callbacks(run[1..]) {
      var i :| 0 <= i < |run| && run[i].Callback? && run[i].req == req;
      if i > 0 { assert run[1..][i - 1] == run[i]; }
    }
    forall req | req in Callbacks(run[1..]) ensures req in Callbacks(run) {
      var i :| 0 <= i < |run[1..]| && run[1..][i].Callback? && run[1..][i].req == req;
      assert run[i + 1] == run[1..][i];
    }
  }

  /** Whatever the environment does, each redirect resume of any conversation takes to the SDK exactly what a
      callback of the run brought: its code, or its error if it had one, with its own state. */
  lemma NothingIsMadeUp(w0: World, run: seq<Action>, r: Ref, i: int)
    requires Initial(w0) && Admissible(w0, run, NOTHING)
    requires var w := Exec(w0, run, NOTHING); r in w.hist && 0 <= i < |w.hist[r].calls| && w.hist[r].calls[i].RedirectCall?
    ensures exists k :: 0 <= k < |run| && run[k].Callback? && Brings(run[k].req, Exec(w0, run, NOTHING).hist[r].calls[i])
  {
    RunFromRequests(w0, run, {}, NOTHING);
    var call := Exec(w0, run, NOTHING).hist[r].calls[i];
    assert BroughtBy(call, {} + Callbacks(run));
    var req :| req in Callbacks(run) && Brings(req, call);
    var k :| 0 <= k < |run| && run[k].Callback? && run[k].req == req;
  }
}
