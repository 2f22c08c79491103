/**
 What a journey has come to, and what may still take it away: which steps write a status, what a
 completed session serves, and exactly when a settled session stays as it is. Nothing is assumed of
 the environment.
 */
module Settlement {
  import opened Basics
  import opened Steps
  import opened SessionStore
  import opened HttpApi
  import opened Protocol
  import opened Executions
  import opened Effects
  import opened Ledger

  // --- The steps that write a status -----------------------------------------------------

  /** The thread's next step is the status write of a redirect: after `SetState`, or at the end of
      `Begin`. */
  predicate StatusWriter(th: Thread) {
    th.Created? || th.Indexed?
  }

  /** The thread's next step settles the session. */
  predicate Settler(th: Thread) {
    th.Planned? && (th.plan.Finish? || th.plan.Fail?)
  }

  predicate WritesStatus(w: World, a: Action, r: Ref) {
    a.Advance? && a.t in w.threads && w.threads[a.t].r == r && StatusWriter(w.threads[a.t])
  }

  predicate WritesEnd(w: World, a: Action, r: Ref) {
    a.Advance? && a.t in w.threads && w.threads[a.t].r == r && Settler(w.threads[a.t])
  }

  /** What is shown of session `r` is the same. */
  ghost predicate ShownAlike(w: World, w': World, r: Ref)
    requires r in w.store.heap
  {
    r in w'.store.heap && ViewOf(w'.store.heap[r]) == ViewOf(w.store.heap[r])
  }

  lemma ExpiryShows(w: World, r': Ref, r: Ref)
    requires r in w.store.heap && r' in w.store.heap && w.store.heap[r].status.Terminal()
    ensures ShownAlike(w, Expired(w, r'), r)
  {
  }

  lemma PutShows(w: World, w': World, t: Tid, th: Thread, rec: Record, h: Hist, r: Ref)
    requires r in w.store.heap && th.r in w.store.heap && Puts(w, w', t, th, rec, h)
    requires th.r == r ==> ViewOf(rec) == ViewOf(w.store.heap[r])
    ensures ShownAlike(w, w', r)
  {
  }

  lemma ClaimShows(w: World, t: Tid, r: Ref)
    requires Linked(w) && t in w.threads && w.threads[t].Found? && r in w.store.heap && w.store.heap[r].status.Terminal()
    ensures ShownAlike(w, DoClaim(w, t), r)
  {
    var th := w.threads[t];
    if Consume(w.store, th.r, w.now).1.Ok? {
      var rec, h := w.store.heap[th.r], w.hist[th.r];
      ClaimPuts(w, t);
      PutShows(w, DoClaim(w, t), t, Claimed(th.r, th.req, rec.handle), rec.(resuming := true, oauthState := ""),
               h.(owner := Some(t), claims := h.claims + 1), r);
    } else {
      RefusedPuts(w, t);
      ExpiryShows(w, th.r, r);
    }
  }

  lemma ViewShows(w: World, t: Tid, r: Ref)
    requires Linked(w) && t in w.threads && w.threads[t].Driven? && r in w.store.heap && w.store.heap[r].status.Terminal()
    ensures ShownAlike(w, DoView(w, t), r)
  {
    var id := w.store.heap[w.threads[t].r].correlationID;
    ViewTouches(w, t);
    if id in w.store.byID {
      ExpiryShows(w, w.store.byID[id], r);
    }
  }

  /** Between claim and return only a status write or a settlement touches what is shown. */
  lemma NextShows(th: Thread, rec: Record)
    requires PutsOnly(th) && !StatusWriter(th) && !Settler(th)
    ensures ViewOf(NextRecord(th, rec)) == ViewOf(rec)
  {
  }

  lemma DriveShows(w: World, t: Tid, input: Input, r: Ref)
    requires Linked(w) && Enabled(w, Advance(t, input)) && PutsOnly(w.threads[t]) && r in w.store.heap
    requires w.threads[t].r == r ==> !StatusWriter(w.threads[t]) && !Settler(w.threads[t])
    ensures ShownAlike(w, DoAdvance(w, t, input).0, r)
  {
    var th := w.threads[t];
    AdvancePuts(w, t, input);
    if th.r == r { NextShows(th, w.store.heap[r]); }
    PutShows(w, DoAdvance(w, t, input).0, t, NextThread(w.cfg, th, input), NextRecord(th, w.store.heap[th.r]),
             NextHist(th, w.hist[th.r], input), r);
  }

  lemma AdvanceShows(w: World, t: Tid, input: Input, r: Ref)
    requires Linked(w) && Enabled(w, Advance(t, input)) && r in w.store.heap && w.store.heap[r].status.Terminal()
    requires w.threads[t].r == r ==> !w.threads[t].Starting? && !StatusWriter(w.threads[t]) && !Settler(w.threads[t])
    ensures ShownAlike(w, DoAdvance(w, t, input).0, r)
  {
    match w.threads[t] {
      case Found(_, _) => ClaimShows(w, t, r);
      case Driven(_, _, _, _, _) => ViewShows(w, t, r);
      case Starting(_, _, _, _, _, _) =>
      case Begun(_, _, _) => ReturnTouches(w, t);
      case Answered(_, _, _, _, _) => ReturnTouches(w, t);
      case _ => DriveShows(w, t, input, r);
    }
  }

  lemma LookupShows(w: World, t: Tid, req: Request, r: Ref)
    requires Linked(w) && t !in w.threads && r in w.store.heap && w.store.heap[r].status.Terminal()
    ensures ShownAlike(w, DoLookup(w, t, req).0, r)
  {
    if Valid(req) && req.state in w.store.byState && w.store.byState[req.state] != "" && w.store.byState[req.state] in w.store.byID {
      ExpiryShows(w, w.store.byID[w.store.byState[req.state]], r);
    }
  }

  /** Only a status write or a settlement changes what is shown of a session that has ended. */
  lemma StepShows(w: World, a: Action, r: Ref)
    requires Accounted(w) && Enabled(w, a) && r in w.store.heap && w.store.heap[r].status.Terminal()
    requires !WritesStatus(w, a, r) && !WritesEnd(w, a, r)
    ensures ShownAlike(w, Apply(w, a).0, r)
  {
    match a {
      case Poll(id, _) => if id in w.store.byID { ExpiryShows(w, w.store.byID[id], r); }
      case Callback(t, req) => LookupShows(w, t, req, r);
      case Advance(t, input) => AdvanceShows(w, t, input, r);
      case _ =>
    }
  }

  lemma StatusWrite(w: World, a: Action, r: Ref)
    requires Linked(w) && Enabled(w, a) && r in w.store.heap && WritesStatus(w, a, r)
    ensures r in Apply(w, a).0.store.heap && Apply(w, a).0.store.heap[r].status == Authorizing
    ensures Apply(w, a).0.store.heap[r].resultPDF == w.store.heap[r].resultPDF
  {
    if w.threads[a.t].Created? { BegunPuts(w, a.t); } else { ReopenPuts(w, a.t); }
  }

  lemma EndWrite(w: World, a: Action, r: Ref)
    requires Linked(w) && Enabled(w, a) && r in w.store.heap && WritesEnd(w, a, r)
    ensures var plan := w.threads[a.t].plan;
            && r in Apply(w, a).0.store.heap
            && Apply(w, a).0.store.heap[r] == Settled(w.store.heap[r], plan)
            && Apply(w, a).0.hist == w.hist[r := w.hist[r].(settled := Some(SettlementOf(plan)))]
  {
    SettlePuts(w, a.t);
  }

  // --- Where plans and documents come from -----------------------------------------------

  /** Call `i` of the conversation answered with the step `res`. */
  ghost predicate Gave(calls: seq<Call>, i: int, res: StepResult) {
    0 <= i < |calls| && calls[i].out == Stepped(res)
  }

  /** The plan is the engine's own failure, or what the engine makes of a step the SDK gave in this
      conversation. */
  ghost predicate PlanFrom(cfg: Config, calls: seq<Call>, plan: Plan) {
    plan == ResumeFailure || plan == UpstreamFailure || exists i, res :: Gave(calls, i, res) && plan == Decide(cfg, res)
  }

  /** A `done` step of this conversation carries this document and this evidence. */
  ghost predicate SignedIn(cfg: Config, calls: seq<Call>, pdf: Bytes, evidence: Option<Bytes>) {
    exists i, res :: Gave(calls, i, res) && Decide(cfg, res) == Finish(pdf, evidence)
  }

  ghost predicate ThreadEarnest(w: World, t: Tid)
    requires t in w.threads && w.threads[t].r in w.hist
  {
    var th := w.threads[t];
    var calls := w.hist[th.r].calls;
    && (th.Got? ==> exists i :: Gave(calls, i, th.res))
    && (th.Planned? ==> PlanFrom(w.cfg, calls, th.plan))
  }

  ghost predicate SessionEarnest(w: World, r: Ref)
    requires r in w.store.heap && r in w.hist
  {
    var rec, calls := w.store.heap[r], w.hist[r].calls;
    && (rec.resultPDF != [] ==> exists evidence :: SignedIn(w.cfg, calls, rec.resultPDF, evidence))
    && (rec.status == Completed ==> rec.resultPDF != [] && SignedIn(w.cfg, calls, rec.resultPDF, rec.evidence))
  }

  ghost predicate Earnest(w: World) {
    && Accounted(w)
    && (forall t {:trigger ThreadEarnest(w, t)} | t in w.threads :: ThreadEarnest(w, t))
    && (forall r {:trigger SessionEarnest(w, r)} | r in w.store.heap :: SessionEarnest(w, r))
  }

  lemma StillSigned(cfg: Config, calls: seq<Call>, calls': seq<Call>, pdf: Bytes, evidence: Option<Bytes>)
    requires calls <= calls' && SignedIn(cfg, calls, pdf, evidence)
    ensures SignedIn(cfg, calls', pdf, evidence)
  {
    var i, res :| Gave(calls, i, res) && Decide(cfg, res) == Finish(pdf, evidence);
    assert Gave(calls', i, res);
  }

  lemma StillPlanned(cfg: Config, calls: seq<Call>, calls': seq<Call>, plan: Plan)
    requires calls <= calls' && PlanFrom(cfg, calls, plan)
    ensures PlanFrom(cfg, calls', plan)
  {
    if plan != ResumeFailure && plan != UpstreamFailure {
      var i, res :| Gave(calls, i, res) && plan == Decide(cfg, res);
      assert Gave(calls', i, res);
    }
  }

  lemma PlanIsSound(cfg: Config, calls: seq<Call>, plan: Plan)
    requires PlanFrom(cfg, calls, plan)
    ensures plan.Finish? ==> plan.pdf != [] && SignedIn(cfg, calls, plan.pdf, plan.evidence)
    ensures plan.Fail? ==> plan.status == Failed || plan.status == Declined
    ensures plan.Index? ==> plan.state != "" && plan.url != ""
  {
    if plan != ResumeFailure && plan != UpstreamFailure {
      var i, res :| Gave(calls, i, res) && plan == Decide(cfg, res);
      DecideIsSound(cfg, res);
    }
  }

  // --- Every step keeps it -----------------------------------------------------------------

  lemma SessionStaysEarnest(w: World, w': World, r: Ref)
    requires r in w.store.heap && r in w.hist && r in w'.store.heap && r in w'.hist && SessionEarnest(w, r)
    requires w'.cfg == w.cfg && w.hist[r].calls <= w'.hist[r].calls
    requires var rec, rec' := w.store.heap[r], w'.store.heap[r];
             rec'.resultPDF == rec.resultPDF && rec'.evidence == rec.evidence && (rec'.status == Completed ==> rec.status == Completed)
    ensures SessionEarnest(w', r)
  {
    var rec, calls, calls' := w.store.heap[r], w.hist[r].calls, w'.hist[r].calls;
    if rec.resultPDF != [] {
      var evidence :| SignedIn(w.cfg, calls, rec.resultPDF, evidence);
      StillSigned(w.cfg, calls, calls', rec.resultPDF, evidence);
    }
    if rec.status == Completed {
      StillSigned(w.cfg, calls, calls', rec.resultPDF, rec.evidence);
    }
  }

  lemma ThreadStaysEarnest(w: World, w': World, t: Tid)
    requires t in w.threads && w.threads[t].r in w.hist && ThreadEarnest(w, t)
    requires t in w'.threads && w'.threads[t] == w.threads[t] && w.threads[t].r in w'.hist
    requires w'.cfg == w.cfg && w.hist[w.threads[t].r].calls <= w'.hist[w.threads[t].r].calls
    ensures ThreadEarnest(w', t)
  {
    var th := w.threads[t];
    var calls, calls' := w.hist[th.r].calls, w'.hist[th.r].calls;
    if th.Got? {
      var i :| Gave(calls, i, th.res);
      assert Gave(calls', i, th.res);
    }
    if th.Planned? {
      StillPlanned(w.cfg, calls, calls', th.plan);
    }
  }

  /** The thread between claim and return goes on being earnest: an SDK reply is on record, and a plan
      is made of it. */
  lemma NextThreadEarnest(w: World, w': World, t: Tid, input: Input)
    requires Earnest(w) && t in w.threads && PutsOnly(w.threads[t]) && InputFits(w.threads[t], input)
    requires w.threads[t].r in w.store.heap && w.threads[t].r in w.hist && Advances(w, w', t, input)
    ensures ThreadEarnest(w', t)
  {
    var th, th' := w.threads[t], w'.threads[t];
    var calls, calls' := w.hist[th.r].calls, w'.hist[th.r].calls;
    assert ThreadEarnest(w, t);
    match th {
      case Claimed(_, _, _) => LastGave(calls, ReturnCall(th, input.reply));
      case Responded(_, _, _, _, _) => LastGave(calls, HttpCall(th.handle, th.status, th.body, input.reply));
      case Got(_, _, _) =>
        var i :| Gave(calls, i, th.res);
        assert Gave(calls', i, th.res);
      case _ =>
    }
  }

  lemma LastGave(calls: seq<Call>, call: Call)
    ensures call.out.Stepped? ==> Gave(calls + [call], |calls|, call.out.res)
  {
  }

  lemma NextSessionEarnest(w: World, w': World, t: Tid, input: Input)
    requires Earnest(w) && t in w.threads && PutsOnly(w.threads[t]) && InputFits(w.threads[t], input)
    requires w.threads[t].r in w.store.heap && w.threads[t].r in w.hist && Advances(w, w', t, input)
    ensures SessionEarnest(w', w.threads[t].r)
  {
    var th := w.threads[t];
    assert SessionEarnest(w, th.r) && ThreadEarnest(w, t);
    if Settler(th) {
      PlanIsSound(w.cfg, w.hist[th.r].calls, th.plan);
      SettledEarnest(w, w', t);
    } else {
      SessionStaysEarnest(w, w', th.r);
    }
  }

  lemma SettledEarnest(w: World, w': World, t: Tid)
    requires t in w.threads && Settler(w.threads[t]) && w.threads[t].r in w.store.heap && w.threads[t].r in w.hist
    requires SessionEarnest(w, w.threads[t].r) && w'.cfg == w.cfg
    requires var th := w.threads[t];
             && (th.plan.Finish? ==> th.plan.pdf != [] && SignedIn(w.cfg, w.hist[th.r].calls, th.plan.pdf, th.plan.evidence))
             && (th.plan.Fail? ==> th.plan.status != Completed)
             && th.r in w'.store.heap && w'.store.heap[th.r] == Settled(w.store.heap[th.r], th.plan)
             && th.r in w'.hist && w'.hist[th.r].calls == w.hist[th.r].calls
    ensures SessionEarnest(w', w.threads[t].r)
  {
  }

  lemma DriveEarnest(w: World, t: Tid, input: Input)
    requires Earnest(w) && Enabled(w, Advance(t, input)) && PutsOnly(w.threads[t])
    ensures Earnest(DoAdvance(w, t, input).0)
  {
    var w' := DoAdvance(w, t, input).0;
    AdvanceAccounted(w, t, input);
    AdvancePuts(w, t, input);
    PutEarnest(w, w', t, input);
  }

  lemma PutEarnest(w: World, w': World, t: Tid, input: Input)
    requires Earnest(w) && Accounted(w') && t in w.threads && PutsOnly(w.threads[t]) && InputFits(w.threads[t], input)
    requires w.threads[t].r in w.store.heap && w.threads[t].r in w.hist && Advances(w, w', t, input)
    ensures Earnest(w')
  {
    NextThreadEarnest(w, w', t, input);
    NextSessionEarnest(w, w', t, input);
    forall u | u in w'.threads ensures ThreadEarnest(w', u) {
      if u != t {
        assert ThreadEarnest(w, u);
        ThreadStaysEarnest(w, w', u);
      }
    }
    forall r | r in w'.store.heap ensures SessionEarnest(w', r) {
      if r != w.threads[t].r {
        assert SessionEarnest(w, r);
        SessionStaysEarnest(w, w', r);
      }
    }
  }

  /** A step that leaves conversations, documents and every other thread as they are, and completes
      nothing; new sessions start without a document. */
  lemma QuietEarnest(w: World, w': World, t: Tid)
    requires Earnest(w) && Accounted(w') && w'.cfg == w.cfg
    requires forall r | r in w.hist :: r in w'.hist && w'.hist[r].calls == w.hist[r].calls
    requires forall r | r in w'.store.heap :: QuietRecord(w, w', r)
    requires forall u | u in w'.threads && u != t :: u in w.threads && w'.threads[u] == w.threads[u]
    requires t in w'.threads ==> !w'.threads[t].Got? && !w'.threads[t].Planned?
    ensures Earnest(w')
  {
    forall u | u in w'.threads ensures ThreadEarnest(w', u) {
      if u != t {
        assert ThreadEarnest(w, u);
        ThreadStaysEarnest(w, w', u);
      }
    }
    forall r | r in w'.store.heap ensures SessionEarnest(w', r) {
      assert QuietRecord(w, w', r);
      if r in w.store.heap {
        assert SessionEarnest(w, r);
        SessionStaysEarnest(w, w', r);
      }
    }
  }

  ghost predicate QuietRecord(w: World, w': World, r: Ref)
    requires r in w'.store.heap
  {
    var rec' := w'.store.heap[r];
    if r in w.store.heap then
      var rec := w.store.heap[r];
      rec'.resultPDF == rec.resultPDF && rec'.evidence == rec.evidence && (rec'.status == Completed ==> rec.status == Completed)
    else rec'.resultPDF == [] && rec'.status != Completed
  }

  lemma ClaimEarnest(w: World, t: Tid)
    requires Earnest(w) && t in w.threads && w.threads[t].Found?
    ensures Earnest(DoClaim(w, t))
  {
    ClaimAccounted(w, t);
    if Consume(w.store, w.threads[t].r, w.now).1.Ok? { ClaimPuts(w, t); } else { RefusedPuts(w, t); }
    QuietEarnest(w, DoClaim(w, t), t);
  }

  lemma ViewEarnest(w: World, t: Tid)
    requires Earnest(w) && t in w.threads && w.threads[t].Driven?
    ensures Earnest(DoView(w, t))
  {
    ViewAccounted(w, t);
    ViewTouches(w, t);
    QuietEarnest(w, DoView(w, t), t);
  }

  lemma ReturnEarnest(w: World, t: Tid)
    requires Earnest(w) && t in w.threads && (w.threads[t].Begun? || w.threads[t].Answered?)
    ensures Earnest(DoReturn(w, t).0)
  {
    ReturnAccounted(w, t);
    ReturnTouches(w, t);
    QuietEarnest(w, DoReturn(w, t).0, t);
  }

  lemma NewEarnest(w: World, t: Tid, reading: int)
    requires Earnest(w) && t in w.threads && w.threads[t].Starting?
    ensures Earnest(DoNew(w, t, reading))
  {
    NewAccounted(w, t, reading);
    QuietEarnest(w, DoNew(w, t, reading), t);
  }

  lemma AdvanceEarnest(w: World, t: Tid, input: Input)
    requires Earnest(w) && Enabled(w, Advance(t, input))
    ensures Earnest(DoAdvance(w, t, input).0)
  {
    match w.threads[t]
    case Starting(_, _, _, _, _, _) => NewEarnest(w, t, input.reading);
    case Found(_, _) => ClaimEarnest(w, t);
    case Driven(_, _, _, _, _) => ViewEarnest(w, t);
    case Begun(_, _, _) => ReturnEarnest(w, t);
    case Answered(_, _, _, _, _) => ReturnEarnest(w, t);
    case _ => DriveEarnest(w, t, input);
  }

  lemma NoThreadEarnest(w: World, w': World)
    requires Earnest(w) && Accounted(w') && w'.cfg == w.cfg && w'.threads == w.threads && w'.hist == w.hist
    requires forall r | r in w'.store.heap :: QuietRecord(w, w', r)
    ensures Earnest(w')
  {
    forall u | u in w'.threads ensures ThreadEarnest(w', u) {
      assert ThreadEarnest(w, u);
    }
    forall r | r in w'.store.heap ensures SessionEarnest(w', r) {
      assert QuietRecord(w, w', r);
      if r in w.store.heap {
        assert SessionEarnest(w, r);
        SessionStaysEarnest(w, w', r);
      }
    }
  }

  lemma LookupEarnest(w: World, t: Tid, req: Request)
    requires Earnest(w) && t !in w.threads
    ensures Earnest(DoLookup(w, t, req).0)
  {
    if Valid(req) {
      LookedUpAccounted(w, req.state);
      NoThreadEarnest(w, AfterLookup(w, req.state));
      if GetByState(w.store, req.state, w.now).1.Some? {
        LookupAccounted(w, t, req);
        LookupTouches(w, t, req);
        QuietEarnest(AfterLookup(w, req.state), DoLookup(w, t, req).0, t);
      }
    }
  }

  lemma StartEarnest(w: World, t: Tid, r: Ref, id: string, clientState: string, conformance: string, reply: SdkReply)
    requires Earnest(w) && Enabled(w, Start(t, r, id, clientState, conformance, reply))
    ensures Earnest(DoStart(w, t, r, id, clientState, conformance, reply).0)
  {
    StartAccounted(w, t, r, id, clientState, conformance, reply);
    QuietEarnest(w, DoStart(w, t, r, id, clientState, conformance, reply).0, t);
  }

  lemma StepEarnest(w: World, a: Action)
    requires Earnest(w) && Enabled(w, a)
    ensures Earnest(Apply(w, a).0)
  {
    match a
    case Tick(reading) => StepAccounted(w, a); NoThreadEarnest(w, Apply(w, a).0);
    case Poll(id, what) => StepAccounted(w, a); NoThreadEarnest(w, Apply(w, a).0);
    case Start(t, r, id, clientState, conformance, reply) => StartEarnest(w, t, r, id, clientState, conformance, reply);
    case Callback(t, req) => LookupEarnest(w, t, req);
    case Advance(t, input) => AdvanceEarnest(w, t, input);
  }

  lemma {:induction false} RunEarnest(w: World, run: seq<Action>, assumed: Assumed)
    requires Earnest(w) && Admissible(w, run, assumed)
    ensures Earnest(Exec(w, run, assumed))
    decreases |run|
  {
    if run != [] {
      StepEarnest(w, run[0]);
      RunEarnest(Apply(w, run[0]).0, run[1..], assumed);
    }
  }

  lemma ReachedEarnest(w: World, assumed: Assumed)
    requires Reached(w, assumed)
    ensures Earnest(w)
  {
    var w0: World, run: seq<Action> :| LeadsFromStart(w0, run, w, assumed);
    RunEarnest(w0, run, assumed);
  }

  // --- Main results ----------------------------------------------------------------------------

  /** Completed means signed, whatever the environment does: a completed session has a document, and the
      document and the evidence are those of a `done` step the SDK gave for this very session. */
  lemma CompletedIsSigned(w: World, r: Ref)
    requires Reached(w, NOTHING) && r in w.store.heap && w.store.heap[r].status == Completed
    ensures r in w.hist && w.store.heap[r].resultPDF != []
    ensures SignedIn(w.cfg, w.hist[r].calls, w.store.heap[r].resultPDF, w.store.heap[r].evidence)
  {
    ReachedEarnest(w, NOTHING);
    assert SessionEarnest(w, r);
  }

  /** So nothing else is ever served: whoever asks for the result of `id`, and whenever, gets a document
      only if the SDK gave it, with this evidence, for the session stored under `id`. */
  lemma ServedIsSigned(w: World, id: string)
    requires Reached(w, NOTHING)
    ensures Linked(w)
    ensures var answer := ResultAnswer(ViewByID(w.store, id, w.now).1);
            answer.SignedDocument? ==>
              && id in w.store.byID && answer.pdf != []
              && exists evidence :: SignedIn(w.cfg, w.hist[w.store.byID[id]].calls, answer.pdf, evidence)
                                    && answer.evidence == (if evidence == Some([]) then None else evidence)
  {
    ReachedEarnest(w, NOTHING);
    if id in w.store.byID {
      assert SessionEarnest(w, w.store.byID[id]);
    }
  }

  /** Which step takes an end status away, whatever the environment does: exactly the status write of a
      redirect by a call that is still to make it. */
  lemma StatusTakenAwayIff(w: World, a: Action, r: Ref)
    requires Reached(w, NOTHING) && CanStep(w, a, NOTHING) && r in w.store.heap && w.store.heap[r].status.Terminal()
    ensures r in Apply(w, a).0.store.heap
    ensures !Apply(w, a).0.store.heap[r].status.Terminal() <==> WritesStatus(w, a, r)
  {
    ReachedEarnest(w, NOTHING);
    if WritesStatus(w, a, r) {
      StatusWrite(w, a, r);
    } else if WritesEnd(w, a, r) {
      EndWrite(w, a, r);
      assert ThreadEarnest(w, a.t);
      PlanIsSound(w.cfg, w.hist[r].calls, w.threads[a.t].plan);
    } else {
      StepShows(w, a, r);
    }
  }

  // --- Settled for good --------------------------------------------------------------------------

  /** The session has ended and no call is about to settle it: so it is from a settlement on. */
  ghost predicate AtRest(w: World, r: Ref) {
    && r in w.store.heap && w.store.heap[r].status.Terminal()
    && forall t :: Holder(w, r, t) ==> w.threads[t].Finalizing?
  }

  ghost predicate WritesPending(w: World, r: Ref) {
    exists t :: PendingWrite(w, r, t)
  }

  ghost predicate PendingWrite(w: World, r: Ref, t: Tid) {
    t in w.threads && w.threads[t].r == r && StatusWriter(w.threads[t])
  }

  /** What a thread of a session at rest does next: it ends, or answers, or releases. */
  lemma MoverAtRest(w: World, t: Tid, input: Input, r: Ref)
    requires Accounted(w) && AtRest(w, r) && Enabled(w, Advance(t, input)) && w.threads[t].r == r && !StatusWriter(w.threads[t])
    ensures var w' := DoAdvance(w, t, input).0;
            t in w'.threads ==> !Holds(w'.threads[t]) && !StatusWriter(w'.threads[t])
  {
    assert Holds(w.threads[t]) ==> Holder(w, r, t);
    match w.threads[t] {
      case Found(_, _) => RefusedPuts(w, t);
      case Driven(_, _, _, _, _) => ViewTouches(w, t);
      case Begun(_, _, _) => ReturnTouches(w, t);
      case Answered(_, _, _, _, _) => ReturnTouches(w, t);
      case Finalizing(_, _, _) => FinalizePuts(w, t);
      case _ =>
    }
  }

  lemma StrangerStays(w: World, t: Tid, input: Input)
    requires Linked(w) && Enabled(w, Advance(t, input))
    ensures t in DoAdvance(w, t, input).0.threads ==> DoAdvance(w, t, input).0.threads[t].r == w.threads[t].r
  {
    if PutsOnly(w.threads[t]) { AdvancePuts(w, t, input); }
  }

  /** A session at rest stays so, and shows the same, as long as no pending status write is made; and no
      new one comes to be pending. */
  lemma StepAtRest(w: World, a: Action, r: Ref)
    requires Earnest(w) && Enabled(w, a) && AtRest(w, r) && !WritesStatus(w, a, r)
    ensures AtRest(Apply(w, a).0, r) && ShownAlike(w, Apply(w, a).0, r)
    ensures forall t :: PendingWrite(Apply(w, a).0, r, t) ==> PendingWrite(w, r, t)
  {
    var w' := Apply(w, a).0;
    if WritesEnd(w, a, r) { assert Holder(w, r, a.t); }
    StepShows(w, a, r);
    forall t ensures (Holder(w', r, t) ==> w'.threads[t].Finalizing?) && (PendingWrite(w', r, t) ==> PendingWrite(w, r, t)) {
      if t in w'.threads { ThreadAtRest(w, a, r, t); }
    }
  }

  lemma ThreadAtRest(w: World, a: Action, r: Ref, t: Tid)
    requires Accounted(w) && Enabled(w, a) && AtRest(w, r) && !WritesStatus(w, a, r) && t in Apply(w, a).0.threads
    ensures Holder(Apply(w, a).0, r, t) ==> Apply(w, a).0.threads[t].Finalizing?
    ensures PendingWrite(Apply(w, a).0, r, t) ==> PendingWrite(w, r, t)
  {
    if a.Advance? && a.t == t {
      StrangerStays(w, t, a.input);
      if w.threads[t].r == r { MoverAtRest(w, t, a.input, r); }
    } else {
      OthersUnmoved(w, a, t);
      assert t in w.threads ==> (Holder(w, r, t) <==> Holder(Apply(w, a).0, r, t));
    }
  }

  /** The pending status write can always be made, whatever is assumed of the environment; it undoes the
      settlement. */
  lemma PendingUndoes(w: World, r: Ref, t: Tid, assumed: Assumed)
    requires Linked(w) && AtRest(w, r) && PendingWrite(w, r, t)
    ensures Admissible(w, [Advance(t, Idle)], assumed) && r in Exec(w, [Advance(t, Idle)], assumed).store.heap
    ensures Exec(w, [Advance(t, Idle)], assumed).store.heap[r].status == Authorizing
  {
    var a := Advance(t, Idle);
    assert [a][1..] == [];
    StatusWrite(w, a, r);
  }

  lemma {:induction false} RunAtRest(w: World, run: seq<Action>, r: Ref, assumed: Assumed)
    requires Earnest(w) && AtRest(w, r) && !WritesPending(w, r) && Admissible(w, run, assumed)
    ensures ShownAlike(w, Exec(w, run, assumed), r)
    decreases |run|
  {
    if run != [] {
      var a := run[0];
      assert WritesStatus(w, a, r) ==> PendingWrite(w, r, a.t);
      StepAtRest(w, a, r);
      StepEarnest(w, a);
      RunAtRest(Apply(w, a).0, run[1..], r, assumed);
    }
  }

  /** Exactly when a settlement is for good: what is shown of an ended session is the same after every
      run, under whichever hypotheses, if and only if no call is still to make its status write on it.
      That can be looked up the moment the session ends. */
  lemma SettledForGoodIff(w: World, r: Ref, assumed: Assumed)
    requires Reached(w, assumed) && AtRest(w, r)
    ensures (forall run | Admissible(w, run, assumed) :: ShownAlike(w, Exec(w, run, assumed), r)) <==> !WritesPending(w, r)
  {
    ReachedEarnest(w, assumed);
    if !WritesPending(w, r) {
      forall run | Admissible(w, run, assumed) ensures ShownAlike(w, Exec(w, run, assumed), r) {
        RunAtRest(w, run, r, assumed);
      }
    } else {
      var t :| PendingWrite(w, r, t);
      PendingUndoes(w, r, t, assumed);
      assert !ShownAlike(w, Exec(w, [Advance(t, Idle)], assumed), r);
    }
  }

  /** Every settlement leaves its session at rest. */
  lemma SettlingBringsRest(w: World, a: Action, r: Ref)
    requires Reached(w, NOTHING) && CanStep(w, a, NOTHING) && r in w.store.heap && WritesEnd(w, a, r)
    ensures AtRest(Apply(w, a).0, r)
  {
    ReachedEarnest(w, NOTHING);
    EndWrite(w, a, r);
    assert ThreadEarnest(w, a.t);
    PlanIsSound(w.cfg, w.hist[r].calls, w.threads[a.t].plan);
    StepEarnest(w, a);
    var w' := Apply(w, a).0;
    SettlePuts(w, a.t);
    assert Holder(w', r, a.t) && Balanced(w', r);
  }
}
