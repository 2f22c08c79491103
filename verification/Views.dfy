/** What pollers and browsers are shown, over time, under H1-H4. */
module Views {
  import opened Basics
  import opened Steps
  import opened SessionStore
  import opened HttpApi
  import opened Protocol
  import opened Effects
  import opened Ledger
  import opened Custody
  import opened Storage
  import opened Settlement
  import opened Executions
  import opened Invariant
  import opened Preservation
  import opened StepInvariants
  import opened StartInvariants
  import opened Runs
  import opened Safety

  /** How far a journey is for its observers: 0 open, 1 past its deadline, 2 settled. */
  ghost function Phase(w: World, r: Ref): int
    requires Linked(w) && r in w.store.heap
  {
    if w.hist[r].settled.Some? then 2 else if w.now > w.store.heap[r].expiresAt then 1 else 0
  }

  /** The view of a stored session is determined by its phase. */
  lemma ViewByPhase(w: World, id: string)
    requires Reachable(w) && id in w.store.byID
    ensures var r := w.store.byID[id];
            var view := ViewByID(w.store, id, w.now).1;
            && view.Some? && view.value.correlationID == id
            && match Phase(w, r)
               case 0 => StatusAnswer(view) == StatusIs(Authorizing, None) && ResultAnswer(view) == NotCompleted
               case 1 => StatusAnswer(view) == StatusIs(Failed, Some("session_expired")) && ResultAnswer(view) == NotCompleted
               case _ =>
                 var s := w.hist[r].settled.value;
                 && s.status.Terminal()
                 && StatusAnswer(view) == StatusIs(s.status, if s.status == Failed then Some(s.reason) else None)
                 && (s.status == Completed <==> view.value.resultPDF != [])
                 && view.value.resultPDF == s.pdf && view.value.evidence == s.evidence
  {
    ReachableInv(w);
    var r := w.store.byID[id];
    assert SessionAt(w, r) && Kept(w, r);
    RecordByPhase(w.cfg, w.now, Stored(w.store, r), r, w.store.heap[r], w.hist[r], Owner(w, r), w.published, w.issued);
    ViewIsNow(w.store, id, w.now);
  }

  /** What a look at the record shows, by the phase. */
  lemma RecordByPhase(cfg: Config, now: int, stored: bool, r: Ref, rec: Record, h: Hist, owner: Option<Thread>,
                      published: set<string>, issued: map<string, Ref>)
    requires SessionOk(cfg, now, stored, r, rec, h, owner, published, issued)
    ensures var view := Some(ViewOf(if Due(rec, now) then Lapsed(rec) else rec));
            match h.settled
            case None =>
              && ResultAnswer(view) == NotCompleted
              && StatusAnswer(view) == (if PastDeadline(rec, now) then StatusIs(Failed, Some("session_expired")) else StatusIs(Authorizing, None))
            case Some(s) =>
              && s.status.Terminal()
              && StatusAnswer(view) == StatusIs(s.status, if s.status == Failed then Some(s.reason) else None)
              && (s.status == Completed <==> view.value.resultPDF != [])
              && view.value.resultPDF == s.pdf && view.value.evidence == s.evidence
  {
    LastPlanSound(cfg, h.calls);
  }

  lemma ViewIsNow(st: Store<Ref>, id: string, now: int)
    requires Closed(st) && id in st.byID
    ensures var rec := st.heap[st.byID[id]];
            ViewByID(st, id, now).1 == Some(ViewOf(if Due(rec, now) then Lapsed(rec) else rec))
  {
  }

  /** Under H1-H4 the only calls that write a status are calls on sessions that are not settled. */
  lemma WritersAreOpen(w: World, t: Tid)
    requires Inv(w) && t in w.threads && (StatusWriter(w.threads[t]) || Settler(w.threads[t]))
    ensures w.hist[w.threads[t].r].settled == None && w.hist[w.threads[t].r].owner == Some(t)
  {
    assert ThreadAt(w, t) && SessionAt(w, w.threads[t].r);
  }

  /** A settled session's record shows the same thing after any step. */
  lemma StepFreezes(w: World, a: Action, r: Ref)
    requires Inv(w) && CanStep(w, a, ALL) && r in w.store.heap && w.hist[r].settled.Some?
    ensures ShownAlike(w, Apply(w, a).0, r)
  {
    assert SessionAt(w, r);
    if WritesStatus(w, a, r) || WritesEnd(w, a, r) { WritersAreOpen(w, a.t); }
    StepShows(w, a, r);
  }

  /** When an end status is overwritten under H1-H4: exactly when it was the mark of lazy expiry on a
      session not settled yet, and the step is its active call's own status write or settlement. */
  lemma EndOverwrittenIff(w: World, a: Action, r: Ref)
    requires Reachable(w) && CanStep(w, a, ALL) && r in w.store.heap && w.store.heap[r].status.Terminal()
    ensures r in w.hist && r in Apply(w, a).0.store.heap
    ensures !ShownAlike(w, Apply(w, a).0, r) <==> w.hist[r].settled == None && (WritesStatus(w, a, r) || WritesEnd(w, a, r))
  {
    ReachableInv(w);
    assert SessionAt(w, r);
    if w.hist[r].settled.Some? {
      StepFreezes(w, a, r);
    } else if WritesStatus(w, a, r) {
      StatusWrite(w, a, r);
    } else if WritesEnd(w, a, r) {
      EndWrite(w, a, r);
      SettlementDiffers(w, a.t);
    } else {
      StepShows(w, a, r);
    }
  }

  /** No settlement looks like the mark of expiry: even if the SDK's own failure is called
      `session_expired`, it comes with evidence. */
  lemma SettlementDiffers(w: World, t: Tid)
    requires Inv(w) && t in w.threads && Settler(w.threads[t]) && w.store.heap[w.threads[t].r].status.Terminal()
    ensures var rec := w.store.heap[w.threads[t].r]; ViewOf(Settled(rec, w.threads[t].plan)) != ViewOf(rec)
  {
    var r := w.threads[t].r;
    WritersAreOpen(w, t);
    assert ThreadAt(w, t) && SessionAt(w, r);
    match LastReply(w.hist[r].calls)
    case SdkError =>
    case Stepped(res) => FailureHasEvidence(w.cfg, res);
  }

  lemma FailureHasEvidence(cfg: Config, res: StepResult)
    ensures var p := Decide(cfg, res); p.Fail? && p.reason == REASON_EXPIRED ==> p.failEvidence.Some?
  {
  }

  lemma {:induction false} RunFreezes(w: World, run: seq<Action>, r: Ref)
    requires Inv(w) && Admissible(w, run, ALL) && r in w.store.heap && w.hist[r].settled.Some?
    ensures ShownAlike(w, Exec(w, run, ALL), r)
    decreases |run|
  {
    if run != [] {
      var w' := Apply(w, run[0]).0;
      StepInv(w, run[0]);
      StepLater(w, run[0]);
      assert SessionLater(w, w', r);
      StepFreezes(w, run[0], r);
      RunFreezes(w', run[1..], r);
    }
  }

  /** The views of one session go open, then expired, then settled, never backwards; from the moment
      it is settled every later view of it is the same, to the last field, until eviction. */
  lemma ViewsNeverGoBack(w: World, run: seq<Action>, id: string)
    requires Reachable(w) && Admissible(w, run, ALL)
    requires Linked(Exec(w, run, ALL)) && id in w.store.byID && id in Exec(w, run, ALL).store.byID
    ensures var w' := Exec(w, run, ALL);
            var r := w.store.byID[id];
            && w'.store.byID[id] == r
            && Phase(w, r) <= Phase(w', r)
            && (Phase(w, r) == 2 ==> ViewByID(w'.store, id, w'.now).1 == ViewByID(w.store, id, w.now).1)
  {
    ReachableInv(w);
    RunInv(w, run);
    RunLater(w, run);
    var w' := Exec(w, run, ALL);
    var r := w.store.byID[id];
    IdIsHome(w, id);
    IdIsHome(w', id);
    assert SessionLater(w, w', r);
    assert SessionAt(w, r) && SessionAt(w', r);
    if w.hist[r].settled.Some? {
      RunFreezes(w, run, r);
    }
  }

  // --- Answers to callbacks -----------------------------------------------------------

  /** A callback that lost its session to a duplicate is sent back to the application only once the
      journey is over for every later view. */
  lemma LosersReturnWhenOver(w: World, t: Tid)
    requires Reachable(w) && t in w.threads && w.threads[t].Answered? && !w.threads[t].entered
    ensures var th := w.threads[t];
            || th.answer == AlreadyProcessing
            || (th.req.browser
                && th.answer == ToApplication(w.store.heap[th.r].clientState, w.hist[th.r].id)
                && Phase(w, th.r) >= 1)
  {
    ReachableInv(w);
    assert ThreadAt(w, t);
  }

  /** Rewriting keeps a URL a URL: the client returns the URL it is given, or one whose host it has just
      set. */
  ghost predicate RewritesKeep(cfg: Config) {
    forall u :: u != "" ==> cfg.rewrite(u) != ""
  }

  /** A redirect to the application names this session and its client state, and means the journey is
      over, so every view of it from now on is terminal. */
  lemma ToApplicationMeansOver(w: World, t: Tid)
    requires Reachable(w) && RewritesKeep(w.cfg)
    requires t in w.threads && w.threads[t].Answered? && w.threads[t].answer.ToApplication?
    ensures var th := w.threads[t];
            && th.answer == ToApplication(w.store.heap[th.r].clientState, w.hist[th.r].id)
            && Phase(w, th.r) >= 1 && (th.entered ==> Phase(w, th.r) == 2)
  {
    OverOrEmptied(w, t);
  }

  /** Whatever rewriting does, the journey is over unless its next URL was emptied. */
  lemma OverOrEmptied(w: World, t: Tid)
    requires Reachable(w) && t in w.threads && w.threads[t].Answered? && w.threads[t].answer.ToApplication?
    ensures var th := w.threads[t];
            var plan := LastPlan(w.cfg, w.hist[th.r].calls);
            && th.answer == ToApplication(w.store.heap[th.r].clientState, w.hist[th.r].id)
            && (Phase(w, th.r) >= 1 || (th.entered && plan.Index? && plan.url != "" && w.cfg.rewrite(plan.url) == ""))
            && (Phase(w, th.r) == 2 || !th.entered || (plan.Index? && plan.url != "" && w.cfg.rewrite(plan.url) == ""))
  {
    ReachableInv(w);
    var th := w.threads[t];
    assert ThreadAt(w, t) && SessionAt(w, th.r);
    if th.entered {
      DeliveredSound(w.cfg, w.hist[th.r], th.req, w.store.heap[th.r].clientState);
    }
  }

  /** A redirect to the provider carries the rewritten URL of the SDK's last redirect step, and the
      state emitted with it is the one the session now waits for. */
  lemma ToProviderIsCurrent(w: World, t: Tid)
    requires Reachable(w) && t in w.threads && w.threads[t].Answered? && w.threads[t].answer.ToProvider?
    ensures var th := w.threads[t];
            var plan := LastPlan(w.cfg, w.hist[th.r].calls);
            && th.entered && plan.Index? && th.issues == Some(plan.state)
            && th.answer.url == w.cfg.rewrite(plan.url)
            && (w.store.heap[th.r].oauthState == plan.state || w.now > w.store.heap[th.r].expiresAt)
            && Phase(w, th.r) <= 1
  {
    ReachableInv(w);
    var th := w.threads[t];
    assert ThreadAt(w, t) && SessionAt(w, th.r);
    if th.entered {
      DeliveredSound(w.cfg, w.hist[th.r], th.req, w.store.heap[th.r].clientState);
    }
  }

  /** A start answers with the rewritten URL of the SDK's redirect, whose state the session now waits for
      and which only now is handed out, and with the exact expiry the store gave the session. */
  lemma StartedIsCurrent(w: World, t: Tid)
    requires Reachable(w) && t in w.threads && w.threads[t].Begun?
    ensures var r := w.threads[t].r;
            var rec, plan := w.store.heap[r], LastPlan(w.cfg, w.hist[r].calls);
            && plan.Index?
            && DoReturn(w, t).1 == Some(Started(w.cfg.rewrite(plan.url), rec.correlationID, rec.createdAt + w.cfg.ttl))
            && (rec.oauthState == plan.state || w.now > rec.expiresAt)
            && plan.state !in w.published && plan.state in DoReturn(w, t).0.published
  {
    ReachableInv(w);
    ReachedCustody(w, ALL);
    var r := w.threads[t].r;
    assert ThreadAt(w, t) && SessionAt(w, r) && Kept(w, r);
  }

  /** A 500 on the browser route means the session was evicted: the deadline plus the grace period
      has passed. */
  lemma BrowserFailureMeansEvicted(w: World, t: Tid)
    requires Reachable(w) && t in w.threads && w.threads[t].Answered?
    requires w.threads[t].req.browser && w.threads[t].answer == ResumeFailed
    ensures var r := w.threads[t].r;
            !Stored(w.store, r) && w.now > w.store.heap[r].expiresAt + 300_000_000_000
  {
    ReachableInv(w);
    var th := w.threads[t];
    assert ThreadAt(w, t) && SessionAt(w, th.r) && Kept(w, th.r);
    if th.entered {
      DeliveredSound(w.cfg, w.hist[th.r], th.req, w.store.heap[th.r].clientState);
    }
  }

  /** The answer of a callback that entered the SDK, by how its journey stands. */
  lemma DeliveredSound(cfg: Config, h: Hist, req: Request, clientState: string)
    requires h.settled.Some? ==>
               (FinalPlan(cfg, h.calls).Finish? || FinalPlan(cfg, h.calls).Fail?) && h.settled.value == SettlementOf(FinalPlan(cfg, h.calls))
    requires h.settled == None ==> LastPlan(cfg, h.calls).Index?
    requires h.id != ""
    ensures var answer := Delivered(req, Prescribed(cfg, h.calls), h, clientState);
            if h.settled.Some? then
              if req.browser then answer == ToApplication(clientState, h.id)
              else answer == ResumeFailed
                   || answer == Progress(Some(h.settled.value.status), None,
                                         if h.settled.value.status == Failed then Some(h.settled.value.reason) else None)
            else
              var url := cfg.rewrite(LastPlan(cfg, h.calls).url);
              && LastPlan(cfg, h.calls).url != ""
              && if !req.browser then answer == Progress(Some(Authorizing), if url == "" then None else Some(url), None)
                 else if url != "" then answer == ToProvider(url)
                 else answer == ToApplication(clientState, h.id)
  {
    match LastReply(h.calls)
    case SdkError =>
    case Stepped(res) => DecideIsSound(cfg, res);
  }
}
