/** What each step changes, and what it leaves alone. */
module Effects {
  import opened Basics
  import opened Steps
  import opened SessionStore
  import opened HttpApi
  import opened Protocol

  /** `w'` differs from `w` at most in session `r` and thread `t`. */
  ghost predicate Touches(w: World, w': World, r: Ref, t: Tid) {
    && w'.store.byID == w.store.byID
    && w'.store.heap.Keys == w.store.heap.Keys && w'.hist.Keys == w.hist.Keys
    && (forall r' | r' in w.store.heap && r' != r :: w'.store.heap[r'] == w.store.heap[r'])
    && (forall r' | r' in w.hist && r' != r :: w'.hist[r'] == w.hist[r'])
    && (forall t' | t' != t :: t' in w'.threads <==> t' in w.threads)
    && (forall t' | t' != t && t' in w.threads :: w'.threads[t'] == w.threads[t'])
  }

  /** States issued stay issued, to the same session. */
  ghost predicate Grows(issued: map<string, Ref>, issued': map<string, Ref>) {
    forall x | x in issued :: x in issued' && issued'[x] == issued[x]
  }

  /** ... and in states issued since. */
  ghost predicate Local(w: World, w': World, r: Ref, t: Tid) {
    && w'.cfg == w.cfg && w'.now == w.now && w'.published == w.published && w'.ids == w.ids
    && Touches(w, w', r, t)
    && Grows(w.issued, w'.issued)
  }

  ghost function Expired(w: World, r: Ref): World
    requires r in w.store.heap
  {
    w.(store := Expire(w.store, r, w.now))
  }

  /** The world in which the lookup has applied expiry. */
  ghost function AfterLookup(w: World, state: string): World
    requires Linked(w)
  {
    w.(store := GetByState(w.store, state, w.now).0)
  }

  ghost function Swept(w: World): World
    requires Linked(w)
  {
    w.(store := Evict(w.store, w.now))
  }

  /** The world in which the session waiting in thread `t` has been stored. */
  ghost function Inserted(w: World, t: Tid): World
    requires Linked(w) && t in w.threads && w.threads[t].Starting?
  {
    var th := w.threads[t];
    var rec := Fresh(w.hist[th.r].id, th.state, th.clientState, th.conformance, w.now, w.cfg.ttl);
    w.(store := Store(w.store.heap[th.r := rec], w.store.byID[rec.correlationID := th.r],
                      if rec.oauthState == "" then w.store.byState else w.store.byState[rec.oauthState := rec.correlationID]),
       threads := w.threads[t := Created(th.r, th.handle, th.url, th.state)])
  }

  lemma NewIsSweepTickInsert(w: World, t: Tid, reading: int)
    requires Linked(w) && t in w.threads && w.threads[t].Starting?
    ensures Linked(Swept(w))
    ensures DoNew(w, t, reading) == Inserted(Swept(w).(now := reading), t)
  {
  }

  lemma LookupTouches(w: World, t: Tid, req: Request)
    requires Linked(w) && t !in w.threads && Valid(req) && GetByState(w.store, req.state, w.now).1.Some?
    ensures var w1, w', r := AfterLookup(w, req.state), DoLookup(w, t, req).0, GetByState(w.store, req.state, w.now).1.value;
            && w' == w1.(threads := w'.threads) && Touches(w1, w', r, t)
            && w1.threads == w.threads && t in w'.threads && w'.threads[t] == Found(r, req)
  {
  }

  /** The world in which the final view of thread `t` has applied expiry. */
  ghost function Viewed(w: World, t: Tid): World
    requires Linked(w) && t in w.threads && w.threads[t].Driven?
  {
    w.(store := ViewByID(w.store, w.store.heap[w.threads[t].r].correlationID, w.now).0)
  }

  lemma ViewTouches(w: World, t: Tid)
    requires Linked(w) && t in w.threads && w.threads[t].Driven?
    ensures var w1, w', th := Viewed(w, t), DoView(w, t), w.threads[t];
            && w' == w1.(threads := w'.threads) && Touches(w1, w', th.r, t) && w1.threads == w.threads
            && t in w'.threads && w'.threads[t].Answered? && w'.threads[t].r == th.r && w'.threads[t].issues == th.issues
  {
  }

  lemma ReturnTouches(w: World, t: Tid)
    requires Linked(w) && t in w.threads && (w.threads[t].Begun? || w.threads[t].Answered?)
    ensures var w', r := DoReturn(w, t).0, w.threads[t].r;
            && w'.store == w.store && w'.cfg == w.cfg && w'.now == w.now && w'.ids == w.ids && w'.issued == w.issued
            && w'.threads == w.threads - {t} && Touches(w, w', r, t)
            && r in w'.hist && (w'.hist[r] == w.hist[r] || w'.hist[r] == w.hist[r].(owner := None))
  {
  }

  // --- Steps of one thread on its session ------------------------------------------------

  /** Thread `t`, now `th`, has put `rec` and `h` in the place of its session's record and history. */
  ghost predicate Puts(w: World, w': World, t: Tid, th: Thread, rec: Record, h: Hist) {
    && w' == w.(store := w'.store, threads := w.threads[t := th], hist := w.hist[th.r := h], issued := w'.issued)
    && w'.store.byID == w.store.byID && w'.store.heap == w.store.heap[th.r := rec]
  }

  lemma PutTouches(w: World, w': World, t: Tid, th: Thread, rec: Record, h: Hist)
    requires Puts(w, w', t, th, rec, h) && th.r in w.store.heap && th.r in w.hist
    ensures Touches(w, w', th.r, t)
  {
  }

  lemma PutLocal(w: World, w': World, t: Tid, th: Thread, rec: Record, h: Hist)
    requires Puts(w, w', t, th, rec, h) && th.r in w.store.heap && th.r in w.hist
    requires Grows(w.issued, w'.issued)
    ensures Local(w, w', th.r, t)
  {
    PutTouches(w, w', t, th, rec, h);
  }

  lemma BegunPuts(w: World, t: Tid)
    requires Linked(w) && t in w.threads && w.threads[t].Created?
    ensures var th, w' := w.threads[t], DoBegun(w, t);
            var rec, h := w.store.heap[th.r], w.hist[th.r];
            Puts(w, w', t, Begun(th.r, th.url, th.state), Reopened(WithHandle(rec, th.handle)), h) && w'.issued == w.issued && w'.store.byState == w.store.byState
  {
  }

  lemma ResumePuts(w: World, t: Tid, reply: SdkReply)
    requires Linked(w) && t in w.threads && w.threads[t].Claimed?
    ensures var th, w' := w.threads[t], DoResume(w, t, reply);
            var rec, h := w.store.heap[th.r], w.hist[th.r];
            Puts(w, w', t, AfterSdk(th.r, th.req, th.handle, reply), rec, Log(h, ReturnCall(th, reply))) && w'.store == w.store && w'.issued == Emit(w, th.r, reply)
  {
  }

  lemma ResumeHTTPPuts(w: World, t: Tid, reply: SdkReply)
    requires Linked(w) && t in w.threads && w.threads[t].Responded?
    ensures var th, w' := w.threads[t], DoResumeHTTP(w, t, reply);
            var rec, h := w.store.heap[th.r], w.hist[th.r];
            Puts(w, w', t, AfterSdk(th.r, th.req, th.handle, reply), rec, Log(h, HttpCall(th.handle, th.status, th.body, reply))) && w'.store == w.store && w'.issued == Emit(w, th.r, reply)
  {
  }

  lemma UpstreamPuts(w: World, t: Tid, response: Option<(int, Bytes)>)
    requires Linked(w) && t in w.threads && w.threads[t].Planned?
    ensures var th, w' := w.threads[t], DoUpstream(w, t, response);
            var rec, h := w.store.heap[th.r], w.hist[th.r];
            Puts(w, w', t, AfterNet(th, response), rec, h) && w'.store == w.store && w'.issued == w.issued
  {
  }

  lemma KeepHandlePuts(w: World, t: Tid)
    requires Linked(w) && t in w.threads && w.threads[t].Got?
    ensures var th, w' := w.threads[t], DoKeepHandle(w, t);
            var rec, h := w.store.heap[th.r], w.hist[th.r];
            Puts(w, w', t, Planned(th.r, th.req, th.res.handle, Decide(w.cfg, th.res)), WithHandle(rec, th.res.handle), h) && w'.issued == w.issued && w'.store.byState == w.store.byState
  {
  }

  lemma IndexPuts(w: World, t: Tid)
    requires Linked(w) && t in w.threads && w.threads[t].Planned? && w.threads[t].plan.Index?
    ensures var th, w' := w.threads[t], DoIndex(w, t);
            var rec, h := w.store.heap[th.r], w.hist[th.r];
            Puts(w, w', t, Indexed(th.r, th.req, th.plan.url, th.plan.state), rec.(oauthState := th.plan.state, resuming := false), h.(releases := h.releases + 1))
            && w'.issued == w.issued && w'.store == SetState(w.store, th.r, th.plan.state)
  {
  }

  lemma ReopenPuts(w: World, t: Tid)
    requires Linked(w) && t in w.threads && w.threads[t].Indexed?
    ensures var th, w' := w.threads[t], DoReopen(w, t);
            var rec, h := w.store.heap[th.r], w.hist[th.r];
            Puts(w, w', t, Driven(th.r, th.req, Outcome(Some(Authorizing), w.cfg.rewrite(th.url), "", None), true, Some(th.state)), Reopened(rec), h)
            && w'.issued == w.issued && w'.store.byState == w.store.byState
  {
  }

  lemma SettlePuts(w: World, t: Tid)
    requires Linked(w) && t in w.threads && w.threads[t].Planned? && (w.threads[t].plan.Finish? || w.threads[t].plan.Fail?)
    ensures var th, w' := w.threads[t], DoSettle(w, t);
            var rec, h := w.store.heap[th.r], w.hist[th.r];
            Puts(w, w', t, Finalizing(th.r, th.req, EndOutcome(th.plan)), Settled(rec, th.plan), h.(settled := Some(SettlementOf(th.plan))))
            && w'.issued == w.issued && w'.store.byState == w.store.byState
  {
  }

  lemma FinalizePuts(w: World, t: Tid)
    requires Linked(w) && t in w.threads && w.threads[t].Finalizing?
    ensures var th, w' := w.threads[t], DoFinalize(w, t);
            var rec, h := w.store.heap[th.r], w.hist[th.r];
            Puts(w, w', t, Driven(th.r, th.req, th.outcome, true, None), rec.(oauthState := "", handle := [], resuming := false), h.(releases := h.releases + 1))
            && w'.issued == w.issued && w'.store == Finalize(w.store, th.r)
  {
  }

  /** The steps between claim and return, and the end of `Begin`: they put a thread, a record and a
      history, and nothing else. */
  predicate PutsOnly(th: Thread) {
    th.Created? || th.Claimed? || th.Got? || th.Planned? || th.Responded? || th.Indexed? || th.Finalizing?
  }

  ghost function NextThread(cfg: Config, th: Thread, input: Input): Thread
    requires PutsOnly(th) && InputFits(th, input)
  {
    match th
    case Created(_, _, _, _) => Begun(th.r, th.url, th.state)
    case Claimed(_, _, _) => AfterSdk(th.r, th.req, th.handle, input.reply)
    case Responded(_, _, _, _, _) => AfterSdk(th.r, th.req, th.handle, input.reply)
    case Got(_, _, _) => Planned(th.r, th.req, th.res.handle, Decide(cfg, th.res))
    case Planned(_, _, _, plan) =>
      if plan.Effect? then AfterNet(th, input.response)
      else if plan.Index? then Indexed(th.r, th.req, plan.url, plan.state)
      else Finalizing(th.r, th.req, EndOutcome(plan))
    case Indexed(_, _, _, _) => Driven(th.r, th.req, Outcome(Some(Authorizing), cfg.rewrite(th.url), "", None), true, Some(th.state))
    case Finalizing(_, _, _) => Driven(th.r, th.req, th.outcome, true, None)
  }

  ghost function NextRecord(th: Thread, rec: Record): Record
    requires PutsOnly(th)
  {
    match th
    case Created(_, _, _, _) => Reopened(WithHandle(rec, th.handle))
    case Got(_, _, _) => WithHandle(rec, th.res.handle)
    case Planned(_, _, _, plan) =>
      if plan.Effect? then rec
      else if plan.Index? then rec.(oauthState := plan.state, resuming := false)
      else Settled(rec, plan)
    case Indexed(_, _, _, _) => Reopened(rec)
    case Finalizing(_, _, _) => rec.(oauthState := "", handle := [], resuming := false)
    case _ => rec
  }

  ghost function NextHist(th: Thread, h: Hist, input: Input): Hist
    requires PutsOnly(th) && InputFits(th, input)
  {
    match th
    case Claimed(_, _, _) => Log(h, ReturnCall(th, input.reply))
    case Responded(_, _, _, _, _) => Log(h, HttpCall(th.handle, th.status, th.body, input.reply))
    case Planned(_, _, _, plan) =>
      if plan.Effect? then h
      else if plan.Index? then h.(releases := h.releases + 1)
      else h.(settled := Some(SettlementOf(plan)))
    case Finalizing(_, _, _) => h.(releases := h.releases + 1)
    case _ => h
  }

  ghost function NextIssued(w: World, th: Thread, input: Input): map<string, Ref>
    requires PutsOnly(th) && InputFits(th, input)
  {
    if th.Claimed? || th.Responded? then Emit(w, th.r, input.reply) else w.issued
  }

  /** What such a step puts, as functions of what was there. */
  ghost predicate Advances(w: World, w': World, t: Tid, input: Input)
    requires t in w.threads && PutsOnly(w.threads[t]) && InputFits(w.threads[t], input)
    requires w.threads[t].r in w.store.heap && w.threads[t].r in w.hist
  {
    var th := w.threads[t];
    && Puts(w, w', t, NextThread(w.cfg, th, input), NextRecord(th, w.store.heap[th.r]), NextHist(th, w.hist[th.r], input))
    && w'.issued == NextIssued(w, th, input)
  }

  lemma AdvancePuts(w: World, t: Tid, input: Input)
    requires Linked(w) && Enabled(w, Advance(t, input)) && PutsOnly(w.threads[t])
    ensures Advances(w, DoAdvance(w, t, input).0, t, input)
  {
    match w.threads[t]
    case Created(_, _, _, _) => BegunPuts(w, t);
    case Claimed(_, _, _) => ResumePuts(w, t, input.reply);
    case Responded(_, _, _, _, _) => ResumeHTTPPuts(w, t, input.reply);
    case Got(_, _, _) => KeepHandlePuts(w, t);
    case Planned(_, _, _, _) => PlannedPuts(w, t, input);
    case Indexed(_, _, _, _) => ReopenPuts(w, t);
    case Finalizing(_, _, _) => FinalizePuts(w, t);
  }

  lemma PlannedPuts(w: World, t: Tid, input: Input)
    requires Linked(w) && t in w.threads && w.threads[t].Planned? && InputFits(w.threads[t], input)
    ensures Advances(w, DoPlanned(w, t, input), t, input)
  {
    match w.threads[t].plan
    case Effect(_) => UpstreamPuts(w, t, input.response);
    case Index(_, _) => IndexPuts(w, t);
    case _ => SettlePuts(w, t);
  }

  /** A granted claim. */
  lemma ClaimPuts(w: World, t: Tid)
    requires Linked(w) && t in w.threads && w.threads[t].Found? && Consume(w.store, w.threads[t].r, w.now).1.Ok?
    ensures var th, w' := w.threads[t], DoClaim(w, t);
            var rec, h := w.store.heap[th.r], w.hist[th.r];
            && !rec.resuming && !rec.status.Terminal() && !PastDeadline(rec, w.now)
            && Puts(w, w', t, Claimed(th.r, th.req, rec.handle), rec.(resuming := true, oauthState := ""),
                    h.(owner := Some(t), claims := h.claims + 1))
            && w'.issued == w.issued && w'.store == Consume(w.store, th.r, w.now).0
  {
  }

  /** A refused claim: expiry first, then only the thread moves on. */
  lemma RefusedPuts(w: World, t: Tid)
    requires Linked(w) && t in w.threads && w.threads[t].Found? && Consume(w.store, w.threads[t].r, w.now).1.Err?
    ensures var th, w1, w' := w.threads[t], Expired(w, w.threads[t].r), DoClaim(w, t);
            && w' == w1.(threads := w.threads[t := Driven(th.r, th.req, Refused(Consume(w.store, th.r, w.now).1.error), false, None)])
            && Touches(w1, w', th.r, t)
  {
  }

  // --- Every other thread ------------------------------------------------------------------

  lemma AdvanceLeavesOthers(w: World, t: Tid, input: Input, u: Tid)
    requires Linked(w) && Enabled(w, Advance(t, input)) && u != t
    ensures u in DoAdvance(w, t, input).0.threads <==> u in w.threads
    ensures u in w.threads ==> DoAdvance(w, t, input).0.threads[u] == w.threads[u]
  {
    if PutsOnly(w.threads[t]) { AdvancePuts(w, t, input); }
  }

  /** A step moves the one thread it names; a new thread starts, or has looked a session up. */
  lemma OthersUnmoved(w: World, a: Action, u: Tid)
    requires Linked(w) && Enabled(w, a) && !(a.Advance? && a.t == u)
    ensures u in w.threads ==> u in Apply(w, a).0.threads && Apply(w, a).0.threads[u] == w.threads[u]
    ensures u in Apply(w, a).0.threads && u !in w.threads ==> Apply(w, a).0.threads[u].Starting? || Apply(w, a).0.threads[u].Found?
  {
    if a.Advance? { AdvanceLeavesOthers(w, a.t, a.input, u); }
  }

  // --- Histories -------------------------------------------------------------------------------

  /** The same session with a conversation that goes on. */
  ghost predicate GrownFrom(h: Hist, h': Hist) {
    h'.id == h.id && h.calls <= h'.calls
  }

  /** Conversations only grow. */
  lemma HistoryGrows(w: World, a: Action, r: Ref)
    requires Linked(w) && Enabled(w, a) && r in w.hist
    ensures r in Apply(w, a).0.hist && GrownFrom(w.hist[r], Apply(w, a).0.hist[r])
  {
    if a.Advance? { AdvanceGrows(w, a.t, a.input, r); }
  }

  lemma AdvanceGrows(w: World, t: Tid, input: Input, r: Ref)
    requires Linked(w) && Enabled(w, Advance(t, input)) && r in w.hist
    ensures r in DoAdvance(w, t, input).0.hist && GrownFrom(w.hist[r], DoAdvance(w, t, input).0.hist[r])
  {
    match w.threads[t]
    case Starting(_, _, _, _, _, _) =>
    case Found(_, _) => ClaimGrows(w, t, r);
    case Driven(_, _, _, _, _) =>
    case Begun(_, _, _) => ReturnTouches(w, t);
    case Answered(_, _, _, _, _) => ReturnTouches(w, t);
    case _ =>
      AdvancePuts(w, t, input);
      PutGrows(w, DoAdvance(w, t, input).0, t, input, r);
  }

  lemma ClaimGrows(w: World, t: Tid, r: Ref)
    requires Linked(w) && t in w.threads && w.threads[t].Found? && r in w.hist
    ensures r in DoClaim(w, t).hist && GrownFrom(w.hist[r], DoClaim(w, t).hist[r])
  {
    if Consume(w.store, w.threads[t].r, w.now).1.Ok? { ClaimPuts(w, t); } else { RefusedPuts(w, t); }
  }

  lemma PutGrows(w: World, w': World, t: Tid, input: Input, r: Ref)
    requires t in w.threads && PutsOnly(w.threads[t]) && InputFits(w.threads[t], input) && r in w.hist
    requires w.threads[t].r in w.store.heap && w.threads[t].r in w.hist && Advances(w, w', t, input)
    ensures r in w'.hist && GrownFrom(w.hist[r], w'.hist[r])
  {
  }
}
