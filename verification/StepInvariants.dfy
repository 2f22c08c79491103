/** The steps of callbacks and pollers, one lemma each, on the journeys. */
module StepInvariants {
  import opened Basics
  import opened Steps
  import opened SessionStore
  import opened HttpApi
  import opened Protocol
  import opened Effects
  import opened Ledger
  import opened Custody
  import opened Invariant
  import opened Preservation

  lemma PollJourneys(w: World, id: string, what: Observation)
    requires Journeys(w)
    ensures Journeys(DoPoll(w, id, what).0)
  {
    if id in w.store.byID {
      ExpireJourneys(w, w.store.byID[id]);
    }
  }

  // --- Lookup and claim ----------------------------------------------------------

  lemma LookedUpJourneys(w: World, state: string)
    requires Journeys(w)
    ensures Journeys(AfterLookup(w, state))
  {
    if state in w.store.byState && w.store.byState[state] != "" && w.store.byState[state] in w.store.byID {
      ExpireJourneys(w, w.store.byID[w.store.byState[state]]);
    }
  }

  /** The session a lookup finds waits for the state, which was issued to it. */
  lemma LookupFindsWaiting(w: World, state: string)
    requires Orderly(w) && GetByState(w.store, state, w.now).1.Some?
    ensures var r, w1 := GetByState(w.store, state, w.now).1.value, AfterLookup(w, state);
            && r in w1.store.heap && w1.store.heap[r].oauthState == state && state != "" && IssuedTo(w.issued, state, r)
  {
    var r := GetByState(w.store, state, w.now).1.value;
    LookupIsScan(w.store, state, w.now, r);
    assert Kept(w, r);
  }

  lemma LookupJourneys(w: World, t: Tid, req: Request)
    requires Inv(w) && t !in w.threads
    requires StateWasHandedOut(w, Callback(t, req))
    ensures Journeys(DoLookup(w, t, req).0)
  {
    if Valid(req) {
      LookedUpJourneys(w, req.state);
      if GetByState(w.store, req.state, w.now).1.Some? {
        LookupFindsWaiting(w, req.state);
        LookupTouches(w, t, req);
        FoundJourneys(AfterLookup(w, req.state), DoLookup(w, t, req).0, t, req, GetByState(w.store, req.state, w.now).1.value);
      }
    }
  }

  lemma FoundJourneys(w: World, w': World, t: Tid, req: Request, r: Ref)
    requires Journeys(w) && t !in w.threads && Valid(req) && req.state in w.published && IssuedTo(w.issued, req.state, r)
    requires r in w.store.heap && w' == w.(threads := w'.threads) && w'.threads == w.threads[t := Found(r, req)]
    ensures Journeys(w')
  {
    assert SessionAt(w, r) && OwnerLive(w, r);
    SameSession(w, w', r);
    LocalJourneys(w, w', r, t);
  }

  /** A claim that succeeds on the state it looked up finds the session at rest. */
  lemma ClaimFindsRest(w: World, t: Tid)
    requires Inv(w) && t in w.threads && w.threads[t].Found?
    requires Consume(w.store, w.threads[t].r, w.now).1.Ok?
    requires w.store.heap[w.threads[t].r].oauthState == w.threads[t].req.state
    ensures var r := w.threads[t].r;
            && w.hist[r].owner == None && w.hist[r].settled == None
            && !PastDeadline(w.store.heap[r], w.now)
            && Stored(w.store, r)
            && LastPlan(w.cfg, w.hist[r].calls).Index?
            && LastPlan(w.cfg, w.hist[r].calls).state == w.threads[t].req.state
            && w.store.heap[r].handle == LastHandle(w.hist[r].calls)
  {
    var r := w.threads[t].r;
    assert SessionAt(w, r) && ThreadAt(w, t) && OwnerLive(w, r);
    assert Kept(w, r);
  }

  lemma ClaimSession(cfg: Config, now: int, r: Ref, rec: Record, h: Hist, t: Tid, req: Request,
                     published: set<string>, issued: map<string, Ref>)
    requires SessionOk(cfg, now, true, r, rec, h, None, published, issued)
    requires h.settled == None && !rec.resuming && !rec.status.Terminal() && rec.handle == LastHandle(h.calls)
    requires LastPlan(cfg, h.calls).Index? && LastPlan(cfg, h.calls).state == req.state
    ensures SessionOk(cfg, now, true, r, rec.(resuming := true, oauthState := ""), h.(owner := Some(t), claims := h.claims + 1),
                      Some(Claimed(r, req, rec.handle)), published, issued)
  {
  }

  lemma ClaimJourneys(w: World, t: Tid)
    requires Inv(w) && t in w.threads && w.threads[t].Found?
    requires ClaimIsCurrent(w, Advance(t, Idle))
    ensures Journeys(DoClaim(w, t))
  {
    if Consume(w.store, w.threads[t].r, w.now).1.Ok? {
      ClaimFindsRest(w, t);
      GrantedJourneys(w, t);
    } else {
      RefusedJourneys(w, t);
    }
  }

  lemma GrantedJourneys(w: World, t: Tid)
    requires Journeys(w) && t in w.threads && w.threads[t].Found?
    requires var r := w.threads[t].r;
             && Consume(w.store, r, w.now).1.Ok?
             && w.hist[r].owner == None && w.hist[r].settled == None
             && Stored(w.store, r)
             && LastPlan(w.cfg, w.hist[r].calls).Index?
             && LastPlan(w.cfg, w.hist[r].calls).state == w.threads[t].req.state
             && w.store.heap[r].handle == LastHandle(w.hist[r].calls)
    ensures Journeys(DoClaim(w, t))
  {
    var th := w.threads[t];
    var r := th.r;
    var rec, h := w.store.heap[r], w.hist[r];
    var rec', h', th' := rec.(resuming := true, oauthState := ""), h.(owner := Some(t), claims := h.claims + 1), Claimed(r, th.req, rec.handle);
    ClaimPuts(w, t);
    assert SessionAt(w, r);
    ClaimSession(w.cfg, w.now, r, rec, h, t, th.req, w.published, w.issued);
    TakenJourneys(w, DoClaim(w, t), t, th', rec', h');
  }

  /** Thread `t` has become the active call. */
  lemma TakenJourneys(w: World, w': World, t: Tid, th: Thread, rec: Record, h: Hist)
    requires Journeys(w) && t in w.threads && th.r == w.threads[t].r && th.r in w.store.heap && th.r in w.hist && th.Claimed?
    requires Puts(w, w', t, th, rec, h) && w'.issued == w.issued && Stored(w.store, th.r)
    requires w.hist[th.r].owner == None && h.owner == Some(t) && h.id == w.hist[th.r].id && h.settled == w.hist[th.r].settled
    requires var was := w.store.heap[th.r];
             rec.correlationID == was.correlationID && rec.expiresAt == was.expiresAt && rec.clientState == was.clientState
    requires SessionOk(w.cfg, w.now, true, th.r, rec, h, Some(th), w.published, w.issued)
    ensures Journeys(w')
  {
    assert Stored(w'.store, th.r);
    PutLocal(w, w', t, th, rec, h);
    LocalJourneys(w, w', th.r, t);
  }

  lemma RefusedJourneys(w: World, t: Tid)
    requires Journeys(w) && t in w.threads && w.threads[t].Found?
    requires Consume(w.store, w.threads[t].r, w.now).1.Err?
    ensures Journeys(DoClaim(w, t))
  {
    ExpireJourneys(w, w.threads[t].r);
    RefusedPuts(w, t);
    BystanderJourneys(Expired(w, w.threads[t].r), DoClaim(w, t), t);
  }

  /** A thread that is not the active call moves on, or ends. */
  lemma BystanderJourneys(w: World, w': World, t: Tid)
    requires Journeys(w) && t in w.threads && !Owns(w.threads[t]) && w.threads[t].r in w.store.heap
    requires w' == w.(threads := w'.threads) && Touches(w, w', w.threads[t].r, t)
    requires t in w'.threads ==>
               && w'.threads[t].r == w.threads[t].r && !Owns(w'.threads[t])
               && BystanderOk(w.now, w.threads[t].r, w.store.heap[w.threads[t].r], w.hist[w.threads[t].r], w'.threads[t], w.published, w.issued)
    ensures Journeys(w')
  {
    var r := w.threads[t].r;
    assert SessionAt(w, r) && OwnerLive(w, r) && ThreadAt(w, t);
    SameSession(w, w', r);
    LocalJourneys(w, w', r, t);
  }

  // --- Talking to the SDK and upstream -------------------------------------------

  /** Appending a call that follows the last reply, and whose own emission is new, keeps the
      conversation linear. */
  lemma Converse(cfg: Config, r: Ref, calls: seq<Call>, call: Call, issued: map<string, Ref>)
    requires Linear(cfg, calls) && EmitsOnce(cfg, calls) && OnRecord(cfg, r, calls, issued)
    requires Follows(cfg, LastReply(calls), call)
    requires Emits(cfg, call.out).Some? ==> Emits(cfg, call.out).value !in issued
    ensures var issued' := if Emits(cfg, call.out).Some? then issued[Emits(cfg, call.out).value := r] else issued;
            Linear(cfg, calls + [call]) && EmitsOnce(cfg, calls + [call]) && OnRecord(cfg, r, calls + [call], issued')
  {
    var more := calls + [call];
    assert forall i | 0 <= i < |calls| :: more[i] == calls[i];
    forall i, j | 0 <= i < j < |more| && Emits(cfg, more[i].out).Some?
      ensures Emits(cfg, more[i].out) != Emits(cfg, more[j].out)
    {
      assert IssuedTo(issued, Emits(cfg, more[i].out).value, r);
    }
    forall i | 0 < i < |more| ensures Follows(cfg, more[i - 1].out, more[i]) {
      if i < |calls| { assert more[i - 1] == calls[i - 1]; }
    }
  }

  lemma ConverseSession(cfg: Config, now: int, stored: bool, r: Ref, rec: Record, h: Hist, th: Thread, call: Call, req: Request,
                        handle: Bytes, published: set<string>, issued: map<string, Ref>)
    requires SessionOk(cfg, now, stored, r, rec, h, Some(th), published, issued)
    requires th.Claimed? || th.Responded?
    requires Follows(cfg, LastReply(h.calls), call) && published <= issued.Keys
    requires Emits(cfg, call.out).Some? ==> Emits(cfg, call.out).value !in issued
    ensures var issued' := if Emits(cfg, call.out).Some? then issued[Emits(cfg, call.out).value := r] else issued;
            SessionOk(cfg, now, stored, r, rec, Log(h, call), Some(AfterSdk(r, req, handle, call.out)), published, issued')
  {
    Converse(cfg, r, h.calls, call, issued);
  }

  lemma ResumeJourneys(w: World, t: Tid, reply: SdkReply)
    requires Journeys(w) && t in w.threads && w.threads[t].Claimed?
    requires FreshState(w, reply) && w.published <= w.issued.Keys
    ensures Journeys(DoResume(w, t, reply))
  {
    var th := w.threads[t];
    var rec, h := w.store.heap[th.r], w.hist[th.r];
    assert SessionAt(w, th.r) && ThreadAt(w, t);
    ConverseSession(w.cfg, w.now, Stored(w.store, th.r), th.r, rec, h, th, ReturnCall(th, reply), th.req, th.handle, w.published, w.issued);
    ResumePuts(w, t, reply);
    PutJourneys(w, DoResume(w, t, reply), t, AfterSdk(th.r, th.req, th.handle, reply), rec, Log(h, ReturnCall(th, reply)));
  }

  lemma ResumeHTTPJourneys(w: World, t: Tid, reply: SdkReply)
    requires Journeys(w) && t in w.threads && w.threads[t].Responded?
    requires FreshState(w, reply) && w.published <= w.issued.Keys
    ensures Journeys(DoResumeHTTP(w, t, reply))
  {
    var th := w.threads[t];
    var rec, h := w.store.heap[th.r], w.hist[th.r];
    assert SessionAt(w, th.r) && ThreadAt(w, t);
    ConverseSession(w.cfg, w.now, Stored(w.store, th.r), th.r, rec, h, th, HttpCall(th.handle, th.status, th.body, reply), th.req, th.handle, w.published, w.issued);
    ResumeHTTPPuts(w, t, reply);
    PutJourneys(w, DoResumeHTTP(w, t, reply), t, AfterSdk(th.r, th.req, th.handle, reply), rec, Log(h, HttpCall(th.handle, th.status, th.body, reply)));
  }

  lemma UpstreamSession(cfg: Config, now: int, stored: bool, r: Ref, rec: Record, h: Hist, th: Thread, response: Option<(int, Bytes)>,
                        published: set<string>, issued: map<string, Ref>)
    requires SessionOk(cfg, now, stored, r, rec, h, Some(th), published, issued)
    requires th.r == r && th.Planned? && th.plan.Effect?
    ensures SessionOk(cfg, now, stored, r, rec, h,
                      Some(AfterNet(th, response)), published, issued)
  {
  }

  lemma UpstreamJourneys(w: World, t: Tid, response: Option<(int, Bytes)>)
    requires Journeys(w) && t in w.threads && w.threads[t].Planned? && w.threads[t].plan.Effect?
    ensures Journeys(DoUpstream(w, t, response))
  {
    var th := w.threads[t];
    var rec, h := w.store.heap[th.r], w.hist[th.r];
    assert SessionAt(w, th.r) && ThreadAt(w, t);
    UpstreamSession(w.cfg, w.now, Stored(w.store, th.r), th.r, rec, h, th, response, w.published, w.issued);
    UpstreamPuts(w, t, response);
    PutJourneys(w, DoUpstream(w, t, response), t, AfterNet(th, response), rec, h);
  }

  // --- Writes of the active call ---------------------------------------------------

  lemma KeepHandleSession(cfg: Config, now: int, stored: bool, r: Ref, rec: Record, h: Hist, th: Thread,
                          published: set<string>, issued: map<string, Ref>)
    requires SessionOk(cfg, now, stored, r, rec, h, Some(th), published, issued)
    requires th.r == r && th.Got?
    ensures SessionOk(cfg, now, stored, r, WithHandle(rec, th.res.handle), h,
                      Some(Planned(th.r, th.req, th.res.handle, Decide(cfg, th.res))), published, issued)
  {
  }

  lemma KeepHandleJourneys(w: World, t: Tid)
    requires Journeys(w) && t in w.threads && w.threads[t].Got?
    ensures Journeys(DoKeepHandle(w, t))
  {
    var th := w.threads[t];
    var rec, h := w.store.heap[th.r], w.hist[th.r];
    assert SessionAt(w, th.r) && ThreadAt(w, t);
    KeepHandleSession(w.cfg, w.now, Stored(w.store, th.r), th.r, rec, h, th, w.published, w.issued);
    KeepHandlePuts(w, t);
    PutJourneys(w, DoKeepHandle(w, t), t, Planned(th.r, th.req, th.res.handle, Decide(w.cfg, th.res)), WithHandle(rec, th.res.handle), h);
  }

  lemma BegunSession(cfg: Config, now: int, stored: bool, r: Ref, rec: Record, h: Hist, th: Thread,
                     published: set<string>, issued: map<string, Ref>)
    requires SessionOk(cfg, now, stored, r, rec, h, Some(th), published, issued)
    requires th.r == r && th.Created?
    ensures SessionOk(cfg, now, stored, r, Reopened(WithHandle(rec, th.handle)), h,
                      Some(Begun(th.r, th.url, th.state)), published, issued)
  {
  }

  lemma BegunJourneys(w: World, t: Tid)
    requires Journeys(w) && t in w.threads && w.threads[t].Created?
    ensures Journeys(DoBegun(w, t))
  {
    var th := w.threads[t];
    var rec, h := w.store.heap[th.r], w.hist[th.r];
    assert SessionAt(w, th.r) && ThreadAt(w, t);
    BegunSession(w.cfg, w.now, Stored(w.store, th.r), th.r, rec, h, th, w.published, w.issued);
    BegunPuts(w, t);
    PutJourneys(w, DoBegun(w, t), t, Begun(th.r, th.url, th.state), Reopened(WithHandle(rec, th.handle)), h);
  }

  lemma ReopenSession(cfg: Config, now: int, stored: bool, r: Ref, rec: Record, h: Hist, th: Thread,
                      published: set<string>, issued: map<string, Ref>)
    requires SessionOk(cfg, now, stored, r, rec, h, Some(th), published, issued)
    requires th.r == r && th.Indexed?
    ensures SessionOk(cfg, now, stored, r, Reopened(rec), h,
                      Some(Driven(th.r, th.req, Outcome(Some(Authorizing), cfg.rewrite(th.url), "", None), true, Some(th.state))), published, issued)
  {
  }

  lemma ReopenJourneys(w: World, t: Tid)
    requires Journeys(w) && t in w.threads && w.threads[t].Indexed?
    ensures Journeys(DoReopen(w, t))
  {
    var th := w.threads[t];
    var rec, h := w.store.heap[th.r], w.hist[th.r];
    assert SessionAt(w, th.r) && ThreadAt(w, t);
    ReopenSession(w.cfg, w.now, Stored(w.store, th.r), th.r, rec, h, th, w.published, w.issued);
    ReopenPuts(w, t);
    PutJourneys(w, DoReopen(w, t), t, Driven(th.r, th.req, Outcome(Some(Authorizing), w.cfg.rewrite(th.url), "", None), true, Some(th.state)), Reopened(rec), h);
  }

  lemma SettleSession(cfg: Config, now: int, stored: bool, r: Ref, rec: Record, h: Hist, th: Thread,
                      published: set<string>, issued: map<string, Ref>)
    requires SessionOk(cfg, now, stored, r, rec, h, Some(th), published, issued)
    requires th.r == r && th.Planned? && (th.plan.Finish? || th.plan.Fail?)
    ensures SessionOk(cfg, now, stored, r, Settled(rec, th.plan), h.(settled := Some(SettlementOf(th.plan))),
                      Some(Finalizing(th.r, th.req, EndOutcome(th.plan))), published, issued)
  {
    match LastReply(h.calls)
    case SdkError =>
    case Stepped(res) => DecideIsSound(cfg, res);
  }

  lemma SettleJourneys(w: World, t: Tid)
    requires Journeys(w) && t in w.threads && w.threads[t].Planned? && (w.threads[t].plan.Finish? || w.threads[t].plan.Fail?)
    ensures Journeys(DoSettle(w, t))
  {
    var th := w.threads[t];
    var rec, h := w.store.heap[th.r], w.hist[th.r];
    assert SessionAt(w, th.r) && ThreadAt(w, t);
    SettleSession(w.cfg, w.now, Stored(w.store, th.r), th.r, rec, h, th, w.published, w.issued);
    SettlePuts(w, t);
    PutJourneys(w, DoSettle(w, t), t, Finalizing(th.r, th.req, EndOutcome(th.plan)), Settled(rec, th.plan), h.(settled := Some(SettlementOf(th.plan))));
  }

  lemma FinalizeSession(cfg: Config, now: int, stored: bool, r: Ref, rec: Record, h: Hist, th: Thread,
                        published: set<string>, issued: map<string, Ref>)
    requires SessionOk(cfg, now, stored, r, rec, h, Some(th), published, issued)
    requires th.r == r && th.Finalizing?
    ensures SessionOk(cfg, now, stored, r, rec.(oauthState := "", handle := [], resuming := false), h.(releases := h.releases + 1),
                      Some(Driven(th.r, th.req, th.outcome, true, None)), published, issued)
  {
  }

  lemma FinalizeJourneys(w: World, t: Tid)
    requires Journeys(w) && t in w.threads && w.threads[t].Finalizing?
    ensures Journeys(DoFinalize(w, t))
  {
    var th := w.threads[t];
    var rec, h := w.store.heap[th.r], w.hist[th.r];
    assert SessionAt(w, th.r) && ThreadAt(w, t);
    FinalizeSession(w.cfg, w.now, Stored(w.store, th.r), th.r, rec, h, th, w.published, w.issued);
    FinalizePuts(w, t);
    PutJourneys(w, DoFinalize(w, t), t, Driven(th.r, th.req, th.outcome, true, None), rec.(oauthState := "", handle := [], resuming := false), h.(releases := h.releases + 1));
  }

  lemma IndexSession(cfg: Config, now: int, stored: bool, r: Ref, rec: Record, h: Hist, th: Thread,
                     published: set<string>, issued: map<string, Ref>)
    requires SessionOk(cfg, now, stored, r, rec, h, Some(th), published, issued)
    requires th.r == r && th.Planned? && th.plan.Index?
    ensures SessionOk(cfg, now, stored, r, rec.(oauthState := th.plan.state, resuming := false), h.(releases := h.releases + 1),
                      Some(Indexed(th.r, th.req, th.plan.url, th.plan.state)), published, issued)
  {
  }

  lemma IndexJourneys(w: World, t: Tid)
    requires Journeys(w) && t in w.threads && w.threads[t].Planned? && w.threads[t].plan.Index?
    ensures Journeys(DoIndex(w, t))
  {
    var th := w.threads[t];
    var rec, h := w.store.heap[th.r], w.hist[th.r];
    assert SessionAt(w, th.r) && ThreadAt(w, t);
    IndexSession(w.cfg, w.now, Stored(w.store, th.r), th.r, rec, h, th, w.published, w.issued);
    IndexPuts(w, t);
    PutJourneys(w, DoIndex(w, t), t, Indexed(th.r, th.req, th.plan.url, th.plan.state), rec.(oauthState := th.plan.state, resuming := false), h.(releases := h.releases + 1));
  }
}
