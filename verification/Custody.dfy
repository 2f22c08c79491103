/**
 The store and its two indexes under H1 and H2 alone: whatever callbacks arrive and however claims
 race, names stay apart, the indexes agree, and eviction never meets a claim.
 */
module Custody {
  import opened Basics
  import opened Steps
  import opened SessionStore
  import opened HttpApi
  import opened Protocol
  import opened Executions
  import opened Effects
  import opened Ledger

  ghost predicate IssuedTo(issued: map<string, Ref>, state: string, r: Ref) {
    state in issued && issued[state] == r
  }

  ghost predicate NamesOk(w: World) {
    && (forall r | r in w.hist :: w.hist[r].id != "" && w.hist[r].id in w.ids && w.ids[w.hist[r].id] == r)
    && w.published <= w.issued.Keys
  }

  /** The state a call has been given by the SDK and has not yet handed out. */
  ghost function Carries(cfg: Config, th: Thread): Option<string> {
    match th
    case Starting(_, _, _, _, _, state) => Some(state)
    case Created(_, _, _, state) => Some(state)
    case Begun(_, _, state) => Some(state)
    case Got(_, _, res) => Emits(cfg, Stepped(res))
    case Planned(_, _, _, plan) => if plan.Index? then Some(plan.state) else None
    case Indexed(_, _, _, state) => Some(state)
    case Driven(_, _, _, _, issues) => issues
    case Answered(_, _, _, _, issues) => issues
    case _ => None
  }

  /** A failed outcome without an error has a reason. */
  predicate Reportable(outcome: Outcome) {
    outcome.error.Some? || (outcome.status.Some? && (outcome.status == Some(Failed) ==> outcome.reason != ""))
  }

  predicate SoundThread(th: Thread) {
    match th
    case Planned(_, _, _, plan) => plan.Fail? ==> Reportable(plan.outcome)
    case Finalizing(_, _, outcome) => Reportable(outcome)
    case Driven(_, _, outcome, _, _) => Reportable(outcome)
    case _ => true
  }

  /** Thread `t` has indexed `state` for the session and its status write is still to come. */
  ghost predicate BetweenWrites(w: World, r: Ref, t: Tid, state: string) {
    t in w.threads && w.threads[t].Indexed? && w.threads[t].r == r && w.threads[t].state == state
  }

  ghost predicate Kept(w: World, r: Ref)
    requires r in w.store.heap && r in w.hist
  {
    var rec := w.store.heap[r];
    && rec.correlationID == w.hist[r].id
    && rec.expiresAt == rec.createdAt + w.cfg.ttl
    && (rec.oauthState != "" ==> IssuedTo(w.issued, rec.oauthState, r))
    && (!Stored(w.store, r) ==> PastGrace(rec, w.now) && !rec.resuming)
    && (rec.oauthState != "" && rec.status.Terminal() ==>
          PastDeadline(rec, w.now) && exists t :: BetweenWrites(w, r, t, rec.oauthState))
  }

  ghost predicate Carried(w: World, t: Tid)
    requires t in w.threads
  {
    var th := w.threads[t];
    && (Carries(w.cfg, th).Some? ==> IssuedTo(w.issued, Carries(w.cfg, th).value, th.r) && Carries(w.cfg, th).value !in w.published)
    && (Holds(th) && !th.Finalizing? && th.r in w.store.heap && w.store.heap[th.r].status.Terminal() ==>
          PastDeadline(w.store.heap[th.r], w.now))
    && SoundThread(th)
  }

  /** No two calls carry the same state. */
  ghost predicate CarriedOnce(w: World) {
    forall t, u | t in w.threads && u in w.threads && Carries(w.cfg, w.threads[t]).Some?
      && Carries(w.cfg, w.threads[t]) == Carries(w.cfg, w.threads[u]) :: t == u
  }

  ghost predicate Orderly(w: World) {
    && Accounted(w)
    && Consistent(w.store)
    && NamesOk(w)
    && CarriedOnce(w)
    && (forall r {:trigger Kept(w, r)} | r in w.store.heap :: Kept(w, r))
    && (forall t {:trigger Carried(w, t)} | t in w.threads :: Carried(w, t))
  }

  // --- Steps that touch one session and one thread ------------------------------------

  /** What the thread's step may do to what it carries and to the session's status. */
  ghost predicate Moves(w: World, w': World, r: Ref, t: Tid)
    requires r in w.store.heap && r in w'.store.heap && r in w.hist && r in w'.hist
  {
    && w'.hist[r].id == w.hist[r].id
    && w'.store.heap[r].expiresAt == w.store.heap[r].expiresAt
    && (w'.store.heap[r].status.Terminal() ==>
          w.store.heap[r].status.Terminal() || PastDeadline(w'.store.heap[r], w'.now) || Holder(w', r, t))
    && (t in w'.threads && Carries(w'.cfg, w'.threads[t]).Some? ==>
          || (t in w.threads && Carries(w.cfg, w.threads[t]) == Carries(w'.cfg, w'.threads[t]))
          || Carries(w'.cfg, w'.threads[t]).value !in w.issued)
  }

  /** A session whose record has not changed is still kept, if it has not left the store too early and
      the thread between the two writes, if any, is still there. */
  lemma KeptLater(w: World, w': World, r: Ref)
    requires r in w.store.heap && r in w.hist && Kept(w, r)
    requires r in w'.store.heap && r in w'.hist && w'.store.heap[r] == w.store.heap[r] && w'.hist[r].id == w.hist[r].id
    requires w'.cfg == w.cfg && w.now <= w'.now && Grows(w.issued, w'.issued)
    requires Stored(w.store, r) && !Stored(w'.store, r) ==> Evictable(w.store.heap[r], w'.now)
    requires forall u :: BetweenWrites(w, r, u, w.store.heap[r].oauthState) ==> BetweenWrites(w', r, u, w.store.heap[r].oauthState)
    ensures Kept(w', r)
  {
  }

  lemma OthersKept(w: World, w': World, r: Ref, t: Tid, r': Ref)
    requires Orderly(w) && Local(w, w', r, t) && r' in w.store.heap && r' != r && r' in w'.hist
    requires t in w.threads ==> w.threads[t].r == r
    ensures Kept(w', r')
  {
    assert Kept(w, r');
        KeptLater(w, w', r');
  }

  lemma OthersCarried(w: World, w': World, r: Ref, t: Tid, u: Tid)
    requires Orderly(w) && Accounted(w') && Local(w, w', r, t) && u in w'.threads && u != t
    requires r in w.store.heap && r in w.hist && Moves(w, w', r, t)
    ensures Carried(w', u)
  {
    assert Carried(w, u);
    if w'.threads[u].r == r && Holds(w'.threads[u]) {
      assert Holder(w', r, u);
      assert Balanced(w', r);
    }
  }

  lemma StillCarriedOnce(w: World, w': World, r: Ref, t: Tid)
    requires Orderly(w) && Local(w, w', r, t) && r in w.store.heap && r in w.hist && Moves(w, w', r, t)
    ensures CarriedOnce(w')
  {
    forall u | u in w.threads && Carries(w.cfg, w.threads[u]).Some? ensures Carries(w.cfg, w.threads[u]).value in w.issued {
      assert Carried(w, u);
    }
  }

  lemma NamesStay(w: World, w': World, r: Ref, t: Tid)
    requires NamesOk(w) && Local(w, w', r, t) && r in w.hist && r in w'.hist && w'.hist[r].id == w.hist[r].id
    ensures NamesOk(w')
  {
  }

  lemma LocalCustody(w: World, w': World, r: Ref, t: Tid)
    requires Orderly(w) && Accounted(w') && Local(w, w', r, t) && Consistent(w'.store)
    requires r in w.store.heap && r in w.hist && Moves(w, w', r, t)
    requires t in w.threads ==> w.threads[t].r == r
    requires Kept(w', r)
    requires t in w'.threads ==> Carried(w', t)
    ensures Orderly(w')
  {
    NamesStay(w, w', r, t);
    StillCarriedOnce(w, w', r, t);
    forall r' | r' in w'.store.heap ensures Kept(w', r') {
      if r' != r { OthersKept(w, w', r, t, r'); }
    }
    forall u | u in w'.threads ensures Carried(w', u) {
      if u != t { OthersCarried(w, w', r, t, u); }
    }
  }

  // --- Expiry --------------------------------------------------------------------------

  lemma ExpiredCustody(w: World, r: Ref)
    requires Orderly(w) && r in w.store.heap
    ensures Orderly(Expired(w, r))
  {
    var w' := Expired(w, r);
    if Due(w.store.heap[r], w.now) {
      ExpiredAccounted(w, r);
      ExpireConsistent(w.store, r, w.now);
      forall r' | r' in w'.store.heap ensures Kept(w', r') {
        ExpiredKept(w, r, r');
      }
      forall u | u in w'.threads ensures Carried(w', u) {
        assert Carried(w, u);
      }
    }
  }

  lemma ExpiredKept(w: World, r: Ref, r': Ref)
    requires Orderly(w) && r in w.store.heap && r' in w.store.heap && Due(w.store.heap[r], w.now)
    ensures Kept(Expired(w, r), r')
  {
    assert Kept(w, r');
    if r' != r {
      KeptLater(w, Expired(w, r), r');
    }
  }

  lemma PollCustody(w: World, id: string, what: Observation)
    requires Orderly(w)
    ensures Orderly(DoPoll(w, id, what).0)
  {
    if id in w.store.byID {
      ExpiredCustody(w, w.store.byID[id]);
    }
  }

  lemma LookedUpCustody(w: World, state: string)
    requires Orderly(w)
    ensures Orderly(AfterLookup(w, state))
  {
    if state in w.store.byState && w.store.byState[state] != "" && w.store.byState[state] in w.store.byID {
      ExpiredCustody(w, w.store.byID[w.store.byState[state]]);
    }
  }

  /** Changing only thread `t`, which carries nothing new. */
  lemma ThreadCustody(w: World, w': World, r: Ref, t: Tid)
    requires Orderly(w) && Accounted(w') && w' == w.(threads := w'.threads)
    requires Touches(w, w', r, t) && r in w.store.heap
    requires t in w.threads ==> w.threads[t].r == r && !w.threads[t].Indexed?
    requires t in w'.threads ==>
               && w'.threads[t].r == r && SoundThread(w'.threads[t]) && !Holds(w'.threads[t])
               && (Carries(w.cfg, w'.threads[t]).Some? ==> t in w.threads && Carries(w.cfg, w.threads[t]) == Carries(w.cfg, w'.threads[t]))
    ensures Orderly(w')
  {
    assert Kept(w, r);
    assert t in w.threads ==> Carried(w, t);
    KeptLater(w, w', r);
    LocalCustody(w, w', r, t);
  }

  lemma LookupCustody(w: World, t: Tid, req: Request)
    requires Orderly(w) && t !in w.threads
    ensures Orderly(DoLookup(w, t, req).0)
  {
    if Valid(req) {
      LookedUpCustody(w, req.state);
      LookedUpAccounted(w, req.state);
      LookupAccounted(w, t, req);
      if GetByState(w.store, req.state, w.now).1.Some? {
        LookupTouches(w, t, req);
        ThreadCustody(AfterLookup(w, req.state), DoLookup(w, t, req).0, GetByState(w.store, req.state, w.now).1.value, t);
      }
    }
  }

  lemma ViewCustody(w: World, t: Tid)
    requires Orderly(w) && t in w.threads && w.threads[t].Driven?
    ensures Orderly(DoView(w, t))
  {
    var id := w.store.heap[w.threads[t].r].correlationID;
    if id in w.store.byID {
      ExpiredCustody(w, w.store.byID[id]);
    }
    ViewAccounted(w, t);
    ViewTouches(w, t);
    ThreadCustody(Viewed(w, t), DoView(w, t), w.threads[t].r, t);
  }

  // --- Claim -----------------------------------------------------------------------------

  /** What the thread's step must show of the record, the history and the thread it leaves. */
  ghost predicate FitsIn(w: World, issued: map<string, Ref>, t: Tid, th: Thread, rec: Record, h: Hist)
    requires t in w.threads && th.r in w.store.heap && th.r in w.hist
  {
    var was := w.store.heap[th.r];
    && th.r == w.threads[t].r && h.id == w.hist[th.r].id
    && rec.correlationID == was.correlationID && rec.createdAt == was.createdAt && rec.expiresAt == was.expiresAt
    && (rec.oauthState != "" ==>
          && IssuedTo(issued, rec.oauthState, th.r)
          && (rec.status.Terminal() ==> PastDeadline(rec, w.now) && th.Indexed? && th.state == rec.oauthState))
    && (rec.resuming ==> Stored(w.store, th.r))
    && (rec.status.Terminal() ==> was.status.Terminal() || PastDeadline(rec, w.now) || Holds(th))
    && (Holds(th) && !th.Finalizing? && rec.status.Terminal() ==> PastDeadline(rec, w.now))
    && SoundThread(th)
    && (Carries(w.cfg, th).Some? ==>
          var x := Carries(w.cfg, th).value;
          && IssuedTo(issued, x, th.r) && x !in w.published
          && (Carries(w.cfg, w.threads[t]) == Some(x) || x !in w.issued))
  }

  lemma PutKept(w: World, w': World, t: Tid, th: Thread, rec: Record, h: Hist)
    requires t in w.threads && th.r in w.store.heap && th.r in w.hist && Kept(w, th.r)
    requires Puts(w, w', t, th, rec, h) && FitsIn(w, w'.issued, t, th, rec, h)
    ensures Kept(w', th.r) && Carried(w', t) && Moves(w, w', th.r, t)
  {
    assert Stored(w'.store, th.r) == Stored(w.store, th.r);
    if rec.oauthState != "" && rec.status.Terminal() {
      assert BetweenWrites(w', th.r, t, rec.oauthState);
    }
    assert Holds(th) ==> Holder(w', th.r, t);
  }

  lemma PutCustody(w: World, w': World, t: Tid, th: Thread, rec: Record, h: Hist)
    requires Orderly(w) && Accounted(w') && Consistent(w'.store) && Grows(w.issued, w'.issued)
    requires t in w.threads && th.r in w.store.heap && th.r in w.hist
    requires Puts(w, w', t, th, rec, h) && FitsIn(w, w'.issued, t, th, rec, h)
    ensures Orderly(w')
  {
    assert Kept(w, th.r);
    PutKept(w, w', t, th, rec, h);
    PutLocal(w, w', t, th, rec, h);
    LocalCustody(w, w', th.r, t);
  }

  lemma ClaimCustody(w: World, t: Tid)
    requires Orderly(w) && t in w.threads && w.threads[t].Found?
    ensures Orderly(DoClaim(w, t))
  {
    ClaimAccounted(w, t);
    if Consume(w.store, w.threads[t].r, w.now).1.Ok? {
      ClaimedCustody(w, t);
    } else {
      RefusedCustody(w, t);
    }
  }

  lemma RefusedCustody(w: World, t: Tid)
    requires Orderly(w) && t in w.threads && w.threads[t].Found? && Consume(w.store, w.threads[t].r, w.now).1.Err?
    requires Accounted(DoClaim(w, t))
    ensures Orderly(DoClaim(w, t))
  {
    ExpiredCustody(w, w.threads[t].r);
    RefusedPuts(w, t);
    ThreadCustody(Expired(w, w.threads[t].r), DoClaim(w, t), w.threads[t].r, t);
  }

  lemma ClaimedCustody(w: World, t: Tid)
    requires Orderly(w) && t in w.threads && w.threads[t].Found? && Consume(w.store, w.threads[t].r, w.now).1.Ok?
    requires Accounted(DoClaim(w, t))
    ensures Orderly(DoClaim(w, t))
  {
    var th := w.threads[t];
    var rec, h := w.store.heap[th.r], w.hist[th.r];
    assert Kept(w, th.r);
    ConsumeConsistent(w.store, th.r, w.now);
    ClaimPuts(w, t);
    PutCustody(w, DoClaim(w, t), t, Claimed(th.r, th.req, rec.handle), rec.(resuming := true, oauthState := ""),
               h.(owner := Some(t), claims := h.claims + 1));
  }

  // --- The call between claim and release --------------------------------------------------

  /** What custody says of a session and the thread that holds it. */
  ghost predicate Holding(w: World, t: Tid)
    requires t in w.threads
  {
    var r := w.threads[t].r;
    && Linked(w) && r in w.store.heap && r in w.hist && Holds(w.threads[t])
    && Kept(w, r) && Carried(w, t)
    && w.store.heap[r].resuming && w.store.heap[r].oauthState == "" && Stored(w.store, r)
    && w.published <= w.issued.Keys
  }

  lemma HolderIsHolding(w: World, t: Tid)
    requires Orderly(w) && t in w.threads && Holds(w.threads[t])
    ensures Holding(w, t)
  {
    var r := w.threads[t].r;
    assert Holder(w, r, t) && Balanced(w, r);
    assert Kept(w, r) && Carried(w, t);
  }

  /** A session whose record is unchanged is kept, if the thread was not between the two writes. */
  lemma KeptAsIs(w: World, w': World, r: Ref, t: Tid)
    requires Orderly(w) && Local(w, w', r, t) && r in w.store.heap && r in w'.hist && w'.store.heap[r] == w.store.heap[r]
    requires w'.hist[r].id == w.hist[r].id
    requires t in w.threads && !w.threads[t].Indexed?
    ensures Kept(w', r)
  {
    assert Kept(w, r);
      KeptLater(w, w', r);
  }

  /** The thread has been told the SDK's reply; its state, if any, is new and now on record. */
  lemma SdkFits(w: World, t: Tid, reply: SdkReply, h: Hist)
    requires t in w.threads && Holding(w, t) && (w.threads[t].Claimed? || w.threads[t].Responded?) && FreshState(w, reply)
    requires h.id == w.hist[w.threads[t].r].id
    ensures var th := w.threads[t];
            && Grows(w.issued, Emit(w, th.r, reply))
            && FitsIn(w, Emit(w, th.r, reply), t, AfterSdk(th.r, th.req, th.handle, reply), w.store.heap[th.r], h)
  {
    var th := w.threads[t];
    assert Carries(w.cfg, AfterSdk(th.r, th.req, th.handle, reply)) == Emits(w.cfg, reply);
  }

  lemma ResumeCustody(w: World, t: Tid, reply: SdkReply)
    requires Orderly(w) && t in w.threads && w.threads[t].Claimed?
    requires FreshState(w, reply)
    ensures Orderly(DoResume(w, t, reply))
  {
    var th := w.threads[t];
    var rec, h := w.store.heap[th.r], w.hist[th.r];
    HolderIsHolding(w, t);
    ResumeAccounted(w, t, reply);
    ResumePuts(w, t, reply);
    SdkFits(w, t, reply, Log(h, ReturnCall(th, reply)));
    PutCustody(w, DoResume(w, t, reply), t, AfterSdk(th.r, th.req, th.handle, reply), rec, Log(h, ReturnCall(th, reply)));
  }

  lemma ResumeHTTPCustody(w: World, t: Tid, reply: SdkReply)
    requires Orderly(w) && t in w.threads && w.threads[t].Responded?
    requires FreshState(w, reply)
    ensures Orderly(DoResumeHTTP(w, t, reply))
  {
    var th := w.threads[t];
    var rec, h := w.store.heap[th.r], w.hist[th.r];
    HolderIsHolding(w, t);
    ResumeHTTPAccounted(w, t, reply);
    ResumeHTTPPuts(w, t, reply);
    SdkFits(w, t, reply, Log(h, HttpCall(th.handle, th.status, th.body, reply)));
    PutCustody(w, DoResumeHTTP(w, t, reply), t, AfterSdk(th.r, th.req, th.handle, reply), rec, Log(h, HttpCall(th.handle, th.status, th.body, reply)));
  }

  lemma UpstreamCustody(w: World, t: Tid, response: Option<(int, Bytes)>)
    requires Orderly(w) && t in w.threads && w.threads[t].Planned? && w.threads[t].plan.Effect?
    ensures Orderly(DoUpstream(w, t, response))
  {
    var th := w.threads[t];
    var rec, h := w.store.heap[th.r], w.hist[th.r];
    HolderIsHolding(w, t);
    UpstreamAccounted(w, t, response);
    UpstreamPuts(w, t, response);
    PutCustody(w, DoUpstream(w, t, response), t, AfterNet(th, response), rec, h);
  }

  lemma KeepHandleCustody(w: World, t: Tid)
    requires Orderly(w) && t in w.threads && w.threads[t].Got?
    ensures Orderly(DoKeepHandle(w, t))
  {
    var th := w.threads[t];
    var rec, h := w.store.heap[th.r], w.hist[th.r];
    HolderIsHolding(w, t);
    KeepHandleAccounted(w, t);
    WriteConsistent(w.store, th.r, WithHandle(rec, th.res.handle));
    KeepHandlePuts(w, t);
    KeepHandleFits(w, t);
    PutCustody(w, DoKeepHandle(w, t), t, Planned(th.r, th.req, th.res.handle, Decide(w.cfg, th.res)), WithHandle(rec, th.res.handle), h);
  }

  lemma KeepHandleFits(w: World, t: Tid)
    requires t in w.threads && w.threads[t].Got? && Holding(w, t)
    ensures var th := w.threads[t];
            FitsIn(w, w.issued, t, Planned(th.r, th.req, th.res.handle, Decide(w.cfg, th.res)),
                   WithHandle(w.store.heap[th.r], th.res.handle), w.hist[th.r])
  {
    DecideIsSound(w.cfg, w.threads[t].res);
  }

  lemma BegunCustody(w: World, t: Tid)
    requires Orderly(w) && t in w.threads && w.threads[t].Created?
    ensures Orderly(DoBegun(w, t))
  {
    var th := w.threads[t];
    var rec, h := w.store.heap[th.r], w.hist[th.r];
    assert Kept(w, th.r) && Carried(w, t);
    BegunAccounted(w, t);
    WriteConsistent(w.store, th.r, Reopened(WithHandle(rec, th.handle)));
    BegunPuts(w, t);
    PutCustody(w, DoBegun(w, t), t, Begun(th.r, th.url, th.state), Reopened(WithHandle(rec, th.handle)), h);
  }

  lemma ReopenCustody(w: World, t: Tid)
    requires Orderly(w) && t in w.threads && w.threads[t].Indexed?
    ensures Orderly(DoReopen(w, t))
  {
    var th := w.threads[t];
    var rec, h := w.store.heap[th.r], w.hist[th.r];
    assert Kept(w, th.r) && Carried(w, t);
    ReopenAccounted(w, t);
    WriteConsistent(w.store, th.r, Reopened(rec));
    ReopenPuts(w, t);
    PutCustody(w, DoReopen(w, t), t, Driven(th.r, th.req, Outcome(Some(Authorizing), w.cfg.rewrite(th.url), "", None), true, Some(th.state)), Reopened(rec), h);
  }

  lemma SettleCustody(w: World, t: Tid)
    requires Orderly(w) && t in w.threads && w.threads[t].Planned? && (w.threads[t].plan.Finish? || w.threads[t].plan.Fail?)
    ensures Orderly(DoSettle(w, t))
  {
    var th := w.threads[t];
    var rec, h := w.store.heap[th.r], w.hist[th.r];
    HolderIsHolding(w, t);
    SettleAccounted(w, t);
    WriteConsistent(w.store, th.r, Settled(rec, th.plan));
    SettlePuts(w, t);
    PutCustody(w, DoSettle(w, t), t, Finalizing(th.r, th.req, EndOutcome(th.plan)), Settled(rec, th.plan), h.(settled := Some(SettlementOf(th.plan))));
  }

  lemma FinalizeFits(w: World, t: Tid)
    requires t in w.threads && w.threads[t].Finalizing? && Holding(w, t)
    ensures var th, rec, h := w.threads[t], w.store.heap[w.threads[t].r], w.hist[w.threads[t].r];
            FitsIn(w, w.issued, t, Driven(th.r, th.req, th.outcome, true, None),
                   rec.(oauthState := "", handle := [], resuming := false), h.(releases := h.releases + 1))
  {
  }

  lemma FinalizeCustody(w: World, t: Tid)
    requires Orderly(w) && t in w.threads && w.threads[t].Finalizing?
    ensures Orderly(DoFinalize(w, t))
  {
    var th := w.threads[t];
    var rec, h := w.store.heap[th.r], w.hist[th.r];
    HolderIsHolding(w, t);
    FinalizeAccounted(w, t);
    FinalizeConsistent(w.store, th.r);
    FinalizePuts(w, t);
    FinalizeFits(w, t);
    PutCustody(w, DoFinalize(w, t), t, Driven(th.r, th.req, th.outcome, true, None), rec.(oauthState := "", handle := [], resuming := false), h.(releases := h.releases + 1));
  }

  /** A call about to index a state holds a stored session, and no other session has the state. */
  lemma IndexIsSafe(w: World, t: Tid)
    requires Orderly(w) && t in w.threads && w.threads[t].Planned? && w.threads[t].plan.Index?
    ensures var th := w.threads[t];
            && Stored(w.store, th.r) && w.store.heap[th.r].resuming && w.store.heap[th.r].oauthState == ""
            && IssuedTo(w.issued, th.plan.state, th.r)
            && forall r' | r' in w.store.heap && r' != th.r :: w.store.heap[r'].oauthState == th.plan.state ==> th.plan.state == ""
  {
    var r := w.threads[t].r;
    assert Kept(w, r) && Carried(w, t);
    assert Holder(w, r, t) && Balanced(w, r);
    forall r' | r' in w.store.heap && r' != r && w.store.heap[r'].oauthState != ""
      ensures w.store.heap[r'].oauthState != w.threads[t].plan.state
    {
      assert Kept(w, r');
    }
  }

  lemma IndexConsistent(w: World, t: Tid)
    requires Orderly(w) && t in w.threads && w.threads[t].Planned? && w.threads[t].plan.Index?
    ensures Consistent(DoIndex(w, t).store)
  {
    var th := w.threads[t];
    IndexIsSafe(w, t);
    assert forall r' | r' in w.store.heap && r' != th.r :: w.store.heap[r'].oauthState == th.plan.state ==> th.plan.state == "";
    SetStateConsistent(w.store, th.r, th.plan.state);
  }

  lemma IndexFits(w: World, t: Tid)
    requires t in w.threads && w.threads[t].Planned? && w.threads[t].plan.Index? && Holding(w, t)
    ensures var th, rec, h := w.threads[t], w.store.heap[w.threads[t].r], w.hist[w.threads[t].r];
            FitsIn(w, w.issued, t, Indexed(th.r, th.req, th.plan.url, th.plan.state),
                   rec.(oauthState := th.plan.state, resuming := false), h.(releases := h.releases + 1))
  {
  }

  lemma IndexCustody(w: World, t: Tid)
    requires Orderly(w) && t in w.threads && w.threads[t].Planned? && w.threads[t].plan.Index?
    ensures Orderly(DoIndex(w, t))
  {
    var th := w.threads[t];
    var rec, h := w.store.heap[th.r], w.hist[th.r];
    HolderIsHolding(w, t);
    IndexAccounted(w, t);
    IndexConsistent(w, t);
    IndexPuts(w, t);
    IndexFits(w, t);
    PutCustody(w, DoIndex(w, t), t, Indexed(th.r, th.req, th.plan.url, th.plan.state), rec.(oauthState := th.plan.state, resuming := false), h.(releases := h.releases + 1));
  }

  // --- Return, start, new ---------------------------------------------------------------------

  lemma ReturnCustody(w: World, t: Tid)
    requires Orderly(w) && t in w.threads && (w.threads[t].Begun? || w.threads[t].Answered?)
    ensures Orderly(DoReturn(w, t).0)
  {
    var w' := DoReturn(w, t).0;
    var w1 := w'.(published := w.published);
    LeaveCustody(w, t);
    ReturnTouches(w, t);
    ReturnHandsOut(w, t);
    assert Carried(w, t);
    forall u | u in w1.threads && Carries(w1.cfg, w1.threads[u]).Some? ensures Carries(w1.cfg, w1.threads[u]).value !in w'.published {
      assert Carried(w1, u);
      assert u in w.threads && w1.threads[u] == w.threads[u] && u != t;
    }
    HandOutCustody(w1, w');
  }

  /** Handing out a state no remaining call carries. */
  lemma HandOutCustody(w: World, w': World)
    requires Orderly(w) && w' == w.(published := w'.published) && w'.published <= w.issued.Keys
    requires forall u | u in w.threads && Carries(w.cfg, w.threads[u]).Some? :: Carries(w.cfg, w.threads[u]).value !in w'.published
    ensures Orderly(w')
  {
    forall r | r in w'.store.heap ensures Kept(w', r) {
      assert Kept(w, r);
      KeptLater(w, w', r);
    }
    forall u | u in w'.threads ensures Carried(w', u) {
      assert Carried(w, u);
    }
    SameBooks(w, w');
  }

  /** The return without the handing out. */
  lemma LeaveCustody(w: World, t: Tid)
    requires Orderly(w) && t in w.threads && (w.threads[t].Begun? || w.threads[t].Answered?)
    ensures Orderly(DoReturn(w, t).0.(published := w.published))
  {
    var r := w.threads[t].r;
    var w1 := DoReturn(w, t).0.(published := w.published);
    ReturnAccounted(w, t);
    SameBooks(DoReturn(w, t).0, w1);
    ReturnTouches(w, t);
    KeptAsIs(w, w1, r, t);
    LocalCustody(w, w1, r, t);
  }

  predicate HandsOut(th: Thread) {
    th.Begun? || (th.Answered? && th.entered)
  }

  lemma ReturnHandsOut(w: World, t: Tid)
    requires Linked(w) && t in w.threads && (w.threads[t].Begun? || w.threads[t].Answered?)
    ensures DoReturn(w, t).0.published
            == w.published + (if Carries(w.cfg, w.threads[t]).Some? && HandsOut(w.threads[t])
                              then {Carries(w.cfg, w.threads[t]).value} else {})
  {
  }

  lemma StartCustody(w: World, t: Tid, r: Ref, id: string, clientState: string, conformance: string, reply: SdkReply)
    requires Orderly(w) && Enabled(w, Start(t, r, id, clientState, conformance, reply))
    requires FreshNames(w, Start(t, r, id, clientState, conformance, reply))
    ensures Orderly(DoStart(w, t, r, id, clientState, conformance, reply).0)
  {
    if Emits(w.cfg, reply).Some? {
      StartAccounted(w, t, r, id, clientState, conformance, reply);
      BirthCustody(w, DoStart(w, t, r, id, clientState, conformance, reply).0, t, r, id);
    }
  }

  /** A session's history begins, with an id and a state that are new. */
  lemma BirthCustody(w: World, w': World, t: Tid, r: Ref, id: string)
    requires Orderly(w) && Accounted(w') && t !in w.threads && r !in w.hist && id != "" && id !in w.ids
    requires w' == w.(threads := w'.threads, hist := w'.hist, ids := w.ids[id := r], issued := w'.issued)
    requires t in w'.threads && w'.threads[t].Starting? && w'.threads[t].r == r && w'.threads == w.threads[t := w'.threads[t]]
    requires r in w'.hist && w'.hist == w.hist[r := w'.hist[r]] && w'.hist[r].id == id
    requires w'.threads[t].state !in w.issued && w'.issued == w.issued[w'.threads[t].state := r]
    ensures Orderly(w')
  {
    BirthNames(w, w', r, id);
    forall r' | r' in w'.store.heap ensures Kept(w', r') {
      assert Kept(w, r');
      KeptLater(w, w', r');
    }
    forall u | u in w'.threads ensures Carried(w', u) {
      if u != t { assert Carried(w, u); }
    }
    StartCarriedOnce(w, w', t);
  }

  lemma BirthNames(w: World, w': World, r: Ref, id: string)
    requires NamesOk(w) && r !in w.hist && id != "" && id !in w.ids
    requires w'.ids == w.ids[id := r] && w'.published == w.published && w.issued.Keys <= w'.issued.Keys
    requires r in w'.hist && w'.hist == w.hist[r := w'.hist[r]] && w'.hist[r].id == id
    ensures NamesOk(w')
  {
  }

  lemma StartCarriedOnce(w: World, w': World, t: Tid)
    requires Orderly(w) && t !in w.threads && t in w'.threads && w'.cfg == w.cfg
    requires w'.threads == w.threads[t := w'.threads[t]]
    requires Carries(w.cfg, w'.threads[t]).Some? ==> Carries(w.cfg, w'.threads[t]).value !in w.issued
    ensures CarriedOnce(w')
  {
    forall u | u in w.threads && Carries(w.cfg, w.threads[u]).Some? ensures Carries(w.cfg, w.threads[u]).value in w.issued {
      assert Carried(w, u);
    }
  }

  lemma SweptCustody(w: World)
    requires Orderly(w)
    ensures Orderly(Swept(w))
  {
    var w' := Swept(w);
    EvictConsistent(w.store, w.now);
    SweptAccounted(w);
    forall r | r in w'.store.heap ensures Kept(w', r) {
      assert Kept(w, r);
      assert Stored(w.store, r) && !Stored(w'.store, r) ==> Evictable(w.store.heap[r], w.now);
      KeptLater(w, w', r);
    }
    forall u | u in w'.threads ensures Carried(w', u) {
      assert Carried(w, u);
    }
  }

  lemma TickCustody(w: World, reading: int)
    requires Orderly(w) && w.now <= reading
    ensures Orderly(w.(now := reading))
  {
    var w' := w.(now := reading);
    SameBooks(w, w');
    forall r | r in w'.store.heap ensures Kept(w', r) {
      assert Kept(w, r);
      KeptLater(w, w', r);
    }
    forall u | u in w'.threads ensures Carried(w', u) {
      assert Carried(w, u);
    }
  }

  /** An id in the store leads to the session it was issued to. */
  lemma IdIsHome(w: World, id: string)
    requires Orderly(w) && id in w.store.byID
    ensures id in w.ids && w.ids[id] == w.store.byID[id]
  {
    assert Kept(w, w.store.byID[id]);
  }

  /** The id and the state of a session that is about to be stored are unused. */
  lemma BirthIsFresh(w: World, t: Tid)
    requires Orderly(w) && t in w.threads && w.threads[t].Starting?
    ensures var th := w.threads[t];
            && th.r !in w.store.heap && w.hist[th.r].id !in w.store.byID && w.hist[th.r].id != ""
            && forall r' | r' in w.store.heap :: w.store.heap[r'].oauthState == th.state ==> th.state == ""
  {
    var th := w.threads[t];
    var id := w.hist[th.r].id;
    assert Carried(w, t);
    if id in w.store.byID {
      IdIsHome(w, id);
    }
    forall r' | r' in w.store.heap && w.store.heap[r'].oauthState != "" ensures w.store.heap[r'].oauthState != th.state {
      assert Kept(w, r');
    }
  }

  lemma InsertedConsistent(w: World, t: Tid)
    requires Orderly(w) && t in w.threads && w.threads[t].Starting?
    ensures Consistent(Inserted(w, t).store)
  {
    BirthIsFresh(w, t);
    var th := w.threads[t];
    var rec := Fresh(w.hist[th.r].id, th.state, th.clientState, th.conformance, w.now, w.cfg.ttl);
    assert forall r' | r' in w.store.heap :: w.store.heap[r'].oauthState == rec.oauthState ==> rec.oauthState == "";
    InsertConsistent(w.store, th.r, rec);
  }

  lemma InsertedCustody(w: World, t: Tid)
    requires Orderly(w) && t in w.threads && w.threads[t].Starting?
    ensures Orderly(Inserted(w, t))
  {
    var th := w.threads[t];
    var w' := Inserted(w, t);
    BirthIsFresh(w, t);
    InsertedConsistent(w, t);
    InsertedAccounted(w, t);
    assert Carried(w, t);
    forall r | r in w'.store.heap ensures Kept(w', r) {
      if r == th.r {
        assert Stored(w'.store, r);
      } else {
        InsertKeeps(w, w', t, r);
      }
    }
    forall u | u in w'.threads ensures Carried(w', u) {
      assert Carried(w, u);
    }
  }

  lemma InsertKeeps(w: World, w': World, t: Tid, r: Ref)
    requires Orderly(w) && t in w.threads && w.threads[t].Starting? && w' == Inserted(w, t)
    requires w.hist[w.threads[t].r].id !in w.store.byID && r in w.store.heap && r != w.threads[t].r
    ensures Kept(w', r)
  {
    assert Kept(w, r);
    assert NamesOk(w);
    assert Stored(w'.store, r) == Stored(w.store, r);
    KeptLater(w, w', r);
  }

  lemma NewCustody(w: World, t: Tid, reading: int)
    requires Orderly(w) && t in w.threads && w.threads[t].Starting? && w.now <= reading
    ensures Orderly(DoNew(w, t, reading))
  {
    SweptCustody(w);
    TickCustody(Swept(w), reading);
    InsertedCustody(Swept(w).(now := reading), t);
    NewIsSweepTickInsert(w, t, reading);
  }

  /** A correlation id leads to the session that carries it. */
  lemma ViewFindsOwn(w: World, r: Ref)
    requires Orderly(w) && r in w.store.heap
    ensures w.store.heap[r].correlationID in w.store.byID <==> Stored(w.store, r)
  {
    var id := w.store.heap[r].correlationID;
    assert Kept(w, r);
    if id in w.store.byID {
      assert Kept(w, w.store.byID[id]);
    }
  }

  // --- Every step, every run --------------------------------------------------------------------

  lemma PlannedCustody(w: World, t: Tid, input: Input)
    requires Orderly(w) && t in w.threads && w.threads[t].Planned? && InputFits(w.threads[t], input)
    ensures Orderly(DoPlanned(w, t, input))
  {
    match w.threads[t].plan
    case Effect(_) => UpstreamCustody(w, t, input.response);
    case Index(_, _) => IndexCustody(w, t);
    case _ => SettleCustody(w, t);
  }

  lemma AdvanceCustody(w: World, t: Tid, input: Input)
    requires Orderly(w) && CanStep(w, Advance(t, input), H1_H2)
    ensures Orderly(DoAdvance(w, t, input).0)
  {
    match w.threads[t]
    case Starting(_, _, _, _, _, _) => NewCustody(w, t, input.reading);
    case Created(_, _, _, _) => BegunCustody(w, t);
    case Found(_, _) => ClaimCustody(w, t);
    case Claimed(_, _, _) => ResumeCustody(w, t, input.reply);
    case Responded(_, _, _, _, _) => ResumeHTTPCustody(w, t, input.reply);
    case Got(_, _, _) => KeepHandleCustody(w, t);
    case Planned(_, _, _, plan) => PlannedCustody(w, t, input);
    case Indexed(_, _, _, _) => ReopenCustody(w, t);
    case Finalizing(_, _, _) => FinalizeCustody(w, t);
    case Driven(_, _, _, _, _) => ViewCustody(w, t);
    case _ => ReturnCustody(w, t);
  }

  lemma StepCustody(w: World, a: Action)
    requires Orderly(w) && CanStep(w, a, H1_H2)
    ensures Orderly(Apply(w, a).0)
  {
    match a
    case Tick(reading) => TickCustody(w, reading);
    case Poll(id, what) => PollCustody(w, id, what);
    case Start(t, r, id, clientState, conformance, reply) => StartCustody(w, t, r, id, clientState, conformance, reply);
    case Callback(t, req) => LookupCustody(w, t, req);
    case Advance(t, input) => AdvanceCustody(w, t, input);
  }

  lemma {:induction false} RunCustody(w: World, run: seq<Action>, assumed: Assumed)
    requires Orderly(w) && Admissible(w, run, assumed) && assumed.h1 && assumed.h2
    ensures Orderly(Exec(w, run, assumed))
    decreases |run|
  {
    if run != [] {
      StepCustody(w, run[0]);
      RunCustody(Apply(w, run[0]).0, run[1..], assumed);
    }
  }

  lemma ReachedCustody(w: World, assumed: Assumed)
    requires Reached(w, assumed) && assumed.h1 && assumed.h2
    ensures Orderly(w)
  {
    var w0: World, run: seq<Action> :| LeadsFromStart(w0, run, w, assumed);
    RunCustody(w0, run, assumed);
  }
}
