/** The steps of the clock, of new journeys, and the two last steps of every callback, on the journeys. */
module StartInvariants {
  import opened Basics
  import opened Steps
  import opened SessionStore
  import opened HttpApi
  import opened Protocol
  import opened Effects
  import opened Ledger
  import opened Custody
  import opened Invariant
  import opened Preservation
  import opened StepInvariants

  // --- Time ------------------------------------------------------------------------

  lemma AgeSession(cfg: Config, now: int, later: int, stored: bool, r: Ref, rec: Record, h: Hist, owner: Option<Thread>,
                   published: set<string>, issued: map<string, Ref>)
    requires SessionOk(cfg, now, stored, r, rec, h, owner, published, issued) && now <= later
    ensures SessionOk(cfg, later, stored, r, rec, h, owner, published, issued)
  {
  }

  lemma TickJourneys(w: World, reading: int)
    requires Journeys(w) && w.now <= reading
    ensures Journeys(w.(now := reading))
  {
    var w' := w.(now := reading);
    forall r | r in w'.hist ensures SessionAt(w', r) && OwnerLive(w', r) {
      AgeAt(w, reading, r);
    }
    forall t | t in w'.threads ensures ThreadAt(w', t) {
      assert ThreadAt(w, t);
    }
  }

  lemma AgeAt(w: World, reading: int, r: Ref)
    requires Journeys(w) && w.now <= reading && r in w.hist
    ensures SessionAt(w.(now := reading), r) && OwnerLive(w.(now := reading), r)
  {
    assert SessionAt(w, r) && OwnerLive(w, r);
    assert Owner(w.(now := reading), r) == Owner(w, r);
    if r in w.store.heap {
      AgeSession(w.cfg, w.now, reading, Stored(w.store, r), r, w.store.heap[r], w.hist[r], Owner(w, r), w.published, w.issued);
    }
  }

  // --- New journeys ------------------------------------------------------------------

  lemma StartJourneys(w: World, t: Tid, r: Ref, id: string, clientState: string, conformance: string, reply: SdkReply)
    requires Journeys(w) && t !in w.threads && r !in w.hist && FreshState(w, reply) && w.published <= w.issued.Keys
    ensures Journeys(DoStart(w, t, r, id, clientState, conformance, reply).0)
  {
    if Emits(w.cfg, reply).Some? {
      var plan := Decide(w.cfg, reply.res);
      BirthJourneys(w, DoStart(w, t, r, id, clientState, conformance, reply).0, t, r, reply,
                    Starting(r, clientState, conformance, reply.res.handle, plan.url, plan.state));
    }
  }

  /** A conversation begins: the SDK's first reply asks for a redirect, with a state that is new. */
  ghost predicate Begins(w: World, w': World, t: Tid, r: Ref, reply: SdkReply, th: Thread) {
    && t !in w.threads && r !in w.hist && th.Starting? && th.r == r && r in w'.hist
    && reply.Stepped? && Decide(w.cfg, reply.res) == Index(th.url, th.state) && th.handle == reply.res.handle
    && th.state !in w.issued && w'.issued == w.issued[th.state := r]
    && w'.hist == w.hist[r := Hist(w'.hist[r].id, [BeginCall(reply)], None, Some(t), 0, 0)]
    && w' == w.(threads := w.threads[t := th], hist := w'.hist, ids := w'.ids, issued := w'.issued)
  }

  lemma BirthJourneys(w: World, w': World, t: Tid, r: Ref, reply: SdkReply, th: Thread)
    requires Journeys(w) && Begins(w, w', t, r, reply, th) && w.published <= w.issued.Keys
    ensures Journeys(w')
  {
    BirthIsUnborn(w.cfg, r, w'.hist[r], th, reply, w.published, w'.issued);
    forall r' | r' in w'.hist ensures SessionAt(w', r') && OwnerLive(w', r') {
      if r' != r { OthersAtBirth(w, w', t, r, reply, th, r'); }
    }
    forall u | u in w'.threads ensures ThreadAt(w', u) {
      if u != t { ThreadAtBirth(w, w', t, r, reply, th, u); }
    }
  }

  lemma OthersAtBirth(w: World, w': World, t: Tid, r: Ref, reply: SdkReply, th: Thread, r': Ref)
    requires Journeys(w) && Begins(w, w', t, r, reply, th) && r' in w.hist
    ensures SessionAt(w', r') && OwnerLive(w', r')
  {
    assert SessionAt(w, r') && OwnerLive(w, r');
    GrowAt(w, w', r');
  }

  lemma ThreadAtBirth(w: World, w': World, t: Tid, r: Ref, reply: SdkReply, th: Thread, u: Tid)
    requires Journeys(w) && Begins(w, w', t, r, reply, th) && u in w.threads && Linked(w')
    ensures ThreadAt(w', u)
  {
    assert ThreadAt(w, u);
  }

  lemma BirthIsUnborn(cfg: Config, r: Ref, h: Hist, th: Thread, reply: SdkReply, published: set<string>, issued: map<string, Ref>)
    requires reply.Stepped? && Decide(cfg, reply.res).Index? && th.Starting?
    requires h.calls == [BeginCall(reply)] && h.settled == None
    requires var plan := Decide(cfg, reply.res);
             th.handle == reply.res.handle && th.url == plan.url && th.state == plan.state
             && IssuedTo(issued, plan.state, r) && plan.state !in published
    ensures Unborn(cfg, r, h, Some(th), published, issued)
  {
  }

  /** Other sessions only see more states issued. */
  lemma GrowAt(w: World, w': World, r: Ref)
    requires r in w.hist && SessionAt(w, r) && OwnerLive(w, r) && r in w'.hist && w'.hist[r] == w.hist[r]
    requires w' == w.(threads := w'.threads, hist := w'.hist, ids := w'.ids, issued := w'.issued) && Grows(w.issued, w'.issued)
    requires forall u | u in w.threads :: u in w'.threads && w'.threads[u] == w.threads[u]
    ensures SessionAt(w', r) && OwnerLive(w', r)
  {
    assert Owner(w', r) == Owner(w, r);
    if r in w.store.heap {
      GrowSession(w.cfg, w.now, Stored(w.store, r), r, w.store.heap[r], w.hist[r], Owner(w, r), w.published, w.issued, w'.issued);
    }
  }

  lemma GrowSession(cfg: Config, now: int, stored: bool, r: Ref, rec: Record, h: Hist, owner: Option<Thread>,
                    published: set<string>, issued: map<string, Ref>, issued': map<string, Ref>)
    requires SessionOk(cfg, now, stored, r, rec, h, owner, published, issued) && Grows(issued, issued')
    ensures SessionOk(cfg, now, stored, r, rec, h, owner, published, issued')
  {
  }

  /** Eviction takes a session out of the indexes only. */
  lemma SweptJourneys(w: World)
    requires Journeys(w)
    ensures Journeys(Swept(w))
  {
    var w' := Swept(w);
    forall r | r in w'.hist ensures SessionAt(w', r) && OwnerLive(w', r) {
      EvictAt(w, r);
    }
    forall t | t in w'.threads ensures ThreadAt(w', t) {
      assert ThreadAt(w, t);
    }
  }

  lemma EvictAt(w: World, r: Ref)
    requires Journeys(w) && r in w.hist
    ensures SessionAt(Swept(w), r) && OwnerLive(Swept(w), r)
  {
    assert SessionAt(w, r) && OwnerLive(w, r);
    assert Owner(Swept(w), r) == Owner(w, r);
    if r in w.store.heap {
      EvictSession(w.cfg, w.now, Stored(w.store, r), Stored(Swept(w).store, r), r, w.store.heap[r], w.hist[r], Owner(w, r), w.published, w.issued);
    }
  }

  lemma EvictSession(cfg: Config, now: int, stored: bool, stored': bool, r: Ref, rec: Record, h: Hist, owner: Option<Thread>,
                     published: set<string>, issued: map<string, Ref>)
    requires SessionOk(cfg, now, stored, r, rec, h, owner, published, issued) && (stored' ==> stored)
    ensures SessionOk(cfg, now, stored', r, rec, h, owner, published, issued)
  {
  }

  lemma InsertedJourneys(w: World, t: Tid)
    requires Inv(w) && t in w.threads && w.threads[t].Starting?
    ensures Journeys(Inserted(w, t))
  {
    var th := w.threads[t];
    BirthIsFresh(w, t);
    NamesApart(w, th.r);
    assert ThreadAt(w, t) && SessionAt(w, th.r);
    var rec := Fresh(w.hist[th.r].id, th.state, th.clientState, th.conformance, w.now, w.cfg.ttl);
    BirthSession(w.cfg, w.now, th.r, rec, w.hist[th.r], th, w.published, w.issued);
    InsertJourneys(w, Inserted(w, t), t, rec);
  }

  /** No other session carries the id of this one. */
  lemma NamesApart(w: World, r: Ref)
    requires Orderly(w) && r in w.hist
    ensures forall r' | r' in w.store.heap && r' != r :: w.store.heap[r'].correlationID != w.hist[r].id
  {
    forall r' | r' in w.store.heap && r' != r ensures w.store.heap[r'].correlationID != w.hist[r].id {
      assert Kept(w, r');
    }
  }

  lemma BirthSession(cfg: Config, now: int, r: Ref, rec: Record, h: Hist, th: Thread, published: set<string>, issued: map<string, Ref>)
    requires th.Starting? && Unborn(cfg, r, h, Some(th), published, issued)
    requires rec == Fresh(h.id, th.state, th.clientState, th.conformance, now, cfg.ttl)
    ensures SessionOk(cfg, now, true, r, rec, h, Some(Created(th.r, th.handle, th.url, th.state)), published, issued)
  {
  }

  /** One session comes to be, under an id no other carries. */
  ghost predicate Inserts(w: World, w': World, t: Tid, rec: Record) {
    && t in w.threads && w.threads[t].Starting? && w.threads[t].r in w.hist && w.threads[t].r !in w.store.heap
    && var th := w.threads[t];
       && w' == w.(store := w'.store, threads := w.threads[t := Created(th.r, th.handle, th.url, th.state)])
       && w'.store.heap == w.store.heap[th.r := rec] && w'.store.byID == w.store.byID[w.hist[th.r].id := th.r]
       && rec.correlationID == w.hist[th.r].id
       && (forall r | r in w.store.heap :: w.store.heap[r].correlationID != w.hist[th.r].id)
  }

  lemma InsertJourneys(w: World, w': World, t: Tid, rec: Record)
    requires Journeys(w) && Inserts(w, w', t, rec)
    requires SessionOk(w.cfg, w.now, true, w.threads[t].r, rec, w.hist[w.threads[t].r], Some(w'.threads[t]), w.published, w.issued)
    ensures Journeys(w')
  {
    forall r | r in w'.hist ensures SessionAt(w', r) && OwnerLive(w', r) {
      if r == w.threads[t].r { OwnAtInsert(w, w', t, rec); } else { OthersAtInsert(w, w', t, rec, r); }
    }
    forall u | u in w'.threads ensures ThreadAt(w', u) {
      ThreadAtInsert(w, w', t, rec, u);
    }
  }

  lemma OwnAtInsert(w: World, w': World, t: Tid, rec: Record)
    requires Journeys(w) && Inserts(w, w', t, rec)
    requires SessionOk(w.cfg, w.now, true, w.threads[t].r, rec, w.hist[w.threads[t].r], Some(w'.threads[t]), w.published, w.issued)
    ensures SessionAt(w', w.threads[t].r) && OwnerLive(w', w.threads[t].r)
  {
    assert ThreadAt(w, t);
    assert Stored(w'.store, w.threads[t].r) && Owner(w', w.threads[t].r) == Some(w'.threads[t]);
  }

  lemma ThreadAtInsert(w: World, w': World, t: Tid, rec: Record, u: Tid)
    requires Journeys(w) && Inserts(w, w', t, rec) && Linked(w') && u in w'.threads
    ensures ThreadAt(w', u)
  {
    assert ThreadAt(w, u) && ThreadAt(w, t);
  }

  lemma OthersAtInsert(w: World, w': World, t: Tid, rec: Record, r: Ref)
    requires Journeys(w) && Inserts(w, w', t, rec) && r in w.hist && r != w.threads[t].r
    ensures SessionAt(w', r) && OwnerLive(w', r)
  {
    assert SessionAt(w, r) && OwnerLive(w, r);
    assert Owner(w', r) == Owner(w, r);
    SameSession(w, w', r);
  }

  lemma NewJourneys(w: World, t: Tid, reading: int)
    requires Inv(w) && t in w.threads && w.threads[t].Starting? && w.now <= reading
    ensures Journeys(DoNew(w, t, reading))
  {
    SweptCustody(w);
    SweptJourneys(w);
    TickCustody(Swept(w), reading);
    TickJourneys(Swept(w), reading);
    InsertedJourneys(Swept(w).(now := reading), t);
    NewIsSweepTickInsert(w, t, reading);
  }

  // --- The final view ------------------------------------------------------------------

  /** What a call that entered the SDK answers does not depend on when it looks: only eviction
      changes it. */
  lemma WinnerView(cfg: Config, now: int, stored: bool, r: Ref, rec: Record, h: Hist, th: Thread,
                   published: set<string>, issued: map<string, Ref>)
    requires SessionOk(cfg, now, stored, r, rec, h, Some(th), published, issued)
    requires th.Driven? && th.entered
    ensures CompleteAnswer(th.req, th.outcome, Some(ViewOf(rec))) == Delivered(th.req, Prescribed(cfg, h.calls), h, rec.clientState)
  {
    PrescribedSound(cfg, h.calls);
    if h.settled.Some? {
      SettledView(th.req, th.outcome, ViewOf(rec), h.settled.value.reason);
    } else {
      WaitingView(th.req, th.outcome, ViewOf(rec));
    }
  }

  lemma NoView(cfg: Config, calls: seq<Call>, req: Request)
    ensures CompleteAnswer(req, Prescribed(cfg, calls), None) == ResumeFailed
  {
    PrescribedSound(cfg, calls);
  }

  /** A prescribed outcome names the status it settles with, or none; only a redirect has a URL. */
  lemma PrescribedSound(cfg: Config, calls: seq<Call>)
    ensures var p := FinalPlan(cfg, calls);
            var o := Prescribed(cfg, calls);
            && (o.error == None || o.error == Some(Internal))
            && (p.Finish? || p.Fail? ==>
                  && o.redirectURL == ""
                  && (o.status == None || o.status == Some(SettlementOf(p).status))
                  && (o.reason == "" || (p.Fail? && o.reason == p.reason)))
            && (p.Index? ==> o.status == Some(Authorizing) && o.reason == "" && o.error == None)
  {
    match LastReply(calls)
    case SdkError =>
    case Stepped(res) => DecideIsSound(cfg, res);
  }

  /** With the outcome's status, or none, that of the view, the reason of a completed session and the
      view's PDF do not matter. */
  lemma SettledView(req: Request, outcome: Outcome, view: View, reason: string)
    requires outcome.status == None || outcome.status == Some(view.status)
    requires view.status == Completed || view.reason == reason
    ensures CompleteAnswer(req, outcome, Some(view)) == CompleteAnswer(req, outcome, Some(view.(reason := reason)))
  {
  }

  lemma WaitingView(req: Request, outcome: Outcome, view: View)
    requires outcome.status == Some(Authorizing) && outcome.error == None
    ensures CompleteAnswer(req, outcome, Some(view))
            == CompleteAnswer(req, outcome, Some(View(view.correlationID, view.clientState, Authorizing, "", [], None)))
  {
  }

  lemma LoserView(now: int, rec: Record, h: Hist, req: Request, e: ConsumeError)
    requires StatusOk(now, rec, h) && rec.correlationID == h.id
    ensures LoserAnswer(now, rec, h, req, CompleteAnswer(req, Refused(e), Some(ViewOf(rec))))
    ensures CompleteAnswer(req, Refused(e), None) == AlreadyProcessing
  {
  }

  /** The answer a call prepares when its session is as in `w`. */
  ghost function Answering(w: World, t: Tid): Thread
    requires Linked(w) && t in w.threads && w.threads[t].Driven?
  {
    var th := w.threads[t];
    var view := if Stored(w.store, th.r) then Some(ViewOf(w.store.heap[th.r])) else None;
    Answered(th.r, th.req, CompleteAnswer(th.req, th.outcome, view), th.entered, th.issues)
  }

  lemma ViewJourneys(w: World, t: Tid)
    requires Inv(w) && t in w.threads && w.threads[t].Driven?
    ensures Journeys(DoView(w, t))
  {
    var r := w.threads[t].r;
    ViewFindsOwn(w, r);
    if Stored(w.store, r) {
      ExpireJourneys(w, r);
      assert Stored(Expired(w, r).store, r);
      AnswerJourneys(Expired(w, r), t, DoView(w, t));
    } else {
      AnswerJourneys(w, t, DoView(w, t));
    }
  }

  lemma AnswerJourneys(w: World, t: Tid, w': World)
    requires Journeys(w) && t in w.threads && w.threads[t].Driven?
    requires w' == w.(threads := w.threads[t := Answering(w, t)])
    ensures Journeys(w')
  {
    if w.threads[t].entered {
      EnteredAnswerJourneys(w, t, w');
    } else {
      LoserAnswerJourneys(w, t, w');
    }
  }

  lemma EnteredAnswerJourneys(w: World, t: Tid, w': World)
    requires Journeys(w) && t in w.threads && w.threads[t].Driven? && w.threads[t].entered
    requires w' == w.(threads := w.threads[t := Answering(w, t)])
    ensures Journeys(w')
  {
    var th := w.threads[t];
    var rec, h := w.store.heap[th.r], w.hist[th.r];
    assert SessionAt(w, th.r) && ThreadAt(w, t);
    AnswerSession(w.cfg, w.now, Stored(w.store, th.r), th.r, rec, h, th, w.published, w.issued);
    assert w.store.heap == w.store.heap[th.r := rec] && w.hist == w.hist[th.r := h];
    PutJourneys(w, w', t, Answering(w, t), rec, h);
  }

  lemma LoserAnswerJourneys(w: World, t: Tid, w': World)
    requires Journeys(w) && t in w.threads && w.threads[t].Driven? && !w.threads[t].entered
    requires w' == w.(threads := w.threads[t := Answering(w, t)])
    ensures Journeys(w')
  {
    LoserAnswers(w, t);
    BystanderJourneys(w, w', t);
  }

  lemma LoserAnswers(w: World, t: Tid)
    requires Journeys(w) && t in w.threads && w.threads[t].Driven? && !w.threads[t].entered
    ensures var r := w.threads[t].r;
            BystanderOk(w.now, r, w.store.heap[r], w.hist[r], Answering(w, t), w.published, w.issued)
  {
    var th := w.threads[t];
    assert SessionAt(w, th.r) && ThreadAt(w, t);
    LoserView(w.now, w.store.heap[th.r], w.hist[th.r], th.req, if th.outcome == Refused(ErrTerminal) then ErrTerminal else ErrResuming);
  }

  lemma AnswerSession(cfg: Config, now: int, stored: bool, r: Ref, rec: Record, h: Hist, th: Thread,
                      published: set<string>, issued: map<string, Ref>)
    requires SessionOk(cfg, now, stored, r, rec, h, Some(th), published, issued) && th.Driven? && th.entered
    ensures var view := if stored then Some(ViewOf(rec)) else None;
            SessionOk(cfg, now, stored, r, rec, h, Some(Answered(th.r, th.req, CompleteAnswer(th.req, th.outcome, view), true, th.issues)),
                      published, issued)
  {
    WinnerView(cfg, now, stored, r, rec, h, th, published, issued);
    NoView(cfg, h.calls, th.req);
  }

  // --- The end of a request --------------------------------------------------------------

  /** Handing out another session's state does not concern this one. */
  lemma PublishElsewhere(cfg: Config, now: int, stored: bool, r: Ref, rec: Record, h: Hist, owner: Option<Thread>,
                         published: set<string>, issued: map<string, Ref>, r': Ref, state: string)
    requires SessionOk(cfg, now, stored, r, rec, h, owner, published, issued)
    requires r' != r && IssuedTo(issued, state, r')
    ensures SessionOk(cfg, now, stored, r, rec, h, owner, published + {state}, issued)
  {
    LastEmission(cfg, r, h.calls, issued);
  }

  lemma PublishUnborn(cfg: Config, r: Ref, h: Hist, owner: Option<Thread>,
                      published: set<string>, issued: map<string, Ref>, r': Ref, state: string)
    requires Unborn(cfg, r, h, owner, published, issued)
    requires r' != r && IssuedTo(issued, state, r')
    ensures Unborn(cfg, r, h, owner, published + {state}, issued)
  {
    LastEmission(cfg, r, h.calls, issued);
  }

  lemma LastEmission(cfg: Config, r: Ref, calls: seq<Call>, issued: map<string, Ref>)
    requires |calls| > 0 && OnRecord(cfg, r, calls, issued)
    ensures LastPlan(cfg, calls).Index? ==> IssuedTo(issued, LastPlan(cfg, calls).state, r)
  {
    assert calls[|calls| - 1].out == LastReply(calls);
  }

  /** The state a returning call hands out, as a set. */
  ghost function HandedOut(th: Thread): set<string> {
    if th.Begun? then {th.state}
    else if th.Answered? && th.entered && th.issues.Some? then {th.issues.value}
    else {}
  }

  /** The returning call's own session is at rest, its state now with the browser. */
  lemma ReturnSession(cfg: Config, now: int, stored: bool, r: Ref, rec: Record, h: Hist, th: Thread,
                      published: set<string>, issued: map<string, Ref>)
    requires SessionOk(cfg, now, stored, r, rec, h, Some(th), published, issued)
    requires th.Begun? || (th.Answered? && th.entered)
    ensures SessionOk(cfg, now, stored, r, rec, h.(owner := None), None, published + HandedOut(th), issued)
    ensures HandedOut(th) != {} ==> IssuedTo(issued, LastPlan(cfg, h.calls).state, r) && HandedOut(th) == {LastPlan(cfg, h.calls).state}
  {
    LastEmission(cfg, r, h.calls, issued);
  }

  lemma ReturnJourneys(w: World, t: Tid)
    requires Journeys(w) && t in w.threads && (w.threads[t].Begun? || w.threads[t].Answered?)
    ensures Journeys(DoReturn(w, t).0)
  {
    ReturnTouches(w, t);
    ReturnEffect(w, t);
    assert ThreadAt(w, t);
    if Owns(w.threads[t]) {
      ActiveReturnJourneys(w, DoReturn(w, t).0, t);
    } else {
      BystanderJourneys(w, DoReturn(w, t).0, t);
    }
  }

  lemma ReturnEffect(w: World, t: Tid)
    requires Linked(w) && t in w.threads && (w.threads[t].Begun? || w.threads[t].Answered?)
    ensures var w', th := DoReturn(w, t).0, w.threads[t];
            && w'.published == w.published + HandedOut(th)
            && (Owns(th) ==> Returns(w, w', t))
            && (!Owns(th) ==> w' == w.(threads := w.threads - {t}))
  {
  }

  /** The active call returns: its session is at rest, and the state it issued is handed out. */
  lemma ActiveReturnJourneys(w: World, w': World, t: Tid)
    requires Journeys(w) && t in w.threads && Returns(w, w', t)
    ensures Journeys(w')
  {
    forall r | r in w'.hist ensures SessionAt(w', r) && OwnerLive(w', r) {
      ReturnAt(w, w', t, r);
    }
    forall u | u in w'.threads ensures ThreadAt(w', u) {
      OtherAtReturn(w, w', t, u);
    }
  }

  ghost predicate Returns(w: World, w': World, t: Tid)
    requires t in w.threads
  {
    var th := w.threads[t];
    && (th.Begun? || (th.Answered? && th.entered)) && th.r in w.hist && th.r in w.store.heap
    && w' == w.(threads := w.threads - {t}, hist := w.hist[th.r := w.hist[th.r].(owner := None)], published := w.published + HandedOut(th))
  }

  lemma OtherAtReturn(w: World, w': World, t: Tid, u: Tid)
    requires Journeys(w) && t in w.threads && Returns(w, w', t) && u in w'.threads && Linked(w')
    ensures ThreadAt(w', u)
  {
    assert ThreadAt(w, u) && ThreadAt(w, t);
  }

  lemma ReturnAt(w: World, w': World, t: Tid, r: Ref)
    requires Journeys(w) && t in w.threads && Returns(w, w', t) && r in w'.hist
    ensures SessionAt(w', r) && OwnerLive(w', r)
  {
    if r == w.threads[t].r { OwnAtReturn(w, w', t); } else { OthersAtReturn(w, w', t, r); }
  }

  lemma OwnAtReturn(w: World, w': World, t: Tid)
    requires Journeys(w) && t in w.threads && Returns(w, w', t)
    ensures SessionAt(w', w.threads[t].r) && OwnerLive(w', w.threads[t].r)
  {
    var th := w.threads[t];
    assert SessionAt(w, th.r) && ThreadAt(w, t);
    ReturnSession(w.cfg, w.now, Stored(w.store, th.r), th.r, w.store.heap[th.r], w.hist[th.r], th, w.published, w.issued);
  }

  lemma OthersAtReturn(w: World, w': World, t: Tid, r: Ref)
    requires Journeys(w) && t in w.threads && Returns(w, w', t) && r in w.hist && r != w.threads[t].r
    ensures SessionAt(w', r) && OwnerLive(w', r)
  {
    var th := w.threads[t];
    assert SessionAt(w, th.r) && ThreadAt(w, t);
    ReturnSession(w.cfg, w.now, Stored(w.store, th.r), th.r, w.store.heap[th.r], w.hist[th.r], th, w.published, w.issued);
    assert SessionAt(w, r) && OwnerLive(w, r);
    HandOutAt(w, w', r, th.r, HandedOut(th));
  }

  /** Handing out states of session `r'` keeps what is said of session `r`. */
  lemma HandOutAt(w: World, w': World, r: Ref, r': Ref, states: set<string>)
    requires r in w.hist && SessionAt(w, r) && r != r' && r in w'.hist && w'.hist[r] == w.hist[r]
    requires w' == w.(threads := w'.threads, hist := w'.hist, published := w.published + states)
    requires Owner(w', r) == Owner(w, r)
    requires states == {} || exists x :: states == {x} && IssuedTo(w.issued, x, r')
    ensures SessionAt(w', r)
  {
    if states == {} {
      assert w.published + states == w.published;
      SameSession(w, w', r);
    } else {
      var x :| states == {x} && IssuedTo(w.issued, x, r');
      if r in w.store.heap {
        PublishElsewhere(w.cfg, w.now, Stored(w.store, r), r, w.store.heap[r], w.hist[r], Owner(w, r), w.published, w.issued, r', x);
      } else {
        PublishUnborn(w.cfg, r, w.hist[r], Owner(w, r), w.published, w.issued, r', x);
      }
    }
  }
}
