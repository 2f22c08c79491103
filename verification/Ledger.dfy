/**
 Who holds which session, and that claims and releases balance: true of every run, whatever the
 environment does.
 */
module Ledger {
  import opened Basics
  import opened Steps
  import opened SessionStore
  import opened HttpApi
  import opened Protocol
  import opened Executions
  import opened Effects

  /** The thread is between claim and release. */
  predicate Holds(th: Thread) {
    th.Claimed? || th.Got? || th.Planned? || th.Responded? || th.Finalizing?
  }

  ghost predicate Holder(w: World, r: Ref, t: Tid) {
    t in w.threads && w.threads[t].r == r && Holds(w.threads[t])
  }

  /** The account of one session: a claim is outstanding exactly while it is being resumed, by exactly
      one thread, and then it waits for no state. */
  ghost predicate Balanced(w: World, r: Ref)
    requires r in w.hist
  {
    if r in w.store.heap then
      var rec, h := w.store.heap[r], w.hist[r];
      && h.claims == h.releases + (if rec.resuming then 1 else 0)
      && (rec.resuming ==> rec.oauthState == "")
      && (rec.resuming <==> exists t :: Holder(w, r, t))
      && (forall t, u :: Holder(w, r, t) && Holder(w, r, u) ==> t == u)
    else w.hist[r].claims == w.hist[r].releases == 0
  }

  /** A session that is about to be stored is so by one thread only. */
  ghost predicate UnbornApart(w: World)
    requires Linked(w)
  {
    && (forall t | t in w.threads && w.threads[t].Starting? :: w.threads[t].r !in w.store.heap)
    && (forall t, u | t in w.threads && u in w.threads && w.threads[t].Starting? && w.threads[u].Starting?
          && w.threads[t].r == w.threads[u].r :: t == u)
  }

  ghost predicate Accounted(w: World) {
    Linked(w) && UnbornApart(w) && forall r {:trigger Balanced(w, r)} | r in w.hist :: Balanced(w, r)
  }

  // --- Every step keeps the accounts -------------------------------------------------

  /** What thread `t` does to the account of its session: it claims, it releases, or neither. */
  ghost predicate Books(w: World, w': World, r: Ref, t: Tid)
    requires r in w.store.heap && r in w'.store.heap && r in w.hist && r in w'.hist
  {
    var held, holds := Holder(w, r, t), Holder(w', r, t);
    var rec, rec', h, h' := w.store.heap[r], w'.store.heap[r], w.hist[r], w'.hist[r];
    && (holds && !held ==> !rec.resuming)
    && rec'.resuming == (if holds == held then rec.resuming else holds)
    && h'.claims - h'.releases == h.claims - h.releases + (if holds then 1 else 0) - (if held then 1 else 0)
    && (rec'.resuming ==> rec'.oauthState == "")
  }

  lemma OwnBalanced(w: World, w': World, r: Ref, t: Tid)
    requires Accounted(w) && Touches(w, w', r, t) && r in w.store.heap
    requires Books(w, w', r, t)
    ensures Balanced(w', r)
  {
    assert Balanced(w, r);
    forall u | u != t ensures Holder(w', r, u) <==> Holder(w, r, u) {
    }
    if w'.store.heap[r].resuming {
      if Holder(w', r, t) {
      } else {
        var u :| Holder(w, r, u);
        assert u != t;
        assert Holder(w', r, u);
      }
    }
  }

  lemma LocalAccounted(w: World, w': World, r: Ref, t: Tid)
    requires Accounted(w) && Touches(w, w', r, t) && r in w.store.heap
    requires t in w.threads ==> w.threads[t].r == r
    requires t in w'.threads ==> w'.threads[t].r == r && !w'.threads[t].Starting?
    requires Books(w, w', r, t)
    ensures Accounted(w')
  {
    OwnBalanced(w, w', r, t);
    forall r' | r' in w'.hist ensures Balanced(w', r') {
      if r' != r {
        assert Balanced(w, r');
        forall u ensures Holder(w', r', u) <==> Holder(w, r', u) {
        }
      }
    }
    LinksKept(w, w', r, t);
  }

  lemma LinksKept(w: World, w': World, r: Ref, t: Tid)
    requires Linked(w) && UnbornApart(w) && Touches(w, w', r, t) && r in w.store.heap
    requires t in w'.threads ==> w'.threads[t].r == r && !w'.threads[t].Starting?
    ensures Linked(w') && UnbornApart(w')
  {
    forall u | u in w'.threads
      ensures w'.threads[u].r in w'.hist && (w'.threads[u].Starting? || w'.threads[u].r in w'.store.heap)
    {
      if u != t { assert w'.threads[u] == w.threads[u]; }
    }
  }

  lemma ExpiredAccounted(w: World, r: Ref)
    requires Accounted(w) && r in w.store.heap
    ensures Accounted(Expired(w, r))
  {
    var w' := Expired(w, r);
    forall r' | r' in w'.hist ensures Balanced(w', r') {
      assert Balanced(w, r');
      forall u ensures Holder(w', r', u) <==> Holder(w, r', u) {
      }
    }
  }

  lemma LookedUpAccounted(w: World, state: string)
    requires Accounted(w)
    ensures Accounted(AfterLookup(w, state))
    ensures var found := GetByState(w.store, state, w.now).1; found.Some? ==> found.value in AfterLookup(w, state).store.heap
  {
    if state in w.store.byState && w.store.byState[state] != "" && w.store.byState[state] in w.store.byID {
      ExpiredAccounted(w, w.store.byID[w.store.byState[state]]);
    }
  }

  lemma LookupAccounted(w: World, t: Tid, req: Request)
    requires Accounted(w) && t !in w.threads
    ensures Accounted(DoLookup(w, t, req).0)
  {
    if Valid(req) {
      LookedUpAccounted(w, req.state);
      var found := GetByState(w.store, req.state, w.now).1;
      if found.Some? {
        var w1 := AfterLookup(w, req.state);
        assert Balanced(w1, found.value);
        LookupTouches(w, t, req);
        LocalAccounted(w1, DoLookup(w, t, req).0, found.value, t);
      }
    }
  }

  lemma ClaimAccounted(w: World, t: Tid)
    requires Accounted(w) && t in w.threads && w.threads[t].Found?
    ensures Accounted(DoClaim(w, t))
  {
    var r := w.threads[t].r;
    ExpiredAccounted(w, r);
    assert Balanced(Expired(w, r), r);
    if Consume(w.store, r, w.now).1.Ok? {
      ClaimBooks(w, t);
    } else {
      RefusedBooks(w, t);
    }
    LocalAccounted(Expired(w, r), DoClaim(w, t), r, t);
  }

  lemma ClaimBooks(w: World, t: Tid)
    requires Linked(w) && t in w.threads && w.threads[t].Found? && Consume(w.store, w.threads[t].r, w.now).1.Ok?
    ensures var w1, w', r := Expired(w, w.threads[t].r), DoClaim(w, t), w.threads[t].r;
            && r in w'.hist && r in w'.store.heap && Touches(w1, w', r, t) && Books(w1, w', r, t)
            && t in w'.threads && w'.threads[t].Claimed? && w'.threads[t].r == r
  {
    assert !Holder(Expired(w, w.threads[t].r), w.threads[t].r, t);
  }

  lemma RefusedBooks(w: World, t: Tid)
    requires Linked(w) && t in w.threads && w.threads[t].Found? && Consume(w.store, w.threads[t].r, w.now).1.Err?
    requires var rec := Expired(w, w.threads[t].r).store.heap[w.threads[t].r]; rec.resuming ==> rec.oauthState == ""
    ensures var w1, w', r := Expired(w, w.threads[t].r), DoClaim(w, t), w.threads[t].r;
            && r in w'.hist && r in w'.store.heap && Touches(w1, w', r, t) && Books(w1, w', r, t)
            && t in w'.threads && w'.threads[t].Driven? && w'.threads[t].r == r
  {
    assert !Holder(Expired(w, w.threads[t].r), w.threads[t].r, t);
  }

  lemma ViewAccounted(w: World, t: Tid)
    requires Accounted(w) && t in w.threads && w.threads[t].Driven?
    ensures Accounted(DoView(w, t))
  {
    var id := w.store.heap[w.threads[t].r].correlationID;
    var w1 := Viewed(w, t);
    if id in w.store.byID {
      ExpiredAccounted(w, w.store.byID[id]);
    }
    assert Balanced(w1, w.threads[t].r);
    ViewTouches(w, t);
    LocalAccounted(w1, DoView(w, t), w.threads[t].r, t);
  }

  // Talking to the SDK and upstream.

  lemma ResumeAccounted(w: World, t: Tid, reply: SdkReply)
    requires Accounted(w) && t in w.threads && w.threads[t].Claimed?
    ensures Accounted(DoResume(w, t, reply))
  {
    var r := w.threads[t].r;
    assert Balanced(w, r);
    assert Holder(w, r, t);
    LocalAccounted(w, DoResume(w, t, reply), r, t);
  }

  lemma ResumeHTTPAccounted(w: World, t: Tid, reply: SdkReply)
    requires Accounted(w) && t in w.threads && w.threads[t].Responded?
    ensures Accounted(DoResumeHTTP(w, t, reply))
  {
    var r := w.threads[t].r;
    assert Balanced(w, r);
    assert Holder(w, r, t);
    LocalAccounted(w, DoResumeHTTP(w, t, reply), r, t);
  }

  lemma UpstreamAccounted(w: World, t: Tid, response: Option<(int, Bytes)>)
    requires Accounted(w) && t in w.threads && w.threads[t].Planned? && w.threads[t].plan.Effect?
    ensures Accounted(DoUpstream(w, t, response))
  {
    var r := w.threads[t].r;
    assert Balanced(w, r);
    assert Holder(w, r, t);
    LocalAccounted(w, DoUpstream(w, t, response), r, t);
  }

  // Writes that neither claim nor release.

  lemma BegunAccounted(w: World, t: Tid)
    requires Accounted(w) && t in w.threads && w.threads[t].Created?
    ensures Accounted(DoBegun(w, t))
  {
    var r := w.threads[t].r;
    assert Balanced(w, r);
    LocalAccounted(w, DoBegun(w, t), r, t);
  }

  lemma KeepHandleAccounted(w: World, t: Tid)
    requires Accounted(w) && t in w.threads && w.threads[t].Got?
    ensures Accounted(DoKeepHandle(w, t))
  {
    var r := w.threads[t].r;
    assert Balanced(w, r);
    assert Holder(w, r, t);
    LocalAccounted(w, DoKeepHandle(w, t), r, t);
  }

  lemma ReopenAccounted(w: World, t: Tid)
    requires Accounted(w) && t in w.threads && w.threads[t].Indexed?
    ensures Accounted(DoReopen(w, t))
  {
    var r := w.threads[t].r;
    assert Balanced(w, r);
    LocalAccounted(w, DoReopen(w, t), r, t);
  }

  lemma SettleAccounted(w: World, t: Tid)
    requires Accounted(w) && t in w.threads && w.threads[t].Planned? && (w.threads[t].plan.Finish? || w.threads[t].plan.Fail?)
    ensures Accounted(DoSettle(w, t))
  {
    var r := w.threads[t].r;
    assert Balanced(w, r);
    assert Holder(w, r, t);
    LocalAccounted(w, DoSettle(w, t), r, t);
  }

  // The two releases.

  lemma IndexAccounted(w: World, t: Tid)
    requires Accounted(w) && t in w.threads && w.threads[t].Planned? && w.threads[t].plan.Index?
    ensures Accounted(DoIndex(w, t))
  {
    var r := w.threads[t].r;
    assert Balanced(w, r);
    assert Holder(w, r, t);
    LocalAccounted(w, DoIndex(w, t), r, t);
  }

  lemma FinalizeAccounted(w: World, t: Tid)
    requires Accounted(w) && t in w.threads && w.threads[t].Finalizing?
    ensures Accounted(DoFinalize(w, t))
  {
    var r := w.threads[t].r;
    assert Balanced(w, r);
    assert Holder(w, r, t);
    LocalAccounted(w, DoFinalize(w, t), r, t);
  }

  lemma ReturnAccounted(w: World, t: Tid)
    requires Accounted(w) && t in w.threads && (w.threads[t].Begun? || w.threads[t].Answered?)
    ensures Accounted(DoReturn(w, t).0)
  {
    ReturnTouches(w, t);
    ThreadEndAccounted(w, DoReturn(w, t).0, t);
  }

  /** A thread that holds nothing may go. */
  lemma ThreadEndAccounted(w: World, w': World, t: Tid)
    requires Accounted(w) && t in w.threads && !Holds(w.threads[t]) && w.threads[t].r in w.store.heap
    requires Touches(w, w', w.threads[t].r, t) && w'.store == w.store && t !in w'.threads && w.threads[t].r in w'.hist
    requires w'.hist[w.threads[t].r] == w.hist[w.threads[t].r].(owner := w'.hist[w.threads[t].r].owner)
    ensures Accounted(w')
  {
    assert Balanced(w, w.threads[t].r);
    LocalAccounted(w, w', w.threads[t].r, t);
  }

  lemma StartAccounted(w: World, t: Tid, r: Ref, id: string, clientState: string, conformance: string, reply: SdkReply)
    requires Accounted(w) && Enabled(w, Start(t, r, id, clientState, conformance, reply))
    ensures Accounted(DoStart(w, t, r, id, clientState, conformance, reply).0)
  {
    var w' := DoStart(w, t, r, id, clientState, conformance, reply).0;
    if Emits(w.cfg, reply).Some? {
      BirthAccounted(w, w', t, r);
    }
  }

  /** A session's history begins with one thread that holds nothing yet. */
  lemma BirthAccounted(w: World, w': World, t: Tid, r: Ref)
    requires Accounted(w) && t !in w.threads && r !in w.hist && w'.store == w.store
    requires t in w'.threads && w'.threads[t].Starting? && w'.threads[t].r == r && w'.threads == w.threads[t := w'.threads[t]]
    requires r in w'.hist && w'.hist == w.hist[r := w'.hist[r]] && w'.hist[r].claims == w'.hist[r].releases == 0
    ensures Accounted(w')
  {
    forall r' | r' in w'.hist ensures Balanced(w', r') {
      if r' in w.hist {
        assert Balanced(w, r');
        forall u ensures Holder(w', r', u) <==> Holder(w, r', u) {
        }
      }
    }
  }

  lemma SweptAccounted(w: World)
    requires Accounted(w)
    ensures Accounted(Swept(w))
  {
    SameBooks(w, Swept(w));
  }

  /** Only the accounts matter, not the indexes or the clock. */
  lemma SameBooks(w: World, w': World)
    requires Accounted(w) && Closed(w'.store)
    requires w'.store.heap == w.store.heap && w'.threads == w.threads && w'.hist == w.hist
    ensures Accounted(w')
  {
    forall r | r in w'.hist ensures Balanced(w', r) {
      assert Balanced(w, r);
      forall u ensures Holder(w', r, u) <==> Holder(w, r, u) {
      }
    }
  }

  lemma InsertedAccounted(w: World, t: Tid)
    requires Accounted(w) && t in w.threads && w.threads[t].Starting?
    ensures Accounted(Inserted(w, t))
  {
    var w' := Inserted(w, t);
    var r := w.threads[t].r;
    assert Balanced(w, r);
    forall u ensures !Holder(w', r, u) {
    }
    forall r' | r' in w'.hist ensures Balanced(w', r') {
      if r' != r {
        assert Balanced(w, r');
        forall u ensures Holder(w', r', u) <==> Holder(w, r', u) {
        }
      }
    }
  }

  lemma NewAccounted(w: World, t: Tid, reading: int)
    requires Accounted(w) && t in w.threads && w.threads[t].Starting?
    ensures Accounted(DoNew(w, t, reading))
  {
    SweptAccounted(w);
    SameBooks(Swept(w), Swept(w).(now := reading));
    InsertedAccounted(Swept(w).(now := reading), t);
    NewIsSweepTickInsert(w, t, reading);
  }

  lemma PollAccounted(w: World, id: string, what: Observation)
    requires Accounted(w)
    ensures Accounted(DoPoll(w, id, what).0)
  {
    if id in w.store.byID {
      ExpiredAccounted(w, w.store.byID[id]);
    }
  }

  lemma PlannedAccounted(w: World, t: Tid, input: Input)
    requires Accounted(w) && t in w.threads && w.threads[t].Planned? && InputFits(w.threads[t], input)
    ensures Accounted(DoPlanned(w, t, input))
  {
    match w.threads[t].plan
    case Effect(_) => UpstreamAccounted(w, t, input.response);
    case Index(_, _) => IndexAccounted(w, t);
    case _ => SettleAccounted(w, t);
  }

  lemma AdvanceAccounted(w: World, t: Tid, input: Input)
    requires Accounted(w) && Enabled(w, Advance(t, input))
    ensures Accounted(DoAdvance(w, t, input).0)
  {
    match w.threads[t]
    case Starting(_, _, _, _, _, _) => NewAccounted(w, t, input.reading);
    case Found(_, _) => ClaimAccounted(w, t);
    case Driven(_, _, _, _, _) => ViewAccounted(w, t);
    case Begun(_, _, _) => ReturnAccounted(w, t);
    case Answered(_, _, _, _, _) => ReturnAccounted(w, t);
    case Created(_, _, _, _) => BegunAccounted(w, t);
    case Claimed(_, _, _) => ResumeAccounted(w, t, input.reply);
    case Responded(_, _, _, _, _) => ResumeHTTPAccounted(w, t, input.reply);
    case Got(_, _, _) => KeepHandleAccounted(w, t);
    case Planned(_, _, _, plan) => PlannedAccounted(w, t, input);
    case Indexed(_, _, _, _) => ReopenAccounted(w, t);
    case Finalizing(_, _, _) => FinalizeAccounted(w, t);
  }

  /** Whatever the environment does, every step keeps the accounts. */
  lemma StepAccounted(w: World, a: Action)
    requires Accounted(w) && Enabled(w, a)
    ensures Accounted(Apply(w, a).0)
  {
    match a
    case Tick(reading) => SameBooks(w, w.(now := reading));
    case Poll(id, what) => PollAccounted(w, id, what);
    case Start(t, r, id, clientState, conformance, reply) => StartAccounted(w, t, r, id, clientState, conformance, reply);
    case Callback(t, req) => LookupAccounted(w, t, req);
    case Advance(t, input) => AdvanceAccounted(w, t, input);
  }

  lemma {:induction false} RunAccounted(w: World, run: seq<Action>, assumed: Assumed)
    requires Accounted(w) && Admissible(w, run, assumed)
    ensures Accounted(Exec(w, run, assumed))
    decreases |run|
  {
    if run != [] {
      StepAccounted(w, run[0]);
      RunAccounted(Apply(w, run[0]).0, run[1..], assumed);
    }
  }

  lemma ReachedAccounted(w: World, assumed: Assumed)
    requires Reached(w, assumed)
    ensures Accounted(w)
  {
    var w0: World, run: seq<Action> :| LeadsFromStart(w0, run, w, assumed);
    RunAccounted(w0, run, assumed);
  }

  /** Mutual exclusion, with no hypothesis at all on callbacks, names, states or the clock: claims minus
      releases is 1 while the session is being resumed and 0 otherwise, and a session is being resumed
      exactly when one thread, and only one, is between claim and release. */
  lemma MutualExclusion(w: World, r: Ref)
    requires Reached(w, NOTHING) && r in w.store.heap
    ensures r in w.hist
    ensures w.hist[r].claims - w.hist[r].releases == if w.store.heap[r].resuming then 1 else 0
    ensures w.store.heap[r].resuming <==> exists t :: Holder(w, r, t)
    ensures forall t, u :: Holder(w, r, t) && Holder(w, r, u) ==> t == u
  {
    ReachedAccounted(w, NOTHING);
    assert Balanced(w, r);
  }

  /** So SDK resumes and upstream calls for one session never overlap: while one thread is between
      claim and release every other thread's claim is refused. */
  lemma NoSecondClaim(w: World, r: Ref, t: Tid, now: int)
    requires Reached(w, NOTHING) && Holder(w, r, t) && r in w.store.heap
    ensures Consume(w.store, r, now).1.Err?
  {
    MutualExclusion(w, r);
  }
}
