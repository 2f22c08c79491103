/** What holds in every reachable world, and along every run, under H1-H4. */
module Safety {
  import opened Basics
  import opened Steps
  import opened SessionStore
  import opened HttpApi
  import opened Protocol
  import opened Effects
  import opened Ledger
  import opened Custody
  import opened Storage
  import opened Spending
  import opened Executions
  import opened Invariant
  import opened Preservation
  import opened StepInvariants
  import opened StartInvariants
  import opened Runs

  // --- The active call --------------------------------------------------------------

  /** At most one call is active on a session, from its claim, or its start, to its return: not only
      between claim and release. */
  lemma OneActiveCall(w: World, t: Tid, u: Tid)
    requires Reachable(w) && t in w.threads && u in w.threads && w.threads[t].r == w.threads[u].r
    requires Owns(w.threads[t]) && Owns(w.threads[u])
    ensures t == u
  {
    ReachableInv(w);
    assert ThreadAt(w, t) && ThreadAt(w, u);
  }

  // --- One-shot states, linear handles ---------------------------------------------

  /** Every SDK call for a session uses the handle the previous call returned, and a redirect return
      brings the state emitted with it. */
  lemma HandlesAreLinear(w: World, r: Ref, i: int)
    requires Reachable(w) && r in w.hist && 0 < i < |w.hist[r].calls|
    ensures var prev, call := w.hist[r].calls[i - 1].out, w.hist[r].calls[i];
            prev.Stepped? && !call.BeginCall?
            && call.handle == prev.res.handle
            && (call.RedirectCall? ==> Emits(w.cfg, prev) == Some(call.state))
            && (call.HttpCall? ==> Decide(w.cfg, prev.res).Effect?)
  {
    ReachableInv(w);
    assert SessionAt(w, r);
    assert Follows(w.cfg, w.hist[r].calls[i - 1].out, w.hist[r].calls[i]);
  }

  lemma ReturnWasEmitted(w: World, r: Ref, i: int)
    requires Inv(w) && r in w.hist && 0 <= i < |w.hist[r].calls| && w.hist[r].calls[i].RedirectCall?
    ensures i > 0 && Emits(w.cfg, w.hist[r].calls[i - 1].out) == Some(w.hist[r].calls[i].state)
    ensures IssuedTo(w.issued, w.hist[r].calls[i].state, r)
  {
    assert SessionAt(w, r);
    assert i > 0;
    assert Follows(w.cfg, w.hist[r].calls[i - 1].out, w.hist[r].calls[i]);
  }

  /** Of all callbacks carrying one state, at most one has claimed the session or entered the SDK:
      a thread about to resume with the state excludes a past resume and any other such thread. */
  lemma OneEntrant(w: World, t: Tid)
    requires Reachable(w) && t in w.threads && w.threads[t].Claimed?
    ensures forall r, i :: !IsReturnOf(w, r, i, w.threads[t].req.state)
    ensures forall u | u in w.threads && w.threads[u].Claimed? && w.threads[u].req.state == w.threads[t].req.state :: u == t
  {
    ReachableInv(w);
    var th := w.threads[t];
    var x := th.req.state;
    assert SessionAt(w, th.r) && ThreadAt(w, t);
    var calls := w.hist[th.r].calls;
    assert Emits(w.cfg, calls[|calls| - 1].out) == Some(x);
    LastEmission(w.cfg, th.r, calls, w.issued);
    forall r, i | IsReturnOf(w, r, i, x) ensures false {
      ReturnWasEmitted(w, r, i);
    }
    forall u | u in w.threads && w.threads[u].Claimed? && w.threads[u].req.state == x ensures u == t {
      assert ThreadAt(w, u);
      var r := w.threads[u].r;
      assert SessionAt(w, r);
      LastEmission(w.cfg, r, w.hist[r].calls, w.issued);
    }
  }

  // --- Rest --------------------------------------------------------------------------

  ghost predicate NoActiveCall(w: World, r: Ref) {
    forall t | t in w.threads && w.threads[t].r == r :: !Owns(w.threads[t])
  }

  /** A session no call is active on, before its deadline, is either waiting or finished. A waiting
      one is stored, indexed under exactly the state the SDK emitted last and holds the SDK's last
      handle, so the next callback is found and claims it: no journey is stuck. A finished one has
      neither state nor handle. */
  lemma RestDichotomy(w: World, r: Ref)
    requires Reachable(w) && r in w.store.heap && NoActiveCall(w, r) && w.now <= w.store.heap[r].expiresAt
    ensures var rec, h := w.store.heap[r], w.hist[r];
            if rec.status.Terminal() then
              && h.settled.Some? && rec.oauthState == "" && rec.handle == []
              && forall x :: !ScanFinds(w.store, x, r)
            else
              && LastPlan(w.cfg, h.calls).Index?
              && var x := LastPlan(w.cfg, h.calls).state;
                 && rec.oauthState == x && rec.handle == LastHandle(h.calls)
                 && (forall y | y in w.store.byState :: w.store.byState[y] == rec.correlationID <==> y == x)
                 && GetByState(w.store, x, w.now).1 == Some(r)
                 && Consume(w.store, r, w.now).1 == Ok(LastHandle(h.calls))
  {
    ReachableInv(w);
    RestsAt(w, r);
    if !w.store.heap[r].status.Terminal() {
      WaitsFor(w, r, LastPlan(w.cfg, w.hist[r].calls).state);
    }
  }

  /** A session no call is active on, before its deadline, as its conversation prescribes. */
  lemma RestsAt(w: World, r: Ref)
    requires Inv(w) && r in w.store.heap && NoActiveCall(w, r) && w.now <= w.store.heap[r].expiresAt
    ensures var rec, h := w.store.heap[r], w.hist[r];
            if rec.status.Terminal() then h.settled.Some? && rec.oauthState == "" && rec.handle == []
            else
              && LastPlan(w.cfg, h.calls).Index? && rec.oauthState == LastPlan(w.cfg, h.calls).state && rec.oauthState != ""
              && rec.handle == LastHandle(h.calls) && !rec.resuming
  {
    assert SessionAt(w, r) && OwnerLive(w, r);
    LastPlanSound(w.cfg, w.hist[r].calls);
  }

  /** A stored session that waits for a state is found by that state and no other. */
  lemma WaitsFor(w: World, r: Ref, x: string)
    requires Orderly(w) && r in w.store.heap && w.store.heap[r].oauthState == x != ""
    requires !w.store.heap[r].status.Terminal() && !PastDeadline(w.store.heap[r], w.now)
    ensures forall y | y in w.store.byState :: w.store.byState[y] == w.store.heap[r].correlationID <==> y == x
    ensures GetByState(w.store, x, w.now).1 == Some(r)
  {
    assert Kept(w, r);
    LookupIsScan(w.store, x, w.now, r);
    StateOfIs(w.store, r);
  }

  lemma StateOfIs(st: Store<Ref>, r: Ref)
    requires Consistent(st) && Stored(st, r) && st.heap[r].oauthState != ""
    ensures forall y | y in st.byState :: st.byState[y] == st.heap[r].correlationID <==> y == st.heap[r].oauthState
  {
    assert st.heap[st.byID[st.heap[r].correlationID]].oauthState == st.heap[r].oauthState;
  }

  lemma LastPlanSound(cfg: Config, calls: seq<Call>)
    ensures LastPlan(cfg, calls).Index? ==> LastPlan(cfg, calls).state != "" && LastPlan(cfg, calls).url != ""
    ensures LastPlan(cfg, calls).Finish? ==> LastPlan(cfg, calls).pdf != []
    ensures LastPlan(cfg, calls).Fail? ==> LastPlan(cfg, calls).reason != "" && LastPlan(cfg, calls).status != Completed
  {
    match LastReply(calls)
    case SdkError =>
    case Stepped(res) => DecideIsSound(cfg, res);
  }

  // --- Completed means signed ----------------------------------------------------------

  /** A session is completed exactly when it has a PDF; that PDF and the evidence are those of the
      SDK's last reply, a valid `done` step, and no earlier reply of the conversation was one. */
  lemma CompletedMeansSigned(w: World, r: Ref)
    requires Reachable(w) && r in w.store.heap
    ensures var rec, calls := w.store.heap[r], w.hist[r].calls;
            && (rec.status == Completed <==> rec.resultPDF != [])
            && (rec.status == Completed ==> LastPlan(w.cfg, calls) == Finish(rec.resultPDF, rec.evidence))
            && (forall i | 0 <= i < |calls| - 1 && calls[i].out.Stepped? :: !Decide(w.cfg, calls[i].out.res).Finish?)
  {
    ReachableInv(w);
    assert SessionAt(w, r);
    var calls := w.hist[r].calls;
    LastPlanSound(w.cfg, calls);
    forall i | 0 <= i < |calls| - 1 && calls[i].out.Stepped? ensures !Decide(w.cfg, calls[i].out.res).Finish? {
      assert Follows(w.cfg, calls[(i + 1) - 1].out, calls[i + 1]);
    }
  }
}
