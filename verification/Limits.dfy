/** Where the hypotheses are needed: what happens without H3 or H4, and exactly when. */
module Limits {
  import opened Basics
  import opened Steps
  import opened SessionStore
  import opened HttpApi
  import opened Protocol
  import opened Effects
  import opened Ledger
  import opened Custody
  import opened Executions
  import opened Storage
  import opened Spending
  import opened Settlement
  import opened Invariant
  import opened Preservation
  import opened StepInvariants
  import opened StartInvariants
  import opened Runs
  import opened Safety
  import opened Transparency

  // --- Exact conditions ------------------------------------------------------------

  /** A claim that succeeds pairs the SDK's last handle with the state emitted with it if and only if
      the session still holds the state the callback looked up, which is what H4 asks. The claim
      itself does not check it. */
  lemma PairedIffCurrent(w: World, t: Tid, denied: bool, payload: string, out: SdkReply)
    requires Reachable(w) && t in w.threads && w.threads[t].Found?
    requires Consume(w.store, w.threads[t].r, w.now).1.Ok?
    ensures var th := w.threads[t];
            var handle := Consume(w.store, th.r, w.now).1.value;
            Follows(w.cfg, LastReply(w.hist[th.r].calls), RedirectCall(handle, denied, payload, th.req.state, out))
            <==> w.store.heap[th.r].oauthState == th.req.state
  {
    ReachableInv(w);
    PairedNow(w, t, denied, payload, out);
  }

  lemma PairedNow(w: World, t: Tid, denied: bool, payload: string, out: SdkReply)
    requires Inv(w) && t in w.threads && w.threads[t].Found? && Consume(w.store, w.threads[t].r, w.now).1.Ok?
    ensures var th := w.threads[t];
            var handle := Consume(w.store, th.r, w.now).1.value;
            Follows(w.cfg, LastReply(w.hist[th.r].calls), RedirectCall(handle, denied, payload, th.req.state, out))
            <==> w.store.heap[th.r].oauthState == th.req.state
  {
    var r, x := w.threads[t].r, w.threads[t].req.state;
    FoundIsHandedOut(w, t);
    assert SessionAt(w, r);
    if w.store.heap[r].oauthState == x {
      ClaimFindsRest(w, t);
    } else {
      LastIsAwaited(w, r, x);
      assert w.hist[r].calls[|w.hist[r].calls| - 1].out == LastReply(w.hist[r].calls);
    }
  }

  /** Exactly when a state reaches the SDK a second time: a granted claim takes its callback's state to
      the SDK again if and only if the session no longer waits for that state. `ConsumeForResume` could
      look. */
  lemma ReturnsAgainIff(w: World, t: Tid)
    requires Reachable(w) && t in w.threads && w.threads[t].Found?
    requires Consume(w.store, w.threads[t].r, w.now).1.Ok?
    ensures (exists i :: IsReturnOf(w, w.threads[t].r, i, w.threads[t].req.state))
            <==> w.store.heap[w.threads[t].r].oauthState != w.threads[t].req.state
  {
    ReachableInv(w);
    ReachedNamed(w, ALL);
    var r, x := w.threads[t].r, w.threads[t].req.state;
    if w.store.heap[r].oauthState == x {
      forall i ensures !IsReturnOf(w, r, i, x) {
        if IsReturnOf(w, r, i, x) { CurrentIsUnspent(w, t, i); }
      }
    } else {
      var i := EmittedEarlier(w, t);
      assert Follows(w.cfg, w.hist[r].calls[(i + 1) - 1].out, w.hist[r].calls[i + 1]) by { assert SessionAt(w, r); }
      assert IsReturnOf(w, r, i + 1, x);
    }
  }

  lemma CurrentIsUnspent(w: World, t: Tid, i: int)
    requires Inv(w) && t in w.threads && w.threads[t].Found? && Consume(w.store, w.threads[t].r, w.now).1.Ok?
    requires w.store.heap[w.threads[t].r].oauthState == w.threads[t].req.state
    ensures !IsReturnOf(w, w.threads[t].r, i, w.threads[t].req.state)
  {
    var r := w.threads[t].r;
    ClaimFindsRest(w, t);
    assert SessionAt(w, r);
    if IsReturnOf(w, r, i, w.threads[t].req.state) {
      ReturnWasEmitted(w, r, i);
    }
  }

  /** The state of a callback that was found, and that its session does not wait for, was emitted before
      the last step of the conversation. */
  lemma EmittedEarlier(w: World, t: Tid) returns (i: int)
    requires Inv(w) && Named(w) && t in w.threads && w.threads[t].Found? && Consume(w.store, w.threads[t].r, w.now).1.Ok?
    requires w.store.heap[w.threads[t].r].oauthState != w.threads[t].req.state
    ensures var calls := w.hist[w.threads[t].r].calls;
            0 <= i < |calls| - 1 && Emits(w.cfg, calls[i].out) == Some(w.threads[t].req.state)
  {
    FoundIsHandedOut(w, t);
    LastIsAwaited(w, w.threads[t].r, w.threads[t].req.state);
    i := EmittedSomewhere(w, w.threads[t].r, w.threads[t].req.state);
  }

  lemma FoundIsHandedOut(w: World, t: Tid)
    requires Journeys(w) && t in w.threads && w.threads[t].Found?
    ensures w.threads[t].req.state in w.published && IssuedTo(w.issued, w.threads[t].req.state, w.threads[t].r)
  {
    assert ThreadAt(w, t);
  }

  lemma EmittedSomewhere(w: World, r: Ref, x: string) returns (i: int)
    requires Named(w) && IssuedTo(w.issued, x, r)
    ensures r in w.hist && EmittedAt(w.cfg, w.hist[r].calls, i, x)
  {
    assert IssuedHome(w, x);
    i :| EmittedAt(w.cfg, w.hist[r].calls, i, x);
  }

  /** A session whose claim is granted waits for the state the SDK emitted last, if that has been handed
      out. */
  lemma LastIsAwaited(w: World, r: Ref, x: string)
    requires Inv(w) && r in w.store.heap && Consume(w.store, r, w.now).1.Ok? && x in w.published
    requires w.store.heap[r].oauthState != x
    ensures var calls := w.hist[r].calls; |calls| > 0 && Emits(w.cfg, calls[|calls| - 1].out) != Some(x)
  {
    assert SessionAt(w, r) && OwnerLive(w, r);
    assert LastReply(w.hist[r].calls) == w.hist[r].calls[|w.hist[r].calls| - 1].out;
  }

  /** The session of a call about to index its next state, as a poll just before would leave it. */
  ghost function PolledBefore(w: World, t: Tid): World
    requires Linked(w) && t in w.threads && w.threads[t].r in w.hist
  {
    DoPoll(w, w.hist[w.threads[t].r].id, StatusPoll).0
  }

  /** Exactly when a poll can be seen, under H1 and H2 alone. A call is about to index `x`. A callback that
      brings `x` back right after `SetState` is answered alike whether or not somebody polled the session
      just before it, if and only if the session's deadline had not passed unmarked. */
  lemma PollUnseenIff(w: World, t: Tid)
    requires Reached(w, H1_H2) && t in w.threads && w.threads[t].Planned? && w.threads[t].plan.Index?
    ensures Linked(w) && Linked(PolledBefore(w, t)) && Linked(DoIndex(w, t)) && Linked(DoIndex(PolledBefore(w, t), t))
    ensures var r, x := w.threads[t].r, w.threads[t].plan.state;
            var plain, polled := DoIndex(w, t).store, DoIndex(PolledBefore(w, t), t).store;
            (GetByState(plain, x, w.now).1 == GetByState(polled, x, w.now).1) <==> !Due(w.store.heap[r], w.now)
  {
    ReachedCustody(w, H1_H2);
    StatesAreNamed(w, t);
    var r, x := w.threads[t].r, w.threads[t].plan.state;
    PollCustody(w, w.hist[r].id, StatusPoll);
    IndexCustody(w, t);
    IndexCustody(PolledBefore(w, t), t);
    PollIsExpiry(w, t);
    FoundAfterIndex(w, t);
    FoundAfterIndex(PolledBefore(w, t), t);
  }

  lemma StatesAreNamed(w: World, t: Tid)
    requires Reached(w, H1_H2) && t in w.threads && w.threads[t].Planned? && w.threads[t].plan.Index?
    ensures w.threads[t].plan.state != ""
  {
    ReachedEarnest(w, H1_H2);
    assert ThreadEarnest(w, t);
    PlanIsSound(w.cfg, w.hist[w.threads[t].r].calls, w.threads[t].plan);
  }

  /** A claimed session is stored, so a poll of its id looks at it. */
  lemma PollIsExpiry(w: World, t: Tid)
    requires Orderly(w) && t in w.threads && w.threads[t].Planned? && w.threads[t].plan.Index?
    ensures PolledBefore(w, t) == Expired(w, w.threads[t].r)
  {
    IndexIsSafe(w, t);
    assert Kept(w, w.threads[t].r);
  }

  /** Right after `SetState` the new state finds its session, unless the deadline has passed unmarked. */
  lemma FoundAfterIndex(w: World, t: Tid)
    requires Orderly(w) && t in w.threads && w.threads[t].Planned? && w.threads[t].plan.Index? && w.threads[t].plan.state != ""
    ensures Closed(DoIndex(w, t).store)
    ensures var r := w.threads[t].r;
            GetByState(DoIndex(w, t).store, w.threads[t].plan.state, w.now).1 == (if Due(w.store.heap[r], w.now) then None else Some(r))
  {
    var r, x := w.threads[t].r, w.threads[t].plan.state;
    IndexIsSafe(w, t);
    IndexConsistent(w, t);
    IndexPuts(w, t);
    var st := DoIndex(w, t).store;
    FindsOrNot(st, x, w.now, r);
  }

  lemma FindsOrNot(st: Store<Ref>, state: string, now: int, r: Ref)
    requires Consistent(st) && ScanFinds(st, state, r)
    ensures GetByState(st, state, now).1 == (if Due(st.heap[r], now) then None else Some(r))
  {
    LookupIsScan(st, state, now, r);
    var found := GetByState(st, state, now).1;
    if found.Some? { LookupIsScan(st, state, now, found.value); }
  }

  lemma FoundOpenOrMarked(w: World, state: string, r: Ref)
    requires Orderly(w)
    ensures GetByState(w.store, state, w.now).1 == Some(r) <==>
              || FindsMarked(w, state, r)
              || (ScanFinds(w.store, state, r) && !w.store.heap[r].status.Terminal() && !PastDeadline(w.store.heap[r], w.now))
  {
    LookupIsScan(w.store, state, w.now, r);
  }

  lemma MarkedCarriesOver(w: World, v: World, state: string, r: Ref)
    requires Orderly(w) && Orderly(v) && Sim(w, v)
    requires forall r' :: FindsMarked(w, state, r') <==> FindsMarked(v, state, r')
    requires GetByState(w.store, state, w.now).1 == Some(r)
    ensures GetByState(v.store, state, v.now).1 == Some(r)
  {
    FoundOpenOrMarked(w, state, r);
    FoundOpenOrMarked(v, state, r);
    assert Alike(w.now, w.store.heap[r], v.store.heap[r]);
  }

  /** Without H3, under H1 and H2 alone: a lookup answers alike in two worlds that differ only by polls if
      and only if the same session is found marked failed in both. */
  lemma LookupsAgreeIff(w: World, v: World, state: string)
    requires Reached(w, H1_H2) && Reached(v, H1_H2) && Sim(w, v)
    ensures Linked(w) && Linked(v)
    ensures GetByState(w.store, state, w.now).1 == GetByState(v.store, state, v.now).1
            <==> forall r :: FindsMarked(w, state, r) <==> FindsMarked(v, state, r)
  {
    ReachedCustody(w, H1_H2);
    ReachedCustody(v, H1_H2);
    var fw, fv := GetByState(w.store, state, w.now).1, GetByState(v.store, state, v.now).1;
    if fw == fv {
      forall r ensures FindsMarked(w, state, r) <==> FindsMarked(v, state, r) {
        if FindsMarked(w, state, r) { MarkedSameSide(w, v, state, r); }
        if FindsMarked(v, state, r) { SimSymmetric(w, v); MarkedSameSide(v, w, state, r); }
      }
    }
    if forall r :: FindsMarked(w, state, r) <==> FindsMarked(v, state, r) {
      SimSymmetric(w, v);
      if fw.Some? { MarkedCarriesOver(w, v, state, fw.value); }
      if fv.Some? { MarkedCarriesOver(v, w, state, fv.value); }
    }
  }

  /** A session found marked on one side, and found at all on the other, is marked there too. */
  lemma MarkedSameSide(w: World, v: World, state: string, r: Ref)
    requires Orderly(w) && Orderly(v) && Sim(w, v) && FindsMarked(w, state, r)
    requires GetByState(v.store, state, v.now).1 == GetByState(w.store, state, w.now).1
    ensures FindsMarked(v, state, r)
  {
    FoundOpenOrMarked(w, state, r);
    FoundOpenOrMarked(v, state, r);
    assert Kept(w, r);
    assert Alike(w.now, w.store.heap[r], v.store.heap[r]);
  }
}
