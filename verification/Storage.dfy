/** What the store keeps, and for how long: what needs nothing assumed, and what needs H1 and H2. */
module Storage {
  import opened Basics
  import opened Steps
  import opened SessionStore
  import opened HttpApi
  import opened Protocol
  import opened Executions
  import opened Effects
  import opened Ledger
  import opened Custody

  // --- Eviction ------------------------------------------------------------------

  /** A claimed session is in the store; a session that has left it is past its grace period and
      refuses every claim. */
  lemma EvictionNeverMeetsClaim(w: World, r: Ref)
    requires Reached(w, H1_H2) && r in w.store.heap
    ensures w.store.heap[r].resuming ==> Stored(w.store, r)
    ensures !Stored(w.store, r) ==> w.now > w.store.heap[r].expiresAt + 300_000_000_000
    ensures !Stored(w.store, r) ==> Consume(w.store, r, w.now).1 == Err(ErrTerminal)
  {
    ReachedCustody(w, H1_H2);
    assert Kept(w, r);
  }

  /** Session `r` is the same session later, and not back in the store if it had left it. */
  ghost predicate SameIdentity(w: World, w': World, r: Ref)
    requires r in w.store.heap
  {
    && r in w'.store.heap
    && w'.store.heap[r].correlationID == w.store.heap[r].correlationID
    && w'.store.heap[r].clientState == w.store.heap[r].clientState
    && w'.store.heap[r].createdAt == w.store.heap[r].createdAt
    && w'.store.heap[r].expiresAt == w.store.heap[r].expiresAt
    && (Stored(w'.store, r) ==> Stored(w.store, r))
  }

  lemma ExpireKeepsIds(w: World, r': Ref, r: Ref)
    requires r in w.store.heap && r' in w.store.heap
    ensures Expired(w, r').store.byID == w.store.byID && SameIdentity(w, Expired(w, r'), r)
  {
  }

  /** Every step but the creation of a session leaves the id index alone. */
  lemma StepKeepsIds(w: World, a: Action, r: Ref)
    requires Linked(w) && Enabled(w, a) && r in w.store.heap
    requires !(a.Advance? && w.threads[a.t].Starting?)
    ensures Apply(w, a).0.store.byID == w.store.byID && SameIdentity(w, Apply(w, a).0, r)
  {
    match a {
      case Poll(id, _) => if id in w.store.byID { ExpireKeepsIds(w, w.store.byID[id], r); }
      case Callback(t, req) => LookupKeepsIds(w, t, req, r);
      case Advance(t, input) => AdvanceKeepsIds(w, t, input, r);
      case _ =>
    }
  }

  lemma LookupKeepsIds(w: World, t: Tid, req: Request, r: Ref)
    requires Linked(w) && t !in w.threads && r in w.store.heap
    ensures var w' := DoLookup(w, t, req).0; w'.store.byID == w.store.byID && SameIdentity(w, w', r)
  {
    if Valid(req) && req.state in w.store.byState && w.store.byState[req.state] != "" && w.store.byState[req.state] in w.store.byID {
      ExpireKeepsIds(w, w.store.byID[w.store.byState[req.state]], r);
    }
  }

  lemma AdvanceKeepsIds(w: World, t: Tid, input: Input, r: Ref)
    requires Linked(w) && Enabled(w, Advance(t, input)) && r in w.store.heap && !w.threads[t].Starting?
    ensures var w' := DoAdvance(w, t, input).0; w'.store.byID == w.store.byID && SameIdentity(w, w', r)
  {
    match w.threads[t] {
      case Found(_, _) => ClaimKeepsIds(w, t, r);
      case Driven(_, _, _, _, _) => ViewKeepsIds(w, t, r);
      case Begun(_, _, _) => ReturnTouches(w, t);
      case Answered(_, _, _, _, _) => ReturnTouches(w, t);
      case Starting(_, _, _, _, _, _) =>
      case _ =>
        AdvancePuts(w, t, input);
        PutKeepsIds(w, DoAdvance(w, t, input).0, t, input, r);
    }
  }

  lemma ClaimKeepsIds(w: World, t: Tid, r: Ref)
    requires Linked(w) && t in w.threads && w.threads[t].Found? && r in w.store.heap
    ensures DoClaim(w, t).store.byID == w.store.byID && SameIdentity(w, DoClaim(w, t), r)
  {
    ExpireKeepsIds(w, w.threads[t].r, r);
  }

  lemma ViewKeepsIds(w: World, t: Tid, r: Ref)
    requires Linked(w) && t in w.threads && w.threads[t].Driven? && r in w.store.heap
    ensures DoView(w, t).store.byID == w.store.byID && SameIdentity(w, DoView(w, t), r)
  {
    var id := w.store.heap[w.threads[t].r].correlationID;
    if id in w.store.byID {
      ExpireKeepsIds(w, w.store.byID[id], r);
    }
  }

  /** A step that puts a record in the place of its session's keeps its identity. */
  lemma PutKeepsIds(w: World, w': World, t: Tid, input: Input, r: Ref)
    requires t in w.threads && PutsOnly(w.threads[t]) && InputFits(w.threads[t], input) && r in w.store.heap
    requires w.threads[t].r in w.store.heap && w.threads[t].r in w.hist && Advances(w, w', t, input)
    ensures w'.store.byID == w.store.byID && SameIdentity(w, w', r)
  {
  }

  lemma NewKeepsOthers(w: World, t: Tid, reading: int, r: Ref)
    requires Orderly(w) && t in w.threads && w.threads[t].Starting? && r in w.store.heap
    ensures SameIdentity(w, DoNew(w, t, reading), r) && DoNew(w, t, reading).store.heap[r] == w.store.heap[r]
    ensures Stored(w.store, r) && !Stored(DoNew(w, t, reading).store, r) ==> Evictable(w.store.heap[r], w.now)
  {
    BirthIsFresh(w, t);
  }

  /** A session keeps its identity over every step. */
  lemma StepIdentities(w: World, a: Action, r: Ref)
    requires Orderly(w) && Enabled(w, a) && r in w.store.heap
    ensures SameIdentity(w, Apply(w, a).0, r)
  {
    if a.Advance? && w.threads[a.t].Starting? {
      NewKeepsOthers(w, a.t, a.input.reading, r);
    } else {
      StepKeepsIds(w, a, r);
    }
  }

  /** Once evicted, always evicted, and never claimed again, however the run goes on: the pointer a late
      callback still holds is of no use. */
  lemma EvictedForever(w: World, run: seq<Action>, r: Ref)
    requires Reached(w, H1_H2) && Admissible(w, run, H1_H2) && r in w.store.heap && !Stored(w.store, r)
    ensures var w' := Exec(w, run, H1_H2);
            && r in w'.store.heap && !Stored(w'.store, r) && !w'.store.heap[r].resuming
            && Consume(w'.store, r, w'.now).1 == Err(ErrTerminal)
  {
    ReachedCustody(w, H1_H2);
    EvictedStays(w, run, r);
    RunCustody(w, run, H1_H2);
    assert Kept(Exec(w, run, H1_H2), r);
  }

  lemma {:induction false} EvictedStays(w: World, run: seq<Action>, r: Ref)
    requires Orderly(w) && Admissible(w, run, H1_H2) && r in w.store.heap && !Stored(w.store, r)
    ensures r in Exec(w, run, H1_H2).store.heap && !Stored(Exec(w, run, H1_H2).store, r)
    decreases |run|
  {
    if run != [] {
      StepCustody(w, run[0]);
      if run[0].Advance? && w.threads[run[0].t].Starting? {
        NewKeepsOthers(w, run[0].t, run[0].input.reading, r);
      } else {
        StepKeepsIds(w, run[0], r);
      }
      EvictedStays(Apply(w, run[0]).0, run[1..], r);
    }
  }

  /** `SetState` only ever indexes a session that is in the store, under a state no session has. */
  lemma IndexingIsSafe(w: World, t: Tid)
    requires Reached(w, H1_H2) && t in w.threads && w.threads[t].Planned? && w.threads[t].plan.Index?
    ensures Linked(w) && Stored(w.store, w.threads[t].r)
    ensures w.threads[t].plan.state !in w.store.byState
  {
    ReachedCustody(w, H1_H2);
    IndexIsSafe(w, t);
    IndexedIsHeld(w.store, w.threads[t].plan.state);
  }

  lemma IndexedIsHeld(st: Store<Ref>, state: string)
    requires Consistent(st)
    ensures state in st.byState ==> state != "" && exists r :: r in st.heap && st.heap[r].oauthState == state
  {
    if state in st.byState {
      var r := st.byID[st.byState[state]];
      assert r in st.heap && st.heap[r].oauthState == state;
    }
  }

  // --- The index -----------------------------------------------------------------

  /** The index is the scan: a lookup finds `r` exactly when `r` is the one stored session that
      holds the state and is not past its deadline unsettled; claimed sessions are never found. */
  lemma IndexIsScan(w: World, state: string, r: Ref)
    requires Reached(w, H1_H2)
    ensures Linked(w)
    ensures GetByState(w.store, state, w.now).1 == Some(r) <==> ScanFinds(w.store, state, r) && !Due(w.store.heap[r], w.now)
    ensures forall r' | ScanFinds(w.store, state, r) && ScanFinds(w.store, state, r') :: r == r'
    ensures state in w.store.byState <==> exists r' :: ScanFinds(w.store, state, r')
    ensures ScanFinds(w.store, state, r) ==> !w.store.heap[r].resuming
  {
    ReachedCustody(w, H1_H2);
    LookupIsScan(w.store, state, w.now, r);
    if ScanFinds(w.store, state, r) {
      assert Balanced(w, r);
    }
    if state in w.store.byState {
      assert ScanFinds(w.store, state, w.store.byID[w.store.byState[state]]);
    }
    if r' :| ScanFinds(w.store, state, r') {
      assert w.store.heap[w.store.byID[w.store.heap[r'].correlationID]].oauthState == state;
    }
  }

  /** A lookup returns a session that is already marked failed. */
  ghost predicate FindsMarked(w: World, state: string, r: Ref) {
    ScanFinds(w.store, state, r) && w.store.heap[r].status.Terminal()
  }

  /** That happens only while the call that issued the state has not returned, between `SetState` and
      the status write after it, on a session past its deadline. */
  lemma MarkedOnlyInWindow(w: World, state: string, r: Ref)
    requires Reached(w, H1_H2) && FindsMarked(w, state, r)
    ensures exists t :: BetweenWrites(w, r, t, state)
    ensures state in w.issued && state !in w.published && w.now > w.store.heap[r].expiresAt
  {
    ReachedCustody(w, H1_H2);
    MarkedIsUnpublished(w, state, r);
    assert Kept(w, r);
  }

  lemma MarkedIsUnpublished(w: World, state: string, r: Ref)
    requires Orderly(w) && FindsMarked(w, state, r)
    ensures state in w.issued && state !in w.published
  {
    assert Kept(w, r);
    var t :| BetweenWrites(w, r, t, state);
    assert Carried(w, t);
  }

  // --- Retention -------------------------------------------------------------------------

  /** No step drops a session at or before its deadline plus the grace period, or while claimed; only
      the creation of a session drops any. */
  lemma NoEarlyDrop(w: World, a: Action, r: Ref)
    requires Reached(w, H1_H2) && CanStep(w, a, H1_H2)
    requires r in w.store.heap && Stored(w.store, r)
    ensures r in Apply(w, a).0.store.heap
    ensures !Stored(Apply(w, a).0.store, r) ==>
              w.now > w.store.heap[r].expiresAt + 300_000_000_000 && !w.store.heap[r].resuming
              && a.Advance? && w.threads[a.t].Starting?
  {
    ReachedCustody(w, H1_H2);
    if a.Advance? && w.threads[a.t].Starting? {
      NewKeepsOthers(w, a.t, a.input.reading, r);
    } else {
      StepKeepsIds(w, a, r);
    }
  }

  /** With nothing assumed, exactly when a stored session is dropped: when a session is created, and either
      this one is unclaimed and past its grace period, or the new one has the same id. */
  lemma DroppedIff(w: World, a: Action, r: Ref)
    requires Reached(w, NOTHING) && CanStep(w, a, NOTHING) && r in w.store.heap && Stored(w.store, r)
    ensures r in Apply(w, a).0.store.heap
    ensures !Stored(Apply(w, a).0.store, r) <==>
              && a.Advance? && w.threads[a.t].Starting?
              && (|| (!w.store.heap[r].resuming && w.now > w.store.heap[r].expiresAt + 300_000_000_000)
                  || w.hist[w.threads[a.t].r].id == w.store.heap[r].correlationID)
  {
    ReachedAccounted(w, NOTHING);
    if a.Advance? && w.threads[a.t].Starting? {
      NewDropsIff(w, a.t, a.input.reading, r);
    } else {
      StepKeepsIds(w, a, r);
    }
  }

  lemma NewDropsIff(w: World, t: Tid, reading: int, r: Ref)
    requires Accounted(w) && t in w.threads && w.threads[t].Starting? && r in w.store.heap && Stored(w.store, r)
    ensures r in DoNew(w, t, reading).store.heap
    ensures !Stored(DoNew(w, t, reading).store, r) <==>
              Evictable(w.store.heap[r], w.now) || w.hist[w.threads[t].r].id == w.store.heap[r].correlationID
  {
    var id := w.store.heap[r].correlationID;
    assert w.threads[t].r != r;
    assert id in Doomed(w.store, w.now) <==> Evictable(w.store.heap[r], w.now);
  }

  ghost function InFlight(w: World): set<Ref> {
    set r | r in w.store.heap && w.store.heap[r].resuming
  }

  /** The sessions started within `span` before `at`. */
  ghost function StartedSince(w: World, at: int, span: int): set<Ref> {
    set r | r in w.store.heap && at - w.store.heap[r].createdAt <= span
  }

  /** After every `New` each stored session is in flight, or was created within the lifetime plus the
      grace period before the eviction; so the store is no larger than those two groups. */
  lemma RetentionBound(w: World, t: Tid, reading: int)
    requires Reached(w, H1_H2) && CanStep(w, Advance(t, Clock(reading)), H1_H2) && w.threads[t].Starting?
    requires w.cfg.ttl > 0
    ensures var w' := DoNew(w, t, reading);
            && (forall id | id in w'.store.byID ::
                  w'.store.byID[id] in InFlight(w') + StartedSince(w', w.now, w.cfg.ttl + 300_000_000_000))
            && |w'.store.byID| <= |InFlight(w')| + |StartedSince(w', w.now, w.cfg.ttl + 300_000_000_000)|
  {
    ReachedCustody(w, H1_H2);
    NewCustody(w, t, reading);
    var w' := DoNew(w, t, reading);
    var recent := StartedSince(w', w.now, w.cfg.ttl + 300_000_000_000);
    forall id | id in w'.store.byID ensures w'.store.byID[id] in InFlight(w') + recent {
      KeptByNew(w, t, reading, id);
    }
    NoMoreKeysThanValues(w'.store, w'.store.byID.Keys, InFlight(w') + recent);
  }

  lemma KeptByNew(w: World, t: Tid, reading: int, id: string)
    requires Orderly(w) && t in w.threads && w.threads[t].Starting? && w.now <= reading && w.cfg.ttl > 0
    requires id in DoNew(w, t, reading).store.byID && Closed(DoNew(w, t, reading).store)
    ensures var w' := DoNew(w, t, reading);
            w'.store.byID[id] in InFlight(w') + StartedSince(w', w.now, w.cfg.ttl + 300_000_000_000)
  {
    var w' := DoNew(w, t, reading);
    BirthIsFresh(w, t);
    if id != w.hist[w.threads[t].r].id {
      var r := w.store.byID[id];
      assert Kept(w, r);
      assert w'.store.byID[id] == r && w'.store.heap[r] == w.store.heap[r];
      assert !Evictable(w.store.heap[r], w.now);
    }
  }

  /** The ids of a consistent store lead to different sessions. */
  lemma {:induction false} NoMoreKeysThanValues(st: Store<Ref>, ids: set<string>, s: set<Ref>)
    requires Consistent(st) && ids <= st.byID.Keys
    requires forall id | id in ids :: st.byID[id] in s
    ensures |ids| <= |s|
    decreases |ids|
  {
    if ids != {} {
      var id :| id in ids;
      var r := st.byID[id];
      assert st.heap[r].correlationID == id;
      forall other | other in ids - {id} ensures st.byID[other] in s - {r} {
        assert st.heap[st.byID[other]].correlationID == other;
      }
      NoMoreKeysThanValues(st, ids - {id}, s - {r});
    }
  }
}
