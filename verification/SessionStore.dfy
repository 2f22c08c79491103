/**
 The session store as a value (internal/session/store.go): one function per store method.

 `R` is the type of session pointers. `heap` holds every session ever created, stored or not,
 because a request may keep the pointer of a session that has been evicted. Go's zero values
 stand for absence: no OAuth state is "", no handle and no PDF are [].
 */
module SessionStore {
  import opened Basics
  import opened Steps

  /** Five minutes, in nanoseconds. */
  const EVICT_GRACE: int := 5 * 60 * 1_000_000_000

  const REASON_EXPIRED := "session_expired"

  datatype Record = Record(
    correlationID: string,
    oauthState: string,
    clientState: string,
    handle: Bytes,
    status: Status,
    reason: string,
    conformance: string,
    resultPDF: Bytes,
    evidence: Option<Bytes>,
    createdAt: int,
    expiresAt: int,
    resuming: bool)

  datatype View = View(
    correlationID: string,
    clientState: string,
    status: Status,
    reason: string,
    resultPDF: Bytes,
    evidence: Option<Bytes>)

  datatype Store<R> = Store(heap: map<R, Record>, byID: map<string, R>, byState: map<string, string>)

  datatype ConsumeError = ErrTerminal | ErrResuming

  predicate PastDeadline(rec: Record, now: int) {
    now > rec.expiresAt
  }

  predicate PastGrace(rec: Record, now: int) {
    now > rec.expiresAt + EVICT_GRACE
  }

  /** Whether lazy expiry would change the session now. */
  predicate Due(rec: Record, now: int) {
    !rec.status.Terminal() && PastDeadline(rec, now)
  }

  function Lapsed(rec: Record): Record {
    rec.(status := Failed, reason := REASON_EXPIRED, handle := [], oauthState := "")
  }

  function Unindex(byState: map<string, string>, state: string): map<string, string> {
    if state == "" then byState else byState - {state}
  }

  /** Every stored id points at a session. */
  ghost predicate Closed<R>(st: Store<R>) {
    forall id | id in st.byID :: st.byID[id] in st.heap
  }

  /** `expireLocked`. */
  function Expire<R>(st: Store<R>, r: R, now: int): Store<R>
    requires r in st.heap
  {
    var rec := st.heap[r];
    if !Due(rec, now) then st
    else Store(st.heap[r := Lapsed(rec)], st.byID, Unindex(st.byState, rec.oauthState))
  }

  predicate Evictable(rec: Record, now: int) {
    !rec.resuming && PastGrace(rec, now)
  }

  /** The ids `evictExpiredLocked` deletes. */
  function Doomed<R>(st: Store<R>, now: int): set<string>
    requires Closed(st)
  {
    set id | id in st.byID && Evictable(st.heap[st.byID[id]], now)
  }

  /** The index entries `evictExpiredLocked` deletes. */
  function DoomedStates<R>(st: Store<R>, now: int): set<string>
    requires Closed(st)
  {
    set id | id in Doomed(st, now) && st.heap[st.byID[id]].oauthState != "" :: st.heap[st.byID[id]].oauthState
  }

  /** `evictExpiredLocked`: both maps are filtered, the sessions themselves are not touched. */
  function Evict<R>(st: Store<R>, now: int): Store<R>
    requires Closed(st)
  {
    Store(st.heap, st.byID - Doomed(st, now), st.byState - DoomedStates(st, now))
  }

  function Fresh(id: string, state: string, clientState: string, conformance: string, createdAt: int, ttl: int): Record {
    Record(id, state, clientState, [], Authorizing, "", conformance, [], None, createdAt, createdAt + ttl, false)
  }

  /** `New`: the clock is read once for eviction and once for the new session. */
  function New<R>(st: Store<R>, r: R, id: string, state: string, clientState: string, conformance: string,
                  ttl: int, evictAt: int, createdAt: int): Store<R>
    requires Closed(st)
  {
    var kept := Evict(st, evictAt);
    Store(
      kept.heap[r := Fresh(id, state, clientState, conformance, createdAt, ttl)],
      kept.byID[id := r],
      if state == "" then kept.byState else kept.byState[state := id])
  }

  /** `Get`. */
  function Get<R>(st: Store<R>, id: string, now: int): (Store<R>, Option<R>)
    requires Closed(st)
  {
    if id !in st.byID then (st, None)
    else (Expire(st, st.byID[id], now), Some(st.byID[id]))
  }

  /** `GetByState`. An id of "" reads as a missing entry. */
  function GetByState<R>(st: Store<R>, state: string, now: int): (Store<R>, Option<R>)
    requires Closed(st)
  {
    if state !in st.byState || st.byState[state] == "" || st.byState[state] !in st.byID then (st, None)
    else
      var id := st.byState[state];
      var r := st.byID[id];
      var st' := Expire(st, r, now);
      (st', if state in st'.byState && st'.byState[state] == id then Some(r) else None)
  }

  function ViewOf(rec: Record): View {
    View(rec.correlationID, rec.clientState, rec.status, rec.reason, rec.resultPDF, rec.evidence)
  }

  /** `ViewByID`. */
  function ViewByID<R>(st: Store<R>, id: string, now: int): (Store<R>, Option<View>)
    requires Closed(st)
  {
    if id !in st.byID then (st, None)
    else
      var st' := Expire(st, st.byID[id], now);
      (st', Some(ViewOf(st'.heap[st.byID[id]])))
  }

  /** `ConsumeForResume`. */
  function Consume<R>(st: Store<R>, r: R, now: int): (Store<R>, Result<Bytes, ConsumeError>)
    requires r in st.heap
  {
    var st' := Expire(st, r, now);
    var rec := st'.heap[r];
    if rec.status.Terminal() then (st', Err(ErrTerminal))
    else if rec.resuming then (st', Err(ErrResuming))
    else
      (Store(st'.heap[r := rec.(resuming := true, oauthState := "")], st'.byID, Unindex(st'.byState, rec.oauthState)),
       Ok(rec.handle))
  }

  /** `Update` with a mutation that turns the session's record into `rec`. */
  function Write<R>(st: Store<R>, r: R, rec: Record): Store<R> {
    st.(heap := st.heap[r := rec])
  }

  /** `SetState`. */
  function SetState<R>(st: Store<R>, r: R, state: string): Store<R>
    requires r in st.heap
  {
    var rec := st.heap[r];
    var cleared := Unindex(st.byState, rec.oauthState);
    Store(
      st.heap[r := rec.(oauthState := state, resuming := false)],
      st.byID,
      if state == "" then cleared else cleared[state := rec.correlationID])
  }

  /** `Finalize`. */
  function Finalize<R>(st: Store<R>, r: R): Store<R>
    requires r in st.heap
  {
    var rec := st.heap[r];
    Store(
      st.heap[r := rec.(oauthState := "", handle := [], resuming := false)],
      st.byID,
      Unindex(st.byState, rec.oauthState))
  }

  /** The mutations the flow engine passes to `Update`. */
  function WithHandle(rec: Record, handle: Bytes): Record {
    rec.(handle := handle)
  }

  function Reopened(rec: Record): Record {
    rec.(status := Authorizing)
  }

  function Settled(rec: Record, plan: Plan): Record
    requires plan.Finish? || plan.Fail?
  {
    if plan.Finish? then rec.(status := Completed, resultPDF := plan.pdf, evidence := plan.evidence)
    else rec.(status := plan.status, reason := plan.reason,
              evidence := if plan.failEvidence.Some? then plan.failEvidence else rec.evidence)
  }

  // ---------------------------------------------------------------------------
  // The two indexes agree
  // ---------------------------------------------------------------------------

  predicate Stored<R(==)>(st: Store<R>, r: R) {
    r in st.heap && st.heap[r].correlationID in st.byID && st.byID[st.heap[r].correlationID] == r
  }

  ghost predicate IdsMatch<R>(st: Store<R>)
    requires Closed(st)
  {
    forall id | id in st.byID :: id != "" && st.heap[st.byID[id]].correlationID == id
  }

  /** No two sessions, stored or evicted, hold the same OAuth state. */
  ghost predicate StatesDistinct<R>(st: Store<R>) {
    forall r, r' | r in st.heap && r' in st.heap && st.heap[r].oauthState == st.heap[r'].oauthState != "" :: r == r'
  }

  /** Every index entry belongs to a stored session that holds that state ... */
  ghost predicate IndexSound<R>(st: Store<R>)
    requires Closed(st)
  {
    forall x | x in st.byState ::
      x != "" && st.byState[x] in st.byID && st.heap[st.byID[st.byState[x]]].oauthState == x
  }

  /** ... and every stored session with a state has its entry. */
  ghost predicate IndexComplete<R>(st: Store<R>)
    requires Closed(st)
  {
    forall id | id in st.byID ::
      var x := st.heap[st.byID[id]].oauthState;
      x != "" ==> x in st.byState && st.byState[x] == id
  }

  ghost predicate Consistent<R>(st: Store<R>) {
    && Closed(st)
    && IdsMatch(st)
    && StatesDistinct(st)
    && IndexSound(st)
    && IndexComplete(st)
  }

  /** The linear scan `byState` replaces: the stored sessions holding `state`. */
  ghost predicate ScanFinds<R>(st: Store<R>, state: string, r: R) {
    state != "" && Stored(st, r) && st.heap[r].oauthState == state
  }

  /** An indexed lookup is a scan: it finds `r` exactly when `r` is a stored, unexpired-or-ended
      session that holds the state, and no other session does. */
  lemma LookupIsScan<R>(st: Store<R>, state: string, now: int, r: R)
    requires Consistent(st)
    ensures GetByState(st, state, now).1 == Some(r) <==> ScanFinds(st, state, r) && !Due(st.heap[r], now)
    ensures forall r' | ScanFinds(st, state, r) && ScanFinds(st, state, r') :: r == r'
  {
    if ScanFinds(st, state, r) {
      var id := st.heap[r].correlationID;
      assert st.heap[st.byID[id]].oauthState == state;
      assert state in st.byState && st.byState[state] == id;
    }
  }

  lemma ExpireConsistent<R>(st: Store<R>, r: R, now: int)
    requires Consistent(st) && r in st.heap
    ensures Consistent(Expire(st, r, now))
  {
    if Due(st.heap[r], now) {
      UnindexConsistent(st, r, Lapsed(st.heap[r]));
    }
  }

  /** Dropping a session's state together with its entry keeps the indexes in step, even when the
      session has been evicted and has no entry. */
  lemma UnindexConsistent<R>(st: Store<R>, r: R, rec: Record)
    requires Consistent(st) && r in st.heap
    requires rec.correlationID == st.heap[r].correlationID && rec.oauthState == ""
    ensures Consistent(Store(st.heap[r := rec], st.byID, Unindex(st.byState, st.heap[r].oauthState)))
  {
    var x := st.heap[r].oauthState;
    var st' := Store(st.heap[r := rec], st.byID, Unindex(st.byState, x));
    forall y | y in st'.byState
      ensures y != "" && st'.byState[y] in st'.byID && st'.heap[st'.byID[st'.byState[y]]].oauthState == y
    {
      assert y in st.byState;
      assert st.byID[st.byState[y]] != r;
    }
    forall id | id in st'.byID
      ensures st'.heap[st'.byID[id]].oauthState != "" ==>
                && st'.heap[st'.byID[id]].oauthState in st'.byState
                && st'.byState[st'.heap[st'.byID[id]].oauthState] == id
    {
      if st.byID[id] != r {
        assert st.heap[st.byID[id]].oauthState == x ==> x == "";
      }
    }
  }

  /** The entries deleted by eviction are exactly those of the deleted sessions. */
  lemma DoomedEntries<R>(st: Store<R>, now: int, id: string)
    requires Consistent(st) && id in st.byID
    ensures var x := st.heap[st.byID[id]].oauthState;
            x != "" ==> (x in DoomedStates(st, now) <==> id in Doomed(st, now))
  {
    var x := st.heap[st.byID[id]].oauthState;
    if x in DoomedStates(st, now) {
      var id' :| id' in Doomed(st, now) && st.heap[st.byID[id']].oauthState == x;
      assert st.heap[st.byID[id']].correlationID == id';
    }
  }

  lemma EvictConsistent<R>(st: Store<R>, now: int)
    requires Consistent(st)
    ensures Consistent(Evict(st, now))
  {
    var st' := Evict(st, now);
    forall x | x in st'.byState
      ensures x != "" && st'.byState[x] in st'.byID && st'.heap[st'.byID[st'.byState[x]]].oauthState == x
    {
      DoomedEntries(st, now, st.byState[x]);
    }
    forall id | id in st'.byID
      ensures var x := st'.heap[st'.byID[id]].oauthState; x != "" ==> x in st'.byState && st'.byState[x] == id
    {
      DoomedEntries(st, now, id);
    }
  }

  /** Storing one new session under an unused id, with an unused state, keeps the indexes in step. */
  lemma InsertConsistent<R>(st: Store<R>, r: R, rec: Record)
    requires Consistent(st) && r !in st.heap
    requires rec.correlationID != "" && rec.correlationID !in st.byID
    requires forall r' | r' in st.heap :: st.heap[r'].oauthState == rec.oauthState ==> rec.oauthState == ""
    ensures Consistent(Store(st.heap[r := rec], st.byID[rec.correlationID := r],
                             if rec.oauthState == "" then st.byState else st.byState[rec.oauthState := rec.correlationID]))
  {
    var id, state := rec.correlationID, rec.oauthState;
    var st' := Store(st.heap[r := rec], st.byID[id := r], if state == "" then st.byState else st.byState[state := id]);
    assert Closed(st');
    assert state != "" ==> state !in st.byState;
    forall x | x in st'.byState
      ensures x != "" && st'.byState[x] in st'.byID && st'.heap[st'.byID[st'.byState[x]]].oauthState == x
    {
      if x != state {
        assert x in st.byState;
      }
    }
    forall i | i in st'.byID
      ensures var x := st'.heap[st'.byID[i]].oauthState; x != "" ==> x in st'.byState && st'.byState[x] == i
    {
      if i != id {
        assert i in st.byID;
      }
    }
  }

  lemma NewConsistent<R>(st: Store<R>, r: R, id: string, state: string, clientState: string, conformance: string,
                         ttl: int, evictAt: int, createdAt: int)
    requires Consistent(st) && r !in st.heap
    requires id != "" && id !in st.byID
    requires forall r' | r' in st.heap :: st.heap[r'].oauthState == state ==> state == ""
    ensures Consistent(New(st, r, id, state, clientState, conformance, ttl, evictAt, createdAt))
  {
    EvictConsistent(st, evictAt);
    InsertConsistent(Evict(st, evictAt), r, Fresh(id, state, clientState, conformance, createdAt, ttl));
  }

  /** A stored session without a state may be indexed at a state no other session holds. */
  lemma IndexedConsistent<R>(st: Store<R>, r: R, state: string)
    requires Consistent(st) && Stored(st, r) && st.heap[r].oauthState == "" && state != ""
    requires forall r' | r' in st.heap && r' != r :: st.heap[r'].oauthState != state
    ensures Consistent(Store(st.heap[r := st.heap[r].(oauthState := state)], st.byID, st.byState[state := st.heap[r].correlationID]))
  {
    assert state !in st.byState;
  }

  lemma SetStateConsistent<R>(st: Store<R>, r: R, state: string)
    requires Consistent(st) && Stored(st, r)
    requires forall r' | r' in st.heap && r' != r :: st.heap[r'].oauthState == state ==> state == ""
    ensures Consistent(SetState(st, r, state))
  {
    var rec := st.heap[r].(oauthState := "", resuming := false);
    var cleared := Store(st.heap[r := rec], st.byID, Unindex(st.byState, st.heap[r].oauthState));
    UnindexConsistent(st, r, rec);
    if state == "" {
      assert SetState(st, r, state) == cleared;
    } else {
      IndexedConsistent(cleared, r, state);
      assert SetState(st, r, state).heap == cleared.heap[r := rec.(oauthState := state)];
    }
  }

  lemma WriteConsistent<R>(st: Store<R>, r: R, rec: Record)
    requires Consistent(st) && r in st.heap
    requires rec.correlationID == st.heap[r].correlationID && rec.oauthState == st.heap[r].oauthState
    ensures Consistent(Write(st, r, rec))
  {
    var st' := Write(st, r, rec);
    assert forall id | id in st.byID :: st'.heap[st'.byID[id]].oauthState == st.heap[st.byID[id]].oauthState;
    assert forall x | x in st'.byState :: x in st.byState;
  }

  lemma ConsumeConsistent<R>(st: Store<R>, r: R, now: int)
    requires Consistent(st) && r in st.heap
    ensures Consistent(Consume(st, r, now).0)
  {
    ExpireConsistent(st, r, now);
    var st' := Expire(st, r, now);
    UnindexConsistent(st', r, st'.heap[r].(resuming := true, oauthState := ""));
  }

  lemma FinalizeConsistent<R>(st: Store<R>, r: R)
    requires Consistent(st) && r in st.heap
    ensures Consistent(Finalize(st, r))
  {
    UnindexConsistent(st, r, st.heap[r].(oauthState := "", handle := [], resuming := false));
  }
}
