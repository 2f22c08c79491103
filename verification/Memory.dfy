/**
 The in-memory store with its mutable sessions and maps (internal/session/store.go). Every method is
 proved against the function of the same name in `SessionStore`; the clock readings are parameters.
 */
module Memory {
  import opened Basics
  import opened Steps
  import opened SessionStore

  class Session {
    const correlationID: string
    var oauthState: string
    const clientState: string
    var handle: Bytes
    var status: Status
    var reason: string
    const conformance: string
    var resultPDF: Bytes
    var evidence: Option<Bytes>
    const createdAt: int
    const expiresAt: int
    var resuming: bool

    constructor (id: string, state: string, clientState: string, conformance: string, createdAt: int, expiresAt: int)
      ensures Value() == Record(id, state, clientState, [], Authorizing, "", conformance, [], None, createdAt, expiresAt, false)
    {
      this.correlationID, this.oauthState, this.clientState := id, state, clientState;
      this.handle, this.status, this.reason, this.conformance := [], Authorizing, "", conformance;
      this.resultPDF, this.evidence := [], None;
      this.createdAt, this.expiresAt, this.resuming := createdAt, expiresAt, false;
    }

    ghost function Value(): Record
      reads this
    {
      Record(correlationID, oauthState, clientState, handle, status, reason, conformance, resultPDF, evidence,
             createdAt, expiresAt, resuming)
    }

    ghost predicate Unfinished()
      reads this
    {
      status == Pending || status == Authorizing
    }
  }

  class Memory {
    var byID: map<string, Session>
    var byState: map<string, string>
    ghost var sessions: set<Session>  // every session this store has created, evicted ones included
    ghost var claims: nat             // claims granted
    ghost var releases: nat           // claims given back

    ghost predicate Valid()
      reads this
    {
      forall id | id in byID :: byID[id] in sessions
    }

    /** The store and all its sessions, as a value. */
    ghost function Snapshot(): (st: Store<Session>)
      reads this, sessions
      ensures st.heap.Keys == sessions && st.byID == byID && st.byState == byState
      ensures Valid() ==> Closed(st)
    {
      Store(map s | s in sessions :: s.Value(), byID, byState)
    }

    /** When only `session` has changed, so has only its entry of the snapshot. */
    twostate lemma OneChanged(session: Session)
      requires session in sessions && sessions == old(sessions)
      requires forall s | s in sessions && s != session :: unchanged(s)
      ensures Snapshot().heap == old(Snapshot()).heap[session := session.Value()]
    {
    }

    constructor ()
      ensures Valid() && Snapshot() == Store(map[], map[], map[])
      ensures claims == 0 && releases == 0
    {
      byID, byState, sessions := map[], map[], {};
      claims, releases := 0, 0;
    }

    /** Deletes `state` from the state index. */
    method Delete(state: string)
      requires Valid()
      modifies this`byState
      ensures Valid() && byState == Unindex(old(byState), state)
    {
      if state != "" {
        byState := byState - {state};
      }
    }

    /** `expireLocked`. */
    method ExpireLocked(session: Session, now: int)
      requires Valid() && session in sessions
      modifies this`byState, session
      ensures Valid() && Snapshot() == Expire(old(Snapshot()), session, now)
      ensures session.Value() == if old(session.Unfinished()) && now > session.expiresAt then
                                   old(session.Value()).(status := Failed, reason := "session_expired", handle := [], oauthState := "")
                                 else old(session.Value())
      ensures byState == if old(session.Unfinished()) && now > session.expiresAt && old(session.oauthState) != "" then
                           old(byState) - {old(session.oauthState)}
                         else old(byState)
    {
      if session.status.Terminal() || now <= session.expiresAt {
        return;
      }
      session.status := Failed;
      session.reason := REASON_EXPIRED;
      session.handle := [];
      Delete(session.oauthState);
      session.oauthState := "";
      OneChanged(session);
    }

    /** The sessions are those of `st`, unchanged. */
    ghost predicate SessionsAre(st: Store<Session>)
      reads this`sessions, sessions
    {
      sessions == st.heap.Keys && forall s | s in sessions :: s.Value() == st.heap[s]
    }

    /** The eviction loop half way: of the store `st`, the entries in `pending` are still to be
        visited, and of the others the evictable ones have been deleted. */
    ghost predicate Sweeping(st: Store<Session>, now: int, pending: set<string>)
      reads this`sessions, sessions, this`byID, this`byState
    {
      && Closed(st) && pending <= st.byID.Keys && SessionsAre(st)
      && byID == st.byID - (Doomed(st, now) - pending)
      && byState == st.byState - StatesOf(st, Doomed(st, now) - pending)
    }

    /** One iteration of the eviction loop. */
    method Visit(id: string, now: int, ghost st: Store<Session>, ghost pending: set<string>)
      requires Sweeping(st, now, pending) && id in pending
      modifies this`byID, this`byState
      ensures Sweeping(st, now, pending - {id})
    {
      var session := byID[id];
      assert session.Value() == st.heap[st.byID[id]];
      VisitMaps(st, now, pending, id);
      if !session.resuming && now > session.expiresAt + EVICT_GRACE {
        if session.oauthState != "" {
          byState := byState - {session.oauthState};
        }
        byID := byID - {id};
      }
    }

    /** Nobody is advancing the session, and five minutes have passed since its deadline. */
    ghost predicate OutOfDate(session: Session, now: int)
      reads session
    {
      !session.resuming && now > session.expiresAt + 300_000_000_000
    }

    /** `evictExpiredLocked`: the entries are visited in any order; an entry is deleted exactly if its session
        is out of date, and with it the index entry of its state. */
    method EvictExpiredLocked(now: int)
      requires Valid()
      modifies this`byID, this`byState
      ensures Valid() && Snapshot() == Evict(old(Snapshot()), now)
      ensures forall id :: id in byID <==> id in old(byID) && !OutOfDate(old(byID)[id], now)
      ensures forall id | id in byID :: byID[id] == old(byID)[id]
      ensures forall x :: x in byState <==>
                            x in old(byState)
                            && !exists id :: id in old(byID) && OutOfDate(old(byID)[id], now) && old(byID)[id].oauthState == x != ""
      ensures forall x | x in byState :: byState[x] == old(byState)[x]
    {
      ghost var st := Snapshot();
      var pending := byID.Keys;
      SweepStarts(now);
      while pending != {}
        invariant Sweeping(st, now, pending)
        decreases |pending|
      {
        var id :| id in pending;
        Visit(id, now, st, pending);
        pending := pending - {id};
      }
      SweepEnds(st, now);
    }

    lemma SweepStarts(now: int)
      requires Valid()
      ensures Sweeping(Snapshot(), now, byID.Keys)
    {
      var st := Snapshot();
      assert Doomed(st, now) - st.byID.Keys == {};
    }

    lemma SweepEnds(st: Store<Session>, now: int)
      requires Sweeping(st, now, {})
      ensures Valid() && Snapshot() == Evict(st, now)
    {
      assert Doomed(st, now) - {} == Doomed(st, now);
      DoomedStatesOf(st, now);
      assert Snapshot().heap == st.heap;
    }

    /** `New`. */
    method New(id: string, state: string, clientState: string, conformance: string, ttl: int, evictAt: int, createdAt: int)
      returns (session: Session)
      requires Valid()
      modifies this`byID, this`byState, this`sessions
      ensures Valid() && fresh(session) && sessions == old(sessions) + {session}
      ensures Snapshot() == SessionStore.New(old(Snapshot()), session, id, state, clientState, conformance, ttl, evictAt, createdAt)
      ensures session.Value() == Record(id, state, clientState, [], Authorizing, "", conformance, [], None, createdAt, createdAt + ttl, false)
      ensures id in byID && byID[id] == session && (state != "" ==> state in byState && byState[state] == id)
      ensures forall i | i != id :: i in byID <==> i in old(byID) && !OutOfDate(old(byID)[i], evictAt)
      ensures forall i | i != id && i in byID :: byID[i] == old(byID)[i]
    {
      EvictExpiredLocked(evictAt);
      session := new Session(id, state, clientState, conformance, createdAt, createdAt + ttl);
      Insert(session, id, state);
    }

    /** The insertion at the end of `New`. */
    method Insert(session: Session, id: string, state: string)
      requires Valid() && session !in sessions
      modifies this`byID, this`byState, this`sessions
      ensures Valid() && sessions == old(sessions) + {session}
      ensures Snapshot() == Store(old(Snapshot()).heap[session := session.Value()], old(byID)[id := session],
                                  if state == "" then old(byState) else old(byState)[state := id])
    {
      sessions := sessions + {session};
      byID := byID[id := session];
      if state != "" {
        byState := byState[state := id];
      }
    }

    /** `Get`. */
    method Get(id: string, now: int) returns (session: Option<Session>)
      requires Valid()
      modifies this`byState, sessions
      ensures Valid() && (Snapshot(), session) == SessionStore.Get(old(Snapshot()), id, now)
      ensures session == if id in byID then Some(byID[id]) else None
      ensures id in byID ==>
                byID[id].Value() == if old(byID[id].Unfinished() && now > byID[id].expiresAt) then
                                      old(byID[id].Value()).(status := Failed, reason := "session_expired", handle := [], oauthState := "")
                                    else old(byID[id].Value())
    {
      if id !in byID {
        return None;
      }
      ExpireLocked(byID[id], now);
      return Some(byID[id]);
    }

    /** `GetByState`. */
    method GetByState(state: string, now: int) returns (session: Option<Session>)
      requires Valid()
      modifies this`byState, sessions
      ensures Valid() && (Snapshot(), session) == SessionStore.GetByState(old(Snapshot()), state, now)
      ensures session.None? <==>
                || state !in old(byState) || old(byState)[state] == "" || old(byState)[state] !in byID
                || old(var s := byID[byState[state]]; s.Unfinished() && now > s.expiresAt && s.oauthState == state != "")
      ensures session.Some? ==> session.value == byID[old(byState)[state]]
    {
      var id := if state in byState then byState[state] else "";
      if id == "" || id !in byID {
        return None;
      }
      var found := byID[id];
      ExpireLocked(found, now);
      if state !in byState || byState[state] != id {
        return None;
      }
      return Some(found);
    }

    /** `ViewByID`. */
    method ViewByID(id: string, now: int) returns (view: Option<View>)
      requires Valid()
      modifies this`byState, sessions
      ensures Valid() && (Snapshot(), view) == SessionStore.ViewByID(old(Snapshot()), id, now)
    {
      if id !in byID {
        return None;
      }
      var session := byID[id];
      ExpireLocked(session, now);
      return Some(View(session.correlationID, session.clientState, session.status, session.reason, session.resultPDF, session.evidence));
    }

    /** `ConsumeForResume`. */
    method ConsumeForResume(session: Session, now: int) returns (handle: Result<Bytes, ConsumeError>)
      requires Valid() && session in sessions
      modifies this`byState, this`claims, session
      ensures Valid() && (Snapshot(), handle) == Consume(old(Snapshot()), session, now)
      ensures claims == old(claims) + (if handle.Ok? then 1 else 0)
      ensures handle == if !old(session.Unfinished()) || now > session.expiresAt then Err(ErrTerminal)
                        else if old(session.resuming) then Err(ErrResuming)
                        else Ok(old(session.handle))
      ensures handle.Ok? ==>
                && session.Value() == old(session.Value()).(resuming := true, oauthState := "")
                && byState == if old(session.oauthState) == "" then old(byState) else old(byState) - {old(session.oauthState)}
    {
      ExpireLocked(session, now);
      if session.status.Terminal() {
        return Err(ErrTerminal);
      }
      if session.resuming {
        return Err(ErrResuming);
      }
      label expired:
      session.resuming := true;
      claims := claims + 1;
      Delete(session.oauthState);
      session.oauthState := "";
      OneChanged@expired(session);
      return Ok(session.handle);
    }

    /** `SetState`. */
    method SetState(session: Session, state: string)
      requires Valid() && session in sessions
      modifies this`byState, this`releases, session
      ensures Valid() && Snapshot() == SessionStore.SetState(old(Snapshot()), session, state)
      ensures session.Value() == old(session.Value()).(oauthState := state, resuming := false)
      ensures var cleared := if old(session.oauthState) == "" then old(byState) else old(byState) - {old(session.oauthState)};
              byState == if state == "" then cleared else cleared[state := session.correlationID]
      ensures releases == old(releases) + 1
    {
      Delete(session.oauthState);
      session.oauthState := state;
      if state != "" {
        byState := byState[state := session.correlationID];
      }
      session.resuming := false;
      releases := releases + 1;
      OneChanged(session);
    }

    /** `Finalize`. */
    method Finalize(session: Session)
      requires Valid() && session in sessions
      modifies this`byState, this`releases, session
      ensures Valid() && Snapshot() == SessionStore.Finalize(old(Snapshot()), session)
      ensures session.Value() == old(session.Value()).(oauthState := "", handle := [], resuming := false)
      ensures byState == if old(session.oauthState) == "" then old(byState) else old(byState) - {old(session.oauthState)}
      ensures releases == old(releases) + 1
    {
      Delete(session.oauthState);
      session.oauthState := "";
      session.handle := [];
      session.resuming := false;
      releases := releases + 1;
      OneChanged(session);
    }

    /** `Update` with the mutations of the flow engine. */
    method KeepHandle(session: Session, handle: Bytes)
      requires Valid() && session in sessions
      modifies session
      ensures Valid() && Snapshot() == Write(old(Snapshot()), session, WithHandle(old(Snapshot()).heap[session], handle))
      ensures session.Value() == old(session.Value()).(handle := handle)
    {
      session.handle := handle;
      OneChanged(session);
    }

    method Reopen(session: Session)
      requires Valid() && session in sessions
      modifies session
      ensures Valid() && Snapshot() == Write(old(Snapshot()), session, Reopened(old(Snapshot()).heap[session]))
      ensures session.Value() == old(session.Value()).(status := Authorizing)
    {
      session.status := Authorizing;
      OneChanged(session);
    }

    method Settle(session: Session, plan: Plan)
      requires Valid() && session in sessions && (plan.Finish? || plan.Fail?)
      modifies session
      ensures Valid() && Snapshot() == Write(old(Snapshot()), session, Settled(old(Snapshot()).heap[session], plan))
      ensures plan.Finish? ==>
                session.Value() == old(session.Value()).(status := Completed, resultPDF := plan.pdf, evidence := plan.evidence)
      ensures plan.Fail? ==>
                session.Value() == old(session.Value()).(status := plan.status, reason := plan.reason,
                                                         evidence := if plan.failEvidence.Some? then plan.failEvidence else old(session.evidence))
    {
      if plan.Finish? {
        session.status := Completed;
        session.resultPDF := plan.pdf;
        session.evidence := plan.evidence;
      } else {
        session.status := plan.status;
        session.reason := plan.reason;
        if plan.failEvidence.Some? {
          session.evidence := plan.failEvidence;
        }
      }
      OneChanged(session);
    }
  }

  /** The non-empty states of the sessions stored under `ids`. */
  ghost function StatesOf(st: Store<Session>, ids: set<string>): set<string>
    requires Closed(st) && ids <= st.byID.Keys
  {
    set id | id in ids && st.heap[st.byID[id]].oauthState != "" :: st.heap[st.byID[id]].oauthState
  }

  lemma StatesOfOneMore(st: Store<Session>, ids: set<string>, id: string)
    requires Closed(st) && ids <= st.byID.Keys && id in st.byID
    ensures var x := st.heap[st.byID[id]].oauthState;
            StatesOf(st, ids + {id}) == StatesOf(st, ids) + (if x == "" then {} else {x})
  {
    var x := st.heap[st.byID[id]].oauthState;
    assert x != "" ==> id in ids + {id} && x in StatesOf(st, ids + {id});
    forall y | y in StatesOf(st, ids) ensures y in StatesOf(st, ids + {id}) {
      var i :| i in ids && st.heap[st.byID[i]].oauthState == y;
      assert i in ids + {id};
    }
  }

  lemma DoomedStatesOf(st: Store<Session>, now: int)
    requires Closed(st)
    ensures StatesOf(st, Doomed(st, now)) == DoomedStates(st, now)
  {
  }

  lemma OneLessPending(doomed: set<string>, pending: set<string>, id: string)
    requires id in pending
    ensures doomed - (pending - {id}) == if id in doomed then doomed - pending + {id} else doomed - pending
  {
  }

  /** What is left of the maps once `id` has been visited too. */
  lemma VisitMaps(st: Store<Session>, now: int, pending: set<string>, id: string)
    requires Closed(st) && pending <= st.byID.Keys && id in pending
    ensures var gone, gone' := Doomed(st, now) - pending, Doomed(st, now) - (pending - {id});
            var rec := st.heap[st.byID[id]];
            if Evictable(rec, now) then
              && st.byID - gone' == st.byID - gone - {id}
              && st.byState - StatesOf(st, gone')
                 == (if rec.oauthState == "" then st.byState - StatesOf(st, gone) else st.byState - StatesOf(st, gone) - {rec.oauthState})
            else gone' == gone
  {
    OneLessPending(Doomed(st, now), pending, id);
    if Evictable(st.heap[st.byID[id]], now) {
      StatesOfOneMore(st, Doomed(st, now) - pending, id);
    }
  }
}
