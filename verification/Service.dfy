/** The HTTP handlers over the engine and the store (internal/httpapi/service.go). */
module Service {
  import opened Basics
  import opened Steps
  import opened SessionStore
  import opened HttpApi
  import opened Drive
  import opened Memory
  import opened Engine

  class Service {
    const engine: Engine
    const store: Memory

    constructor (engine: Engine)
      ensures this.engine == engine && this.store == engine.store
    {
      this.engine, this.store := engine, engine.store;
    }

    ghost predicate Ready()
      reads store
    {
      engine.store == store && store.Valid()
    }

    /** The engine call of `complete`: a code or an error is taken to the SDK. */
    method Ask(session: Session, req: Request, claimAt: int, ghost rank: Rank) returns (outcome: Outcome)
      requires Ready() && session in store.sessions && Ranked(engine.peer.env, rank)
      modifies store`byState, store`claims, store`releases, session, engine.peer`trace
      ensures Ready()
      ensures store.claims - old(store.claims) == store.releases - old(store.releases)
      ensures Ending(store.Snapshot(), engine.peer.trace, outcome)
              == CompleteCall(engine.peer.env, rank, old(store.Snapshot()), session, old(engine.peer.trace),
                              req.error != "", if req.error != "" then req.error else req.code, req.state, claimAt)
    {
      assert engine.Ready(session);
      if req.error != "" {
        outcome := engine.CompleteError(session, req.error, req.state, claimAt, rank);
      } else {
        outcome := engine.Complete(session, req.code, req.state, claimAt, rank);
      }
    }

    /** The part of `complete` after the lookup. */
    method CompleteSession(session: Session, req: Request, claimAt: int, viewAt: int, ghost rank: Rank)
      returns (result: Completion, error: Option<CompleteError>)
      requires Ready() && session in store.sessions && Ranked(engine.peer.env, rank)
      modifies store`byState, store`claims, store`releases, store.sessions, engine.peer`trace
      ensures Ready()
      ensures store.claims - old(store.claims) == store.releases - old(store.releases)
      ensures (store.Snapshot(), engine.peer.trace, (result, error))
              == PathFrom(engine.peer.env, rank, old(store.Snapshot()), session, old(engine.peer.trace), req, claimAt, viewAt)
    {
      assert store.Snapshot().heap[session].correlationID == session.correlationID;
      var outcome := Ask(session, req, claimAt, rank);
      var view := store.ViewByID(session.correlationID, viewAt);
      result, error := Conclude(outcome, view);
    }

    /** `complete`: the completion path shared by the two routes. */
    method Complete(req: Request, lookupAt: int, claimAt: int, viewAt: int, ghost rank: Rank)
      returns (result: Completion, error: Option<CompleteError>)
      requires Ready() && Ranked(engine.peer.env, rank)
      modifies store`byState, store`claims, store`releases, store.sessions, engine.peer`trace
      ensures Ready()
      ensures store.claims - old(store.claims) == store.releases - old(store.releases)
      ensures (store.Snapshot(), engine.peer.trace, (result, error))
              == CompletionPath(engine.peer.env, rank, old(store.Snapshot()), old(engine.peer.trace), req, lookupAt, claimAt, viewAt)
    {
      if req.state == "" || (req.code == "" && req.error == "") {
        return NoCompletion, Some(InvalidComplete);
      }
      var found := store.GetByState(req.state, lookupAt);
      if found.None? {
        return NoCompletion, Some(UnknownOAuthState);
      }
      result, error := CompleteSession(found.value, req, claimAt, viewAt, rank);
    }

    /** The end of `complete`: what the engine left open is filled in from the final view. */
    method Conclude(outcome: Outcome, view: Option<View>) returns (result: Completion, error: Option<CompleteError>)
      ensures (result, error) == Merge(outcome, view)
    {
      if view.None? {
        if outcome.error.Some? {
          return NoCompletion, Some(CompleteError.Engine(outcome.error.value));
        }
        return NoCompletion, Some(CompleteError.Engine(Internal));
      }
      var status, reason := outcome.status, outcome.reason;
      if status.None? {
        status := Some(view.value.status);
      }
      if reason == "" {
        reason := view.value.reason;
      }
      result := Completion(status, outcome.redirectURL, reason, view.value.correlationID, view.value.clientState);
      error := if outcome.error.Some? then Some(CompleteError.Engine(outcome.error.value)) else None;
    }

    /** `handleOAuthCallback` and `handleComplete`, by the route of the request. A request without a state, or
        with neither code nor error, is malformed; a state nobody waits for is unknown; and the SDK is told the
        callback's own code or error, with its state and the waiting session's handle, or nothing. */
    method Handle(req: Request, lookupAt: int, claimAt: int, viewAt: int, ghost rank: Rank) returns (answer: Answer)
      requires Ready() && Ranked(engine.peer.env, rank)
      modifies store`byState, store`claims, store`releases, store.sessions, engine.peer`trace
      ensures Ready()
      ensures store.claims - old(store.claims) == store.releases - old(store.releases)
      ensures var (st, trace, completion) := CompletionPath(engine.peer.env, rank, old(store.Snapshot()), old(engine.peer.trace), req, lookupAt, claimAt, viewAt);
              store.Snapshot() == st && engine.peer.trace == trace && answer == Reply(req, completion.0, completion.1)
      ensures answer == BadRequest <==> req.state == "" || (req.code == "" && req.error == "")
      ensures answer == UnknownState <==>
                && req.state != "" && (req.code != "" || req.error != "")
                && NobodyWaits(old(store.Snapshot()), req.state, lookupAt)
      ensures if Enters(old(store.Snapshot()), req, lookupAt, claimAt) then
                var handle := old(store.byID[store.byState[req.state]].handle);
                && |old(engine.peer.trace)| < |engine.peer.trace| && old(engine.peer.trace) <= engine.peer.trace
                && engine.peer.trace[|old(engine.peer.trace)|].SdkEvent?
                && engine.peer.trace[|old(engine.peer.trace)|].input ==
                   if req.error != "" then ResumeRedirectError(handle, req.error, req.state)
                   else ResumeRedirect(handle, req.code, req.state)
              else engine.peer.trace == old(engine.peer.trace)
    {
      RefusedIff(engine.peer.env, rank, store.Snapshot(), engine.peer.trace, req, lookupAt, claimAt, viewAt);
      PathTells(engine.peer.env, rank, store.Snapshot(), engine.peer.trace, req, lookupAt, claimAt, viewAt);
      var result, error := Complete(req, lookupAt, claimAt, viewAt, rank);
      if !req.browser {
        answer := JsonAnswer(result, error);
      } else if !ReturnsToApplication(result, error) {
        answer := ErrorAnswer(error.value);
      } else if result.redirectURL != "" {
        answer := ToProvider(result.redirectURL);
      } else {
        answer := ToApplication(result.clientState, result.correlationID);
      }
    }

    /** `handleStatus`: not found exactly when nothing is stored under the id; otherwise the status of the
        session, which after its deadline is failed at the latest, and a reason for a failed one only. */
    method HandleStatus(id: string, now: int) returns (answer: Answer)
      requires Ready()
      modifies store`byState, store.sessions
      ensures Ready() && store.Snapshot() == ViewByID(old(store.Snapshot()), id, now).0
      ensures answer == StatusAnswer(ViewByID(old(store.Snapshot()), id, now).1)
      ensures answer == NotFound <==> id !in store.byID
      ensures id in store.byID ==>
                answer == if old(store.byID[id].Unfinished() && now > store.byID[id].expiresAt)
                          then StatusIs(Failed, Some("session_expired"))
                          else StatusIs(old(store.byID[id].status),
                                        if old(store.byID[id].status == Failed && store.byID[id].reason != "")
                                        then Some(old(store.byID[id].reason)) else None)
    {
      StatusShown(store.Snapshot(), id, now);
      assert id in store.byID ==> store.Snapshot().heap[store.byID[id]] == store.byID[id].Value();
      var view := store.ViewByID(id, now);
      if view.None? {
        return NotFound;
      }
      var reason := None;
      if view.value.status == Failed && view.value.reason != "" {
        reason := Some(view.value.reason);
      }
      return StatusIs(view.value.status, reason);
    }

    /** `handleResult`: not found exactly when nothing is stored under the id; the document and the evidence
        of a completed session; and a conflict for any other. */
    method HandleResult(id: string, now: int) returns (answer: Answer)
      requires Ready()
      modifies store`byState, store.sessions
      ensures Ready() && store.Snapshot() == ViewByID(old(store.Snapshot()), id, now).0
      ensures answer == ResultAnswer(ViewByID(old(store.Snapshot()), id, now).1)
      ensures answer == NotFound <==> id !in store.byID
      ensures id in store.byID ==> (answer == NotCompleted <==> old(store.byID[id].status) != Completed)
      ensures id in store.byID && old(store.byID[id].status) == Completed ==>
                && answer.SignedDocument? && answer.pdf == old(store.byID[id].resultPDF)
                && answer.evidence == (if old(store.byID[id].evidence) == Some([]) then None else old(store.byID[id].evidence))
    {
      var view := store.ViewByID(id, now);
      if view.None? {
        return NotFound;
      }
      if view.value.status != Completed {
        return NotCompleted;
      }
      var evidence := None;
      if view.value.evidence.Some? && |view.value.evidence.value| > 0 {
        evidence := view.value.evidence;
      }
      return SignedDocument(view.value.resultPDF, evidence);
    }
  }
}
