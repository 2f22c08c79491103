/** The flow engine over the mutable store (internal/flow/flow.go). */
module Engine {
  import opened Basics
  import opened Steps
  import opened SessionStore
  import opened HttpApi
  import opened Drive
  import opened Memory

  /** The outside world as the engine sees it: everything exchanged so far, and its answers. */
  class Peer {
    const env: Env
    var trace: seq<Event>

    constructor (env: Env)
      ensures this.env == env && trace == []
    {
      this.env, this.trace := env, [];
    }

    method Ask(input: SdkInput) returns (reply: SdkReply)
      modifies this`trace
      ensures reply == env.sdk(old(trace), input) && trace == old(trace) + [SdkEvent(input, reply)]
    {
      reply := env.sdk(trace, input);
      trace := trace + [SdkEvent(input, reply)];
    }

    method Do(effect: HttpEffect) returns (response: Option<(int, Bytes)>)
      modifies this`trace
      ensures response == env.net(old(trace), effect) && trace == old(trace) + [NetEvent(effect, response)]
    {
      response := env.net(trace, effect);
      trace := trace + [NetEvent(effect, response)];
    }
  }

  /** The handle and the status written one after the other are one write. */
  lemma WritesInOne<R>(st: Store<R>, r: R, handle: Bytes)
    requires r in st.heap
    ensures var kept := Write(st, r, WithHandle(st.heap[r], handle));
            Write(kept, r, Reopened(kept.heap[r])) == Write(st, r, Reopened(WithHandle(st.heap[r], handle)))
  {
    var kept := Write(st, r, WithHandle(st.heap[r], handle));
    assert Write(kept, r, Reopened(kept.heap[r])).heap == Write(st, r, Reopened(WithHandle(st.heap[r], handle))).heap;
  }

  class Engine {
    const store: Memory
    const peer: Peer

    constructor (store: Memory, peer: Peer)
      ensures this.store == store && this.peer == peer
    {
      this.store, this.peer := store, peer;
    }

    ghost predicate Ready(s: Session)
      reads store
    {
      store.Valid() && s in store.sessions
    }

    /** `fail` and the `done` branch: the terminal write, then the release. */
    method End(s: Session, plan: Plan) returns (outcome: Outcome)
      requires Ready(s) && (plan.Finish? || plan.Fail?)
      modifies store`byState, store`releases, s
      ensures Ready(s) && store.releases == old(store.releases) + 1
      ensures (store.Snapshot(), outcome) == Conclude(peer.env.cfg, old(store.Snapshot()), s, plan)
    {
      store.Settle(s, plan);
      store.Finalize(s);
      outcome := EndOutcome(plan);
    }

    /** The redirect branch: the new state is indexed and the claim released, then the status written. */
    method Await(s: Session, plan: Plan) returns (outcome: Outcome)
      requires Ready(s) && plan.Index?
      modifies store`byState, store`releases, s
      ensures Ready(s) && store.releases == old(store.releases) + 1
      ensures (store.Snapshot(), outcome) == Conclude(peer.env.cfg, old(store.Snapshot()), s, plan)
    {
      store.SetState(s, plan.state);
      store.Reopen(s);
      outcome := Outcome(Some(Authorizing), peer.env.cfg.rewrite(plan.url), "", None);
    }

    /** One turn of the loop: perform the effect, feed its response to the SDK. */
    method Turn(res: StepResult, effect: HttpEffect) returns (next: Result<StepResult, Plan>)
      modifies peer`trace
      ensures (peer.trace, next) == TurnOf(peer.env, old(peer.trace), res, effect)
    {
      var response := peer.Do(effect);
      if response.None? {
        return Err(UpstreamFailure);
      }
      var reply := peer.Ask(ResumeHTTP(res.handle, response.value.0, response.value.1));
      if reply.SdkError? {
        return Err(ResumeFailure);
      }
      return Ok(reply.res);
    }

    /** The branches of the loop body that end the drive. */
    method Leave(s: Session, plan: Plan) returns (outcome: Outcome)
      requires Ready(s) && !plan.Effect?
      modifies store`byState, store`releases, s
      ensures Ready(s) && store.releases == old(store.releases) + 1
      ensures (store.Snapshot(), outcome) == Conclude(peer.env.cfg, old(store.Snapshot()), s, plan)
    {
      if plan.Index? {
        outcome := Await(s, plan);
      } else {
        outcome := End(s, plan);
      }
    }

    /** The `perform_http` branch: the next step, or the end of the drive. */
    method Perform(s: Session, res: StepResult, effect: HttpEffect) returns (next: Result<StepResult, Outcome>)
      requires Ready(s)
      modifies store`byState, store`releases, s, peer`trace
      ensures Ready(s)
      ensures var (told, turn) := TurnOf(peer.env, old(peer.trace), res, effect);
              && peer.trace == told
              && match turn
                 case Ok(step) =>
                   next == Ok(step) && store.Snapshot() == old(store.Snapshot()) && store.releases == old(store.releases)
                 case Err(_) =>
                   && next.Err? && store.releases == old(store.releases) + 1
                   && (store.Snapshot(), next.error) == Conclude(peer.env.cfg, old(store.Snapshot()), s, FailurePlan(turn))
    {
      var turn := Turn(res, effect);
      assert store.Snapshot() == old(store.Snapshot());
      if turn.Ok? {
        return Ok(turn.value);
      }
      var outcome := Leave(s, turn.error);
      next := Err(outcome);
    }

    /** The loop body of `drive`: the handle write, then one branch. Either there is a next step, and
        what the drive will come to has not changed, or the drive has come to it. */
    method Iterate(s: Session, res: StepResult, ghost rank: Rank) returns (next: Result<StepResult, Outcome>)
      requires Ready(s) && Ranked(peer.env, rank)
      modifies store`byState, store`releases, s, peer`trace
      ensures Ready(s)
      ensures match next
              case Ok(step) =>
                && store.releases == old(store.releases)
                && Drive.Drive(peer.env, rank, store.Snapshot(), s, peer.trace, step)
                   == Drive.Drive(peer.env, rank, old(store.Snapshot()), s, old(peer.trace), res)
                && Decide(peer.env.cfg, res).Effect?
                && (Decide(peer.env.cfg, step).Effect? ==> rank(step.handle) < rank(res.handle))
              case Err(outcome) =>
                && store.releases == old(store.releases) + 1
                && Ending(store.Snapshot(), peer.trace, outcome)
                   == Drive.Drive(peer.env, rank, old(store.Snapshot()), s, old(peer.trace), res)
    {
      DriveByTurns(peer.env, rank, store.Snapshot(), s, peer.trace, res);
      TurnsRank(peer.env, rank, peer.trace, res);
      store.KeepHandle(s, res.handle);
      var plan := Decide(peer.env.cfg, res);
      if plan.Effect? {
        next := Perform(s, res, plan.effect);
      } else {
        var outcome := Leave(s, plan);
        next := Err(outcome);
      }
    }

    /** `drive`: the loop over HTTP effects, up to a redirect or an end. */
    method Run(s: Session, first: StepResult, ghost rank: Rank) returns (outcome: Outcome)
      requires Ready(s) && Ranked(peer.env, rank)
      modifies store`byState, store`releases, s, peer`trace
      ensures Ready(s) && store.releases == old(store.releases) + 1
      ensures Ending(store.Snapshot(), peer.trace, outcome)
              == Drive.Drive(peer.env, rank, old(store.Snapshot()), s, old(peer.trace), first)
    {
      var res := first;
      while true
        invariant Ready(s) && store.releases == old(store.releases)
        invariant Drive.Drive(peer.env, rank, store.Snapshot(), s, peer.trace, res)
                  == Drive.Drive(peer.env, rank, old(store.Snapshot()), s, old(peer.trace), first)
        decreases if Decide(peer.env.cfg, res).Effect? then rank(res.handle) + 1 else 0
      {
        var next := Iterate(s, res, rank);
        if next.Err? {
          return next.error;
        }
        res := next.value;
      }
    }

    /** The part of `Complete` and `CompleteError` after the claim: one resume, `drive`. */
    method Advance(s: Session, input: SdkInput, ghost rank: Rank) returns (outcome: Outcome)
      requires Ready(s) && Ranked(peer.env, rank)
      modifies store`byState, store`releases, s, peer`trace
      ensures Ready(s) && store.releases == old(store.releases) + 1
      ensures Ending(store.Snapshot(), peer.trace, outcome)
              == AfterClaim(peer.env, rank, old(store.Snapshot()), s, old(peer.trace), input)
    {
      var reply := peer.Ask(input);
      assert store.Snapshot() == old(store.Snapshot());
      if reply.SdkError? {
        outcome := Leave(s, ResumeFailure);
      } else {
        outcome := Run(s, reply.res, rank);
      }
    }

    /** The common part of `Complete` and `CompleteError`: `consume`, one resume, `drive`. */
    method Resume(s: Session, denied: bool, payload: string, state: string, now: int, ghost rank: Rank) returns (outcome: Outcome)
      requires Ready(s) && Ranked(peer.env, rank)
      modifies store`byState, store`claims, store`releases, s, peer`trace
      ensures Ready(s)
      ensures store.claims - old(store.claims) == store.releases - old(store.releases)
              == if Consume(old(store.Snapshot()), s, now).1.Ok? then 1 else 0
      ensures Ending(store.Snapshot(), peer.trace, outcome)
              == CompleteCall(peer.env, rank, old(store.Snapshot()), s, old(peer.trace), denied, payload, state, now)
    {
      var claim := store.ConsumeForResume(s, now);
      if claim.Err? {
        return HttpApi.Refused(claim.error);
      }
      outcome := Advance(s, ReturnInput(claim.value, denied, payload, state), rank);
    }

    /** `Complete`. */
    method Complete(s: Session, code: string, state: string, now: int, ghost rank: Rank) returns (outcome: Outcome)
      requires Ready(s) && Ranked(peer.env, rank)
      modifies store`byState, store`claims, store`releases, s, peer`trace
      ensures Ready(s)
      ensures store.claims - old(store.claims) == store.releases - old(store.releases)
              == if Consume(old(store.Snapshot()), s, now).1.Ok? then 1 else 0
      ensures Ending(store.Snapshot(), peer.trace, outcome)
              == CompleteCall(peer.env, rank, old(store.Snapshot()), s, old(peer.trace), false, code, state, now)
      ensures old(MayClaim(s.Value(), now)) ==>
                && |old(peer.trace)| < |peer.trace| && old(peer.trace) <= peer.trace
                && peer.trace[|old(peer.trace)|].SdkEvent?
                && peer.trace[|old(peer.trace)|].input == ResumeRedirect(old(s.handle), code, state)
      ensures !old(MayClaim(s.Value(), now)) ==>
                && peer.trace == old(peer.trace)
                && (outcome.error == Some(AlreadyResuming) || outcome.error == Some(AlreadyTerminal))
    {
      CallTells(peer.env, rank, store.Snapshot(), s, peer.trace, false, code, state, now);
      outcome := Resume(s, false, code, state, now, rank);
    }

    /** `CompleteError`. */
    method CompleteError(s: Session, error: string, state: string, now: int, ghost rank: Rank) returns (outcome: Outcome)
      requires Ready(s) && Ranked(peer.env, rank)
      modifies store`byState, store`claims, store`releases, s, peer`trace
      ensures Ready(s)
      ensures store.claims - old(store.claims) == store.releases - old(store.releases)
              == if Consume(old(store.Snapshot()), s, now).1.Ok? then 1 else 0
      ensures Ending(store.Snapshot(), peer.trace, outcome)
              == CompleteCall(peer.env, rank, old(store.Snapshot()), s, old(peer.trace), true, error, state, now)
      ensures old(MayClaim(s.Value(), now)) ==>
                && |old(peer.trace)| < |peer.trace| && old(peer.trace) <= peer.trace
                && peer.trace[|old(peer.trace)|].SdkEvent?
                && peer.trace[|old(peer.trace)|].input == ResumeRedirectError(old(s.handle), error, state)
      ensures !old(MayClaim(s.Value(), now)) ==>
                && peer.trace == old(peer.trace)
                && (outcome.error == Some(AlreadyResuming) || outcome.error == Some(AlreadyTerminal))
    {
      CallTells(peer.env, rank, store.Snapshot(), s, peer.trace, true, error, state, now);
      outcome := Resume(s, true, error, state, now, rank);
    }

    /** The end of `Begin`: the session is created, then its handle and status written. */
    method Open(id: string, clientState: string, conformance: string, handle: Bytes, state: string, evictAt: int, createdAt: int)
      returns (s: Session)
      requires store.Valid()
      modifies store`byID, store`byState, store`sessions
      ensures store.Valid() && fresh(s) && store.sessions == old(store.sessions) + {s} && s.expiresAt == createdAt + peer.env.cfg.ttl
      ensures id in store.byID && store.byID[id] == s
      ensures store.Snapshot() == Opened(peer.env.cfg, old(store.Snapshot()), s, id, clientState, conformance, handle, state, evictAt, createdAt)
    {
      s := store.New(id, state, clientState, conformance, peer.env.cfg.ttl, evictAt, createdAt);
      ghost var st := store.Snapshot();
      store.KeepHandle(s, handle);
      assert store.Snapshot().heap == Write(st, s, WithHandle(st.heap[s], handle)).heap;
      store.Reopen(s);
      WritesInOne(st, s, handle);
    }

    /** `Begin`: one SDK call, with the document, the conformance and the signer; only a well-formed redirect
        creates a session, which then waits under the redirect's state with the SDK's handle. */
    method Begin(id: string, document: Bytes, conformance: string, clientState: string, signer: Option<(string, string)>,
                 evictAt: int, createdAt: int)
      returns (started: Option<(string, int)>)
      requires store.Valid()
      modifies store`byID, store`byState, store`sessions, peer`trace
      ensures store.Valid() && old(store.sessions) <= store.sessions
      ensures var cfg, input := peer.env.cfg, BeginSession(document, conformance, signer);
              var reply := peer.env.sdk(old(peer.trace), input);
              && peer.trace == old(peer.trace) + [SdkEvent(input, reply)]
              && if reply.Stepped? && Decide(cfg, reply.res).Index? then
                   var plan := Decide(cfg, reply.res);
                   && started == Some((cfg.rewrite(plan.url), createdAt + cfg.ttl))
                   && id in store.byID && fresh(store.byID[id])
                   && store.byID[id].Value() == Record(id, plan.state, clientState, reply.res.handle, Authorizing, "", conformance, [], None,
                                                       createdAt, createdAt + cfg.ttl, false)
                   && store.Snapshot() == Opened(cfg, old(store.Snapshot()), store.byID[id], id, clientState, conformance, reply.res.handle,
                                                 plan.state, evictAt, createdAt)
                 else started == None && store.Snapshot() == old(store.Snapshot())
    {
      var reply := peer.Ask(BeginSession(document, conformance, signer));
      assert store.Snapshot() == old(store.Snapshot());
      started := Accept(id, clientState, conformance, reply, evictAt, createdAt);
      if started.Some? {
        OpenedIs(peer.env.cfg, old(store.Snapshot()), store.byID[id], id, clientState, conformance, reply.res.handle,
                 Decide(peer.env.cfg, reply.res).state, evictAt, createdAt);
      }
    }

    /** The part of `Begin` after the SDK call. */
    method Accept(id: string, clientState: string, conformance: string, reply: SdkReply, evictAt: int, createdAt: int)
      returns (started: Option<(string, int)>)
      requires store.Valid()
      modifies store`byID, store`byState, store`sessions
      ensures store.Valid() && old(store.sessions) <= store.sessions
      ensures var cfg := peer.env.cfg;
              if reply.Stepped? && Decide(cfg, reply.res).Index? then
                var plan := Decide(cfg, reply.res);
                && plan.state != "" && started == Some((cfg.rewrite(plan.url), createdAt + cfg.ttl))
                && id in store.byID && fresh(store.byID[id])
                && store.Snapshot() == Opened(cfg, old(store.Snapshot()), store.byID[id], id, clientState, conformance, reply.res.handle,
                                              plan.state, evictAt, createdAt)
              else started == None && store.Snapshot() == old(store.Snapshot())
    {
      if reply.SdkError? || StepKind(reply.res.step) != "redirect" {
        return None;
      }
      var redirect := StepRedirect(reply.res.step);
      if redirect.None? {
        return None;
      }
      var s := Open(id, clientState, conformance, reply.res.handle, redirect.value.1, evictAt, createdAt);
      return Some((peer.env.cfg.rewrite(redirect.value.0), s.expiresAt));
    }
  }
}
