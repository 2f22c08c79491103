/**
 The two layers agree: a drive stepped through in the protocol, with no other thread in between,
 does to the store what the drive loop is proved to do.
 */
module Sequential {
  import opened Basics
  import opened Steps
  import opened SessionStore
  import opened HttpApi
  import opened Protocol
  import Drive

  /** One step of thread `t`. */
  ghost predicate StepsTo(w: World, t: Tid, input: Input, w': World) {
    Linked(w) && Enabled(w, Advance(t, input)) && w' == DoAdvance(w, t, input).0
  }

  /** The worlds thread `t` passes through, one for each input. */
  ghost predicate Passes(worlds: seq<World>, t: Tid, run: seq<Input>) {
    && |worlds| == |run| + 1
    && forall i | 0 <= i < |run| :: StepsTo(worlds[i], t, run[i], worlds[i + 1])
  }

  /** Thread `t` alone takes steps, with the inputs of `run`, from `w` to `w'`. */
  ghost predicate Alone(w: World, t: Tid, run: seq<Input>, w': World) {
    exists worlds :: Passes(worlds, t, run) && worlds[0] == w && worlds[|run|] == w'
  }

  lemma AloneConcat(w: World, t: Tid, run: seq<Input>, w': World, more: seq<Input>, w'': World)
    requires Alone(w, t, run, w') && Alone(w', t, more, w'')
    ensures Alone(w, t, run + more, w'')
  {
    var a :| Passes(a, t, run) && a[0] == w && a[|run|] == w';
    var b :| Passes(b, t, more) && b[0] == w' && b[|more|] == w'';
    PassesConcat(a, t, run, b, more);
    assert (a + b[1..])[|run + more|] == w'';
  }

  lemma PassesConcat(a: seq<World>, t: Tid, run: seq<Input>, b: seq<World>, more: seq<Input>)
    requires Passes(a, t, run) && Passes(b, t, more) && a[|run|] == b[0]
    ensures Passes(a + b[1..], t, run + more)
  {
    var worlds := a + b[1..];
    forall i | 0 <= i < |run + more| ensures StepsTo(worlds[i], t, (run + more)[i], worlds[i + 1]) {
      if i < |run| {
        assert worlds[i] == a[i] && worlds[i + 1] == a[i + 1];
      } else {
        assert worlds[i] == b[i - |run|] && worlds[i + 1] == b[i - |run| + 1];
      }
    }
  }

  lemma OneStep(w: World, t: Tid, input: Input)
    requires Linked(w) && t in w.threads && InputFits(w.threads[t], input)
    ensures Alone(w, t, [input], DoAdvance(w, t, input).0)
  {
    assert Passes([w, DoAdvance(w, t, input).0], t, [input]);
  }

  /** Writing over a session's record keeps every link. */
  lemma StillLinked(w: World, w': World, t: Tid)
    requires Linked(w) && t in w.threads && t in w'.threads
    requires w'.threads == w.threads[t := w'.threads[t]] && w'.threads[t].r == w.threads[t].r && !w.threads[t].Starting?
    requires w'.store.byID == w.store.byID && w'.store.heap.Keys == w.store.heap.Keys && w'.hist.Keys == w.hist.Keys
    ensures Linked(w')
  {
  }

  /** The thread is at the head of the loop, with `res` in hand. */
  ghost predicate AtHead(w: World, t: Tid, r: Ref, req: Request, res: StepResult) {
    Linked(w) && t in w.threads && w.threads[t] == Got(r, req, res)
  }

  // --- What the history records ---------------------------------------------------------

  /** The SDK call as the history records it. */
  function CallOf(input: Drive.SdkInput, reply: SdkReply): Call {
    match input
    case BeginSession(_, _, _) => BeginCall(reply)
    case ResumeRedirect(handle, code, state) => RedirectCall(handle, false, code, state, reply)
    case ResumeRedirectError(handle, error, state) => RedirectCall(handle, true, error, state, reply)
    case ResumeHTTP(handle, status, body) => HttpCall(handle, status, body, reply)
  }

  /** The SDK calls among the exchanges, in order. */
  function CallsOf(events: seq<Drive.Event>): seq<Call> {
    if events == [] then []
    else (if events[0].SdkEvent? then [CallOf(events[0].input, events[0].reply)] else []) + CallsOf(events[1..])
  }

  lemma {:induction false} CallsConcat(a: seq<Drive.Event>, b: seq<Drive.Event>)
    ensures CallsOf(a + b) == CallsOf(a) + CallsOf(b)
    decreases |a|
  {
    if a == [] {
      assert a + b == b;
    } else {
      assert (a + b)[0] == a[0] && (a + b)[1..] == a[1..] + b;
      CallsConcat(a[1..], b);
    }
  }

  lemma OneCall(input: Drive.SdkInput, reply: SdkReply)
    ensures CallsOf([Drive.SdkEvent(input, reply)]) == [CallOf(input, reply)]
  {
    assert [Drive.SdkEvent(input, reply)][1..] == [];
  }

  lemma NoCall(effect: HttpEffect, response: Option<(int, Bytes)>)
    ensures CallsOf([Drive.NetEvent(effect, response)]) == []
  {
    assert [Drive.NetEvent(effect, response)][1..] == [];
  }

  /** Between two moments the peer was told `trace'` after `trace`, and the history has recorded it. */
  ghost predicate Recorded(calls: seq<Call>, trace: seq<Drive.Event>, calls': seq<Call>, trace': seq<Drive.Event>) {
    trace <= trace' && calls' == calls + CallsOf(trace'[|trace|..])
  }

  lemma NothingRecorded(calls: seq<Call>, trace: seq<Drive.Event>)
    ensures Recorded(calls, trace, calls, trace)
  {
    assert trace[|trace|..] == [];
  }

  lemma CallRecorded(calls: seq<Call>, trace: seq<Drive.Event>, input: Drive.SdkInput, reply: SdkReply)
    ensures Recorded(calls, trace, calls + [CallOf(input, reply)], trace + [Drive.SdkEvent(input, reply)])
  {
    OneCall(input, reply);
    assert (trace + [Drive.SdkEvent(input, reply)])[|trace|..] == [Drive.SdkEvent(input, reply)];
  }

  lemma EffectNotRecorded(calls: seq<Call>, trace: seq<Drive.Event>, effect: HttpEffect, response: Option<(int, Bytes)>)
    ensures Recorded(calls, trace, calls, trace + [Drive.NetEvent(effect, response)])
  {
    NoCall(effect, response);
    assert (trace + [Drive.NetEvent(effect, response)])[|trace|..] == [Drive.NetEvent(effect, response)];
  }

  lemma RecordedOn(c0: seq<Call>, t0: seq<Drive.Event>, c1: seq<Call>, t1: seq<Drive.Event>, c2: seq<Call>, t2: seq<Drive.Event>)
    requires Recorded(c0, t0, c1, t1) && Recorded(c1, t1, c2, t2)
    ensures Recorded(c0, t0, c2, t2)
  {
    var a, b := t1[|t0|..], t2[|t1|..];
    assert t2[|t0|..] == a + b;
    CallsConcat(a, b);
  }

  /** `w'` is `w` after a drive of thread `t` that left `st`, came to `outcome`, and made these calls so far. */
  ghost predicate DroveTo(w: World, t: Tid, r: Ref, req: Request, st: Store<Ref>, outcome: Outcome, calls: seq<Call>, w': World) {
    && Linked(w') && r in w'.hist && w'.hist[r].calls == calls && w'.store == st && w'.now == w.now && w'.cfg == w.cfg
    && t in w'.threads && w'.threads[t].Driven? && w'.threads[t].r == r && w'.threads[t].req == req
    && w'.threads[t].outcome == outcome && w'.threads[t].entered
    && w'.threads == w.threads[t := w'.threads[t]]
  }

  /** The first of the two steps that end a drive: the release towards the next redirect, or the terminal
      write. */
  lemma LeavesFirst(w: World, t: Tid, r: Ref, req: Request, plan: Plan)
    requires Linked(w) && t in w.threads && w.threads[t].Planned? && !plan.Effect?
    requires w.threads[t].r == r && w.threads[t].req == req && w.threads[t].plan == plan
    ensures var w1 := DoPlanned(w, t, Idle);
            && Linked(w1) && t in w1.threads && w1.threads[t].r == r && w1.now == w.now && w1.cfg == w.cfg
            && w1.threads == w.threads[t := w1.threads[t]] && r in w1.hist && w1.hist[r].calls == w.hist[r].calls
            && if plan.Index? then w1.store == SetState(w.store, r, plan.state) && w1.threads[t] == Indexed(r, req, plan.url, plan.state)
               else w1.store == Write(w.store, r, Settled(w.store.heap[r], plan)) && w1.threads[t] == Finalizing(r, req, EndOutcome(plan))
  {
    StillLinked(w, DoPlanned(w, t, Idle), t);
  }

  /** And the second: the status write, or the release. */
  lemma LeavesLast(w: World, t: Tid, r: Ref, req: Request)
    requires Linked(w) && t in w.threads && (w.threads[t].Indexed? || w.threads[t].Finalizing?)
    requires w.threads[t].r == r && w.threads[t].req == req
    ensures var w' := DoAdvance(w, t, Idle).0;
            var (st, outcome) := if w.threads[t].Indexed? then
                                   (Write(w.store, r, Reopened(w.store.heap[r])), Outcome(Some(Authorizing), w.cfg.rewrite(w.threads[t].url), "", None))
                                 else (Finalize(w.store, r), w.threads[t].outcome);
            DroveTo(w, t, r, req, st, outcome, w.hist[r].calls, w')
  {
    StillLinked(w, DoAdvance(w, t, Idle).0, t);
  }

  /** The steps that end a drive do what `Conclude` says. */
  lemma LeavesAlone(w: World, t: Tid, r: Ref, req: Request, plan: Plan) returns (run: seq<Input>, w': World)
    requires Linked(w) && t in w.threads && w.threads[t].Planned? && !plan.Effect?
    requires w.threads[t].r == r && w.threads[t].req == req && w.threads[t].plan == plan
    ensures Alone(w, t, run, w')
    ensures var (st, outcome) := Drive.Conclude(w.cfg, w.store, r, plan); DroveTo(w, t, r, req, st, outcome, w.hist[r].calls, w')
  {
    LeavesFirst(w, t, r, req, plan);
    OneStep(w, t, Idle);
    var w1 := DoPlanned(w, t, Idle);
    LeavesLast(w1, t, r, req);
    OneStep(w1, t, Idle);
    w' := DoAdvance(w1, t, Idle).0;
    run := [Idle] + [Idle];
    var (st, outcome) := Drive.Conclude(w.cfg, w.store, r, plan);
    DroveOn(w, w1, t, r, req, st, outcome, w.hist[r].calls, w', [Idle], [Idle]);
  }

  lemma DroveOn(w: World, w1: World, t: Tid, r: Ref, req: Request, st: Store<Ref>, outcome: Outcome, calls: seq<Call>, w': World,
                a: seq<Input>, b: seq<Input>)
    requires Alone(w, t, a, w1) && Alone(w1, t, b, w') && DroveTo(w1, t, r, req, st, outcome, calls, w')
    requires t in w1.threads && w1.threads == w.threads[t := w1.threads[t]] && w1.now == w.now && w1.cfg == w.cfg
    ensures Alone(w, t, a + b, w') && DroveTo(w, t, r, req, st, outcome, calls, w')
  {
    AloneConcat(w, t, a, w1, b, w');
    DroveSince(w, w1, t, r, req, st, outcome, calls, w');
  }

  lemma DroveSince(w: World, w1: World, t: Tid, r: Ref, req: Request, st: Store<Ref>, outcome: Outcome, calls: seq<Call>, w': World)
    requires DroveTo(w1, t, r, req, st, outcome, calls, w')
    requires t in w1.threads && w1.threads == w.threads[t := w1.threads[t]] && w1.now == w.now && w1.cfg == w.cfg
    ensures DroveTo(w, t, r, req, st, outcome, calls, w')
  {
    assert w'.threads == w.threads[t := w'.threads[t]];
  }

  /** From the head of the loop the handle is written and the branch chosen. */
  lemma KeepsAlone(w: World, t: Tid, r: Ref, req: Request, res: StepResult)
    requires AtHead(w, t, r, req, res)
    ensures var w1 := DoKeepHandle(w, t);
            && Alone(w, t, [Idle], w1) && Linked(w1)
            && w1.store == Write(w.store, r, WithHandle(w.store.heap[r], res.handle))
            && t in w1.threads && w1.threads == w.threads[t := w1.threads[t]] && w1.now == w.now && w1.cfg == w.cfg
            && w1.hist == w.hist
            && w1.threads[t] == Planned(r, req, res.handle, Decide(w.cfg, res))
  {
    OneStep(w, t, Idle);
    StillLinked(w, DoKeepHandle(w, t), t);
  }

  /** The world after one effect and one resume. */
  lemma TurnsAlone(w: World, t: Tid, r: Ref, req: Request, res: StepResult, effect: HttpEffect,
                   response: Option<(int, Bytes)>, reply: SdkReply) returns (run: seq<Input>, w': World)
    requires Linked(w) && t in w.threads && w.threads[t] == Planned(r, req, res.handle, Effect(effect))
    ensures Alone(w, t, run, w') && Linked(w')
    ensures w'.store == w.store && w'.now == w.now && w'.cfg == w.cfg
    ensures t in w'.threads && w'.threads == w.threads[t := w'.threads[t]]
    ensures w'.threads[t] == if response.None? then Planned(r, req, res.handle, UpstreamFailure)
                             else AfterSdk(r, req, res.handle, reply)
    ensures r in w'.hist
    ensures w'.hist[r].calls == w.hist[r].calls + (if response.None? then [] else [HttpCall(res.handle, response.value.0, response.value.1, reply)])
  {
    var w1 := DoUpstream(w, t, response);
    OneStep(w, t, Net(response));
    StillLinked(w, w1, t);
    run, w' := [Net(response)], w1;
    if response.Some? {
      w' := DoResumeHTTP(w1, t, reply);
      OneStep(w1, t, Sdk(reply));
      StillLinked(w1, w', t);
      AloneConcat(w, t, run, w1, [Sdk(reply)], w');
      run := run + [Sdk(reply)];
    }
  }

  /** A drive run alone in the protocol, with the replies the peer gives, leaves the store and the
      outcome of the specification the drive loop is proved against. */
  lemma {:induction false} DriveAlone(env: Drive.Env, rank: Drive.Rank, w: World, t: Tid, r: Ref, req: Request,
                                      res: StepResult, trace: seq<Drive.Event>)
    returns (run: seq<Input>, w': World)
    requires Drive.Ranked(env, rank) && env.cfg == w.cfg && AtHead(w, t, r, req, res) && r in w.store.heap
    ensures Alone(w, t, run, w')
    ensures var end := Drive.Drive(env, rank, w.store, r, trace, res);
            && r in w'.hist && DroveTo(w, t, r, req, end.store, end.outcome, w'.hist[r].calls, w')
            && Recorded(w.hist[r].calls, trace, w'.hist[r].calls, end.trace)
    decreases if Decide(env.cfg, res).Effect? then rank(res.handle) + 1 else 0, 1
  {
    Drive.DriveByTurns(env, rank, w.store, r, trace, res);
    Drive.TurnsRank(env, rank, trace, res);
    KeepsAlone(w, t, r, req, res);
    var w1 := DoKeepHandle(w, t);
    var plan := Decide(w.cfg, res);
    var more;
    if !plan.Effect? {
      more, w' := LeavesAlone(w1, t, r, req, plan);
      NothingRecorded(w.hist[r].calls, trace);
    } else {
      more, w' := EffectAlone(env, rank, w1, t, r, req, res, trace, plan.effect);
    }
    var end := Drive.Drive(env, rank, w.store, r, trace, res);
    DroveOn(w, w1, t, r, req, end.store, end.outcome, w'.hist[r].calls, w', [Idle], more);
    run := [Idle] + more;
  }

  lemma {:induction false} EffectAlone(env: Drive.Env, rank: Drive.Rank, w: World, t: Tid, r: Ref, req: Request,
                                       res: StepResult, trace: seq<Drive.Event>, effect: HttpEffect)
    returns (run: seq<Input>, w': World)
    requires Drive.Ranked(env, rank) && env.cfg == w.cfg && Linked(w) && r in w.store.heap
    requires t in w.threads && w.threads[t] == Planned(r, req, res.handle, Effect(effect)) && Decide(env.cfg, res) == Effect(effect)
    ensures Alone(w, t, run, w')
    ensures var (told, next) := Drive.TurnOf(env, trace, res, effect);
            var end := if next.Ok? then Drive.Drive(env, rank, w.store, r, told, next.value)
                       else Drive.EndWith(env.cfg, w.store, r, told, Drive.FailurePlan(next));
            && r in w'.hist && DroveTo(w, t, r, req, end.store, end.outcome, w'.hist[r].calls, w')
            && Recorded(w.hist[r].calls, trace, w'.hist[r].calls, end.trace)
    decreases rank(res.handle) + 1, 0
  {
    var response := env.net(trace, effect);
    var heard := trace + [Drive.NetEvent(effect, response)];
    var reply := if response.None? then SdkError else env.sdk(heard, Drive.ResumeHTTP(res.handle, response.value.0, response.value.1));
    var (told, next) := Drive.TurnOf(env, trace, res, effect);
    Drive.TurnsRank(env, rank, trace, res);
    var a, w1 := TurnsAlone(w, t, r, req, res, effect, response, reply);
    TurnRecorded(env, w.hist[r].calls, trace, res, effect);
    var b;
    ghost var end;
    if next.Ok? {
      b, w' := DriveAlone(env, rank, w1, t, r, req, next.value, told);
      end := Drive.Drive(env, rank, w.store, r, told, next.value);
    } else {
      b, w' := LeavesAlone(w1, t, r, req, Drive.FailurePlan(next));
      end := Drive.EndWith(env.cfg, w.store, r, told, Drive.FailurePlan(next));
      NothingRecorded(w1.hist[r].calls, told);
    }
    RecordedOn(w.hist[r].calls, trace, w1.hist[r].calls, told, w'.hist[r].calls, end.trace);
    DroveOn(w, w1, t, r, req, end.store, end.outcome, w'.hist[r].calls, w', a, b);
    run := a + b;
  }

  lemma TurnRecorded(env: Drive.Env, calls: seq<Call>, trace: seq<Drive.Event>, res: StepResult, effect: HttpEffect)
    ensures var response := env.net(trace, effect);
            var heard := trace + [Drive.NetEvent(effect, response)];
            var calls' := if response.None? then calls
                          else calls + [HttpCall(res.handle, response.value.0, response.value.1,
                                                 env.sdk(heard, Drive.ResumeHTTP(res.handle, response.value.0, response.value.1)))];
            Recorded(calls, trace, calls', Drive.TurnOf(env, trace, res, effect).0)
  {
    var response := env.net(trace, effect);
    var heard := trace + [Drive.NetEvent(effect, response)];
    EffectNotRecorded(calls, trace, effect, response);
    if response.Some? {
      var input := Drive.ResumeHTTP(res.handle, response.value.0, response.value.1);
      CallRecorded(calls, heard, input, env.sdk(heard, input));
      RecordedOn(calls, trace, calls, heard, calls + [CallOf(input, env.sdk(heard, input))], heard + [Drive.SdkEvent(input, env.sdk(heard, input))]);
    }
  }

  // --- A whole callback ---------------------------------------------------------------

  /** `w'` is `w` after the call of thread `t` on session `r` that left `st` and came to `outcome`. */
  ghost predicate CalledTo(w: World, t: Tid, r: Ref, req: Request, st: Store<Ref>, outcome: Outcome, w': World) {
    && Linked(w') && r in w'.hist && w'.store == st && w'.now == w.now
    && t in w'.threads && w'.threads[t].Driven? && w'.threads[t].r == r && w'.threads[t].req == req
    && w'.threads[t].outcome == outcome
  }

  /** The resume and the drive of a session that thread `t` has claimed. */
  lemma ResumeAlone(env: Drive.Env, rank: Drive.Rank, w: World, t: Tid, r: Ref, req: Request, handle: Bytes, trace: seq<Drive.Event>)
    returns (run: seq<Input>, w': World)
    requires Drive.Ranked(env, rank) && env.cfg == w.cfg && Linked(w) && r in w.store.heap
    requires t in w.threads && w.threads[t] == Claimed(r, req, handle)
    ensures Alone(w, t, run, w')
    ensures var denied := req.error != "";
            var input := Drive.ReturnInput(handle, denied, if denied then req.error else req.code, req.state);
            var end := Drive.AfterClaim(env, rank, w.store, r, trace, input);
            CalledTo(w, t, r, req, end.store, end.outcome, w') && Recorded(w.hist[r].calls, trace, w'.hist[r].calls, end.trace)
  {
    var denied := req.error != "";
    var input := Drive.ReturnInput(handle, denied, if denied then req.error else req.code, req.state);
    var reply := env.sdk(trace, input);
    var w1 := DoResume(w, t, reply);
    OneStep(w, t, Sdk(reply));
    StillLinked(w, w1, t);
    var told := trace + [Drive.SdkEvent(input, reply)];
    CallRecorded(w.hist[r].calls, trace, input, reply);
    NothingRecorded(w1.hist[r].calls, told);
    var more;
    match reply {
      case SdkError => more, w' := LeavesAlone(w1, t, r, req, ResumeFailure);
      case Stepped(res) => more, w' := DriveAlone(env, rank, w1, t, r, req, res, told);
    }
    RecordedOn(w.hist[r].calls, trace, w1.hist[r].calls, told, w'.hist[r].calls, Drive.AfterClaim(env, rank, w.store, r, trace, input).trace);
    run := [Sdk(reply)] + more;
    AloneConcat(w, t, [Sdk(reply)], w1, more, w');
  }

  lemma ClaimsAlone(w: World, t: Tid)
    requires Linked(w) && t in w.threads && w.threads[t].Found?
    ensures var th, w' := w.threads[t], DoClaim(w, t);
            var (st, claim) := Consume(w.store, th.r, w.now);
            && Linked(w') && w'.store == st && w'.now == w.now && w'.cfg == w.cfg && t in w'.threads
            && th.r in w'.hist && w'.hist[th.r].calls == w.hist[th.r].calls
            && w'.threads[t] == match claim
                                case Ok(handle) => Claimed(th.r, th.req, handle)
                                case Err(e) => Driven(th.r, th.req, Refused(e), false, None)
  {
    StillLinked(w, DoClaim(w, t), t);
  }

  /** The claim, and what follows it. */
  lemma CallAlone(env: Drive.Env, rank: Drive.Rank, w: World, t: Tid, r: Ref, req: Request, trace: seq<Drive.Event>)
    returns (run: seq<Input>, w': World)
    requires Drive.Ranked(env, rank) && env.cfg == w.cfg && Linked(w) && r in w.store.heap
    requires t in w.threads && w.threads[t] == Found(r, req)
    ensures Alone(w, t, run, w')
    ensures var denied := req.error != "";
            var end := Drive.CompleteCall(env, rank, w.store, r, trace, denied, if denied then req.error else req.code, req.state, w.now);
            CalledTo(w, t, r, req, end.store, end.outcome, w') && Recorded(w.hist[r].calls, trace, w'.hist[r].calls, end.trace)
  {
    var w1 := DoClaim(w, t);
    OneStep(w, t, Idle);
    ClaimsAlone(w, t);
    run, w' := [Idle], w1;
    NothingRecorded(w.hist[r].calls, trace);
    var claim := Consume(w.store, r, w.now).1;
    if claim.Ok? {
      var more;
      more, w' := ResumeAlone(env, rank, w1, t, r, req, claim.value, trace);
      AloneConcat(w, t, run, w1, more, w');
      run := run + more;
    }
  }

  /** `w'` is `w` after thread `t` prepared `answer` and left `st`. */
  ghost predicate AnsweredTo(t: Tid, st: Store<Ref>, answer: Answer, w': World) {
    && Linked(w') && w'.store == st && t in w'.threads && w'.threads[t].Answered? && w'.threads[t].answer == answer
    && DoReturn(w', t).1 == Some(answer)
  }

  /** The call and the final view of a session that thread `t` has looked up. */
  lemma PathAlone(env: Drive.Env, rank: Drive.Rank, w: World, t: Tid, r: Ref, req: Request, trace: seq<Drive.Event>)
    returns (run: seq<Input>, w': World)
    requires Drive.Ranked(env, rank) && env.cfg == w.cfg && Linked(w) && r in w.store.heap
    requires t in w.threads && w.threads[t] == Found(r, req)
    ensures Alone(w, t, run, w')
    ensures var (st, trace', completion) := Drive.PathFrom(env, rank, w.store, r, trace, req, w.now, w.now);
            AnsweredTo(t, st, Reply(req, completion.0, completion.1), w')
            && r in w'.hist && Recorded(w.hist[r].calls, trace, w'.hist[r].calls, trace')
  {
    var call, w1 := CallAlone(env, rank, w, t, r, req, trace);
    var denied := req.error != "";
    var payload := if denied then req.error else req.code;
    Drive.CallKeepsIdentity(env, rank, w.store, r, trace, denied, payload, req.state, w.now);
    w' := DoView(w1, t);
    OneStep(w1, t, Idle);
    AloneConcat(w, t, call, w1, [Idle], w');
    run := call + [Idle];
  }

  /** A lookup that is not refused leaves its thread with the session it found. */
  lemma LookupAlone(w: World, t: Tid, req: Request)
    requires Linked(w) && t !in w.threads
    ensures var (looked, refused) := DoLookup(w, t, req);
            if !Valid(req) then refused == Some(BadRequest) && looked == w
            else
              var (st, found) := GetByState(w.store, req.state, w.now);
              && looked.store == st && looked.cfg == w.cfg && looked.now == w.now
              && if found.None? then refused == Some(UnknownState)
                 else refused == None && Linked(looked) && looked.hist == w.hist && t in looked.threads && looked.threads[t] == Found(found.value, req)
  {
  }

  /** A callback with no other thread in between leaves the store, gives the answer, and tells the SDK what
      the handlers are proved to leave, to give and to tell: the history has recorded exactly the SDK
      calls among the exchanges. */
  lemma CallbackAlone(env: Drive.Env, rank: Drive.Rank, w: World, t: Tid, req: Request, trace: seq<Drive.Event>)
    returns (run: seq<Input>, w': World)
    requires Drive.Ranked(env, rank) && env.cfg == w.cfg && Linked(w) && t !in w.threads
    ensures var (st, trace', completion) := Drive.CompletionPath(env, rank, w.store, trace, req, w.now, w.now, w.now);
            var answer := Reply(req, completion.0, completion.1);
            var (looked, refused) := DoLookup(w, t, req);
            if refused.Some? then looked.store == st && refused.value == answer && looked.hist == w.hist && trace' == trace
            else
              && Alone(looked, t, run, w') && AnsweredTo(t, st, answer, w')
              && var r := looked.threads[t].r;
                 r in w.hist && r in w'.hist && Recorded(w.hist[r].calls, trace, w'.hist[r].calls, trace')
  {
    LookupAlone(w, t, req);
    var (looked, refused) := DoLookup(w, t, req);
    run, w' := [], looked;
    if refused.None? {
      run, w' := PathAlone(env, rank, looked, t, looked.threads[t].r, req, trace);
    }
  }

  // --- A whole start ------------------------------------------------------------------

  /** A start with no other thread in between leaves the store that `Begin` is proved to leave and gives its
      answer; without a well-formed redirect it fails and leaves everything as it was. */
  lemma StartAlone(w: World, t: Tid, r: Ref, id: string, clientState: string, conformance: string, reply: SdkReply, reading: int)
    returns (w': World)
    requires Linked(w) && Enabled(w, Start(t, r, id, clientState, conformance, reply))
    ensures var (started, answer) := DoStart(w, t, r, id, clientState, conformance, reply);
            if !reply.Stepped? || !Decide(w.cfg, reply.res).Index? then answer == Some(StartFailed) && started == w
            else
              var plan := Decide(w.cfg, reply.res);
              && answer == None && Alone(started, t, [Clock(reading)] + [Idle], w')
              && w'.store == Drive.Opened(w.cfg, w.store, r, id, clientState, conformance, reply.res.handle, plan.state, w.now, reading)
              && Linked(w') && t in w'.threads && w'.threads[t].Begun?
              && DoReturn(w', t).1 == Some(Started(w.cfg.rewrite(plan.url), id, reading + w.cfg.ttl))
              && r in w'.hist && w'.hist[r].calls == [BeginCall(reply)]
  {
    w' := w;
    if reply.Stepped? && Decide(w.cfg, reply.res).Index? {
      var started := DoStart(w, t, r, id, clientState, conformance, reply).0;
      w' := OpensAlone(started, t, reading);
    }
  }

  lemma OpensAlone(w: World, t: Tid, reading: int) returns (w': World)
    requires Linked(w) && t in w.threads && w.threads[t].Starting?
    ensures Alone(w, t, [Clock(reading)] + [Idle], w') && Linked(w') && w'.cfg == w.cfg && w'.hist == w.hist
    ensures var th := w.threads[t];
            && w'.store == Drive.Opened(w.cfg, w.store, th.r, w.hist[th.r].id, th.clientState, th.conformance, th.handle, th.state, w.now, reading)
            && t in w'.threads && w'.threads[t] == Begun(th.r, th.url, th.state) && w'.store.heap[th.r].expiresAt == reading + w.cfg.ttl
  {
    var w1 := DoNew(w, t, reading);
    NewLinked(w, t, reading);
    OneStep(w, t, Clock(reading));
    w' := DoBegun(w1, t);
    StillLinked(w1, w', t);
    OneStep(w1, t, Idle);
    AloneConcat(w, t, [Clock(reading)], w1, [Idle], w');
  }

  lemma NewLinked(w: World, t: Tid, reading: int)
    requires Linked(w) && t in w.threads && w.threads[t].Starting?
    ensures Linked(DoNew(w, t, reading))
  {
  }

  // --- A poll --------------------------------------------------------------------------

  /** A poll leaves the store that the observers are proved to leave, and shows what the stored record says. */
  lemma PollAlone(w: World, id: string)
    requires Linked(w)
    ensures var (w', answer) := DoPoll(w, id, StatusPoll);
            && w' == w.(store := ViewByID(w.store, id, w.now).0)
            && if id !in w.store.byID then answer == Some(NotFound)
               else
                 var rec := w.store.heap[w.store.byID[id]];
                 answer == Some(if (rec.status == Pending || rec.status == Authorizing) && w.now > rec.expiresAt
                                then StatusIs(Failed, Some("session_expired"))
                                else StatusIs(rec.status, if rec.status == Failed && rec.reason != "" then Some(rec.reason) else None))
    ensures var (w', answer) := DoPoll(w, id, ResultPoll);
            && w' == DoPoll(w, id, StatusPoll).0
            && if id !in w.store.byID then answer == Some(NotFound)
               else
                 var rec := w.store.heap[w.store.byID[id]];
                 answer == Some(if rec.status == Completed then SignedDocument(rec.resultPDF, if rec.evidence == Some([]) then None else rec.evidence)
                                else NotCompleted)
  {
    StatusShown(w.store, id, w.now);
    ResultShown(w.store, id, w.now);
  }
}
