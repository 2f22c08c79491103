/**
 The drive loop as a recursive specification, and what it amounts to (internal/flow/flow.go).

 The SDK and the upstream services may answer differently every time they are asked, so they are
 functions of everything that has happened so far.
 */
module Drive {
  import opened Basics
  import opened Steps
  import opened SessionStore
  import opened HttpApi

  datatype SdkInput =
    | BeginSession(document: Bytes, conformance: string, signer: Option<(string, string)>)
    | ResumeRedirect(handle: Bytes, code: string, state: string)
    | ResumeRedirectError(handle: Bytes, error: string, state: string)
    | ResumeHTTP(handle: Bytes, status: int, body: Bytes)

  /** One exchange with the outside world. */
  datatype Event =
    | SdkEvent(input: SdkInput, reply: SdkReply)
    | NetEvent(effect: HttpEffect, response: Option<(int, Bytes)>)

  datatype Env = Env(
    cfg: Config,
    sdk: (seq<Event>, SdkInput) -> SdkReply,
    net: (seq<Event>, HttpEffect) -> Option<(int, Bytes)>)

  /** The SDK's rank of a handle: how many HTTP effects it may still ask for in a row. */
  type Rank = Bytes -> nat

  ghost predicate Ranked(env: Env, rank: Rank) {
    forall trace: seq<Event>, handle: Bytes, status: int, body: Bytes ::
      var reply := env.sdk(trace, ResumeHTTP(handle, status, body));
      reply.Stepped? && Decide(env.cfg, reply.res).Effect? ==> rank(reply.res.handle) < rank(handle)
  }

  /** How a drive ends: the store, everything exchanged so far, and the outcome. */
  datatype Ending<R> = Ending(store: Store<R>, trace: seq<Event>, outcome: Outcome)

  /** The last store calls of a drive: release towards the next redirect, or the terminal write and
      its release. */
  function Conclude<R>(cfg: Config, st: Store<R>, r: R, plan: Plan): (Store<R>, Outcome)
    requires r in st.heap && !plan.Effect?
  {
    if plan.Index? then
      var indexed := SetState(st, r, plan.state);
      (Write(indexed, r, Reopened(indexed.heap[r])), Outcome(Some(Authorizing), cfg.rewrite(plan.url), "", None))
    else
      (Finalize(Write(st, r, Settled(st.heap[r], plan)), r), EndOutcome(plan))
  }

  ghost function EndWith<R>(cfg: Config, st: Store<R>, r: R, trace: seq<Event>, plan: Plan): Ending<R>
    requires r in st.heap && !plan.Effect?
  {
    var (store, outcome) := Conclude(cfg, st, r, plan);
    Ending(store, trace, outcome)
  }

  /** The loop of `drive`, one step at a time. */
  ghost function Drive<R>(env: Env, rank: Rank, st: Store<R>, r: R, trace: seq<Event>, res: StepResult): Ending<R>
    requires Ranked(env, rank) && r in st.heap
    decreases if Decide(env.cfg, res).Effect? then rank(res.handle) + 1 else 0
  {
    var kept := Write(st, r, WithHandle(st.heap[r], res.handle));
    match Decide(env.cfg, res)
    case Effect(effect) =>
      (var response := env.net(trace, effect);
       var heard := trace + [NetEvent(effect, response)];
       match response
       case None => EndWith(env.cfg, kept, r, heard, UpstreamFailure)
       case Some(p) =>
         var input := ResumeHTTP(res.handle, p.0, p.1);
         var reply := env.sdk(heard, input);
         var told := heard + [SdkEvent(input, reply)];
         match reply
         case SdkError => EndWith(env.cfg, kept, r, told, ResumeFailure)
         case Stepped(next) => Drive(env, rank, kept, r, told, next))
    case plan => EndWith(env.cfg, kept, r, trace, plan)
  }

  /** One HTTP effect and the resume it feeds: the next step, or the plan to fail with. */
  function TurnOf(env: Env, trace: seq<Event>, res: StepResult, effect: HttpEffect): (seq<Event>, Result<StepResult, Plan>) {
    var response := env.net(trace, effect);
    var heard := trace + [NetEvent(effect, response)];
    match response
    case None => (heard, Err(UpstreamFailure))
    case Some(p) =>
      var input := ResumeHTTP(res.handle, p.0, p.1);
      var reply := env.sdk(heard, input);
      (heard + [SdkEvent(input, reply)], if reply.Stepped? then Ok(reply.res) else Err(ResumeFailure))
  }

  /** The loop, one turn at a time. */
  lemma DriveByTurns<R>(env: Env, rank: Rank, st: Store<R>, r: R, trace: seq<Event>, res: StepResult)
    requires Ranked(env, rank) && r in st.heap
    ensures var kept := Write(st, r, WithHandle(st.heap[r], res.handle));
            var plan := Decide(env.cfg, res);
            Drive(env, rank, st, r, trace, res) ==
              if !plan.Effect? then EndWith(env.cfg, kept, r, trace, plan)
              else
                var (told, next) := TurnOf(env, trace, res, plan.effect);
                if next.Ok? then Drive(env, rank, kept, r, told, next.value) else EndWith(env.cfg, kept, r, told, FailurePlan(next))
  {
  }

  /** A turn that brings another HTTP effect has used up some of the SDK's rank. */
  lemma TurnsRank(env: Env, rank: Rank, trace: seq<Event>, res: StepResult)
    requires Ranked(env, rank)
    ensures var plan := Decide(env.cfg, res);
            plan.Effect? && TurnOf(env, trace, res, plan.effect).1.Ok? ==>
              var next := TurnOf(env, trace, res, plan.effect).1.value;
              Decide(env.cfg, next).Effect? ==> rank(next.handle) < rank(res.handle)
  {
  }

  /** The plan a failed turn ends with. */
  function FailurePlan(next: Result<StepResult, Plan>): (p: Plan)
    ensures !p.Effect?
  {
    if next.Err? && !next.error.Effect? then next.error else ResumeFailure
  }

  // --- What a drive amounts to ---------------------------------------------------------

  /** One turn of a drive: an effect that failed, an effect whose response the SDK refused, or an
      effect whose response brought the next step. */
  datatype Turn =
    | Unanswered(effect: HttpEffect)
    | Rejected(effect: HttpEffect, status: int, body: Bytes)
    | Continued(effect: HttpEffect, status: int, body: Bytes, next: StepResult)

  /** Step 0 is the one the drive starts with; step `i` is the one turn `i - 1` brought. */
  function StepAt(res: StepResult, turns: seq<Turn>, i: nat): StepResult
    requires i <= |turns|
  {
    if i > 0 && turns[i - 1].Continued? then turns[i - 1].next else res
  }

  predicate Breaks(turns: seq<Turn>) {
    |turns| > 0 && !turns[|turns| - 1].Continued?
  }

  /** The number of the last step the SDK gave. */
  function LastStep(turns: seq<Turn>): (n: nat)
    ensures n <= |turns|
  {
    if Breaks(turns) then |turns| - 1 else |turns|
  }

  /** The plan a drive ends with. */
  function Verdict(cfg: Config, res: StepResult, turns: seq<Turn>): Plan {
    if !Breaks(turns) then Decide(cfg, StepAt(res, turns, |turns|))
    else if turns[|turns| - 1].Unanswered? then UpstreamFailure
    else ResumeFailure
  }

  /** The script of a drive: turn `i` performs the effect of step `i`, only the last turn may break
      off, and without a break the last step is not an HTTP effect. */
  ghost predicate Script(cfg: Config, res: StepResult, turns: seq<Turn>) {
    && (forall i | 0 <= i < |turns| :: Decide(cfg, StepAt(res, turns, i)) == Effect(turns[i].effect))
    && (forall i | 0 <= i < |turns| - 1 :: turns[i].Continued?)
    && !Verdict(cfg, res, turns).Effect?
  }

  /** What the turns exchange: each effect once and in order, and each response fed to one resume,
      with the handle of the step that asked for it. */
  function Events(res: StepResult, turns: seq<Turn>): seq<Event>
    decreases |turns|
  {
    if turns == [] then []
    else
      match turns[0]
      case Unanswered(e) => [NetEvent(e, None)]
      case Rejected(e, status, body) =>
        [NetEvent(e, Some((status, body))), SdkEvent(ResumeHTTP(res.handle, status, body), SdkError)]
      case Continued(e, status, body, next) =>
        [NetEvent(e, Some((status, body))), SdkEvent(ResumeHTTP(res.handle, status, body), Stepped(next))] + Events(next, turns[1..])
  }

  /** The answer of the event is the peer's own answer after `trace`. */
  ghost predicate Genuine(env: Env, trace: seq<Event>, event: Event) {
    match event
    case NetEvent(effect, response) => response == env.net(trace, effect)
    case SdkEvent(input, reply) => reply == env.sdk(trace, input)
  }

  /** Every answer in `events` is the peer's own answer at that point. */
  ghost predicate AnsweredBy(env: Env, trace: seq<Event>, events: seq<Event>)
    decreases |events|
  {
    events == [] || (Genuine(env, trace, events[0]) && AnsweredBy(env, trace + [events[0]], events[1..]))
  }

  lemma ScriptShift(cfg: Config, res: StepResult, first: Turn, turns: seq<Turn>)
    requires first.Continued? && Decide(cfg, res) == Effect(first.effect)
    requires Script(cfg, first.next, turns)
    ensures var whole := [first] + turns;
            && Script(cfg, res, whole)
            && Verdict(cfg, res, whole) == Verdict(cfg, first.next, turns)
            && StepAt(res, whole, LastStep(whole)) == StepAt(first.next, turns, LastStep(turns))
  {
    var whole := [first] + turns;
    forall i | 0 <= i < |turns| ensures whole[i + 1] == turns[i] && StepAt(res, whole, i + 1) == StepAt(first.next, turns, i) {
      if i > 0 { assert turns[i - 1].Continued?; }
    }
    forall i | 0 <= i < |whole| ensures Decide(cfg, StepAt(res, whole, i)) == Effect(whole[i].effect) {
      if i > 0 {
        assert Decide(cfg, StepAt(first.next, turns, i - 1)) == Effect(turns[i - 1].effect);
      }
    }
  }

  lemma EventsShift(env: Env, trace: seq<Event>, res: StepResult, first: Turn, turns: seq<Turn>)
    requires first.Continued?
    requires var two := Events(res, [first]);
             AnsweredBy(env, trace, two) && AnsweredBy(env, trace + two, Events(first.next, turns))
    ensures Events(res, [first] + turns) == Events(res, [first]) + Events(first.next, turns)
    ensures AnsweredBy(env, trace, Events(res, [first] + turns))
  {
    var two, rest := Events(res, [first]), Events(first.next, turns);
    assert ([first] + turns)[1..] == turns && [first][1..] == [];
    AnsweredConcat(env, trace, two, rest);
  }

  lemma {:induction false} AnsweredConcat(env: Env, trace: seq<Event>, a: seq<Event>, b: seq<Event>)
    requires AnsweredBy(env, trace, a) && AnsweredBy(env, trace + a, b)
    ensures AnsweredBy(env, trace, a + b)
    decreases |a|
  {
    if a == [] {
      assert a + b == b && trace + a == trace;
    } else {
      assert trace + a == trace + [a[0]] + a[1..];
      assert (a + b)[1..] == a[1..] + b;
      AnsweredConcat(env, trace + [a[0]], a[1..], b);
    }
  }

  /** What a script says of a drive. */
  ghost predicate Describes<R>(env: Env, rank: Rank, st: Store<R>, r: R, trace: seq<Event>, res: StepResult, turns: seq<Turn>)
    requires Ranked(env, rank) && r in st.heap
  {
    && Script(env.cfg, res, turns)
    && AnsweredBy(env, trace, Events(res, turns))
    && var kept := Write(st, r, WithHandle(st.heap[r], StepAt(res, turns, LastStep(turns)).handle));
       var end := Drive(env, rank, st, r, trace, res);
       && end.trace == trace + Events(res, turns)
       && (end.store, end.outcome) == Conclude(env.cfg, kept, r, Verdict(env.cfg, res, turns))
  }

  /** For every behaviour of the SDK and the upstream services the drive loop terminates, and what it
      does is one script: the leading HTTP effects in order, once each, each response fed to exactly
      one resume with the handle of the step that asked, up to the first failure. The store it leaves
      and its outcome depend only on the last handle and the verdict: the handle is written, then the
      claim is released in the one way the verdict prescribes. */
  lemma {:induction false} DriveIsScript<R>(env: Env, rank: Rank, st: Store<R>, r: R, trace: seq<Event>, res: StepResult)
    returns (turns: seq<Turn>)
    requires Ranked(env, rank) && r in st.heap
    ensures Describes(env, rank, st, r, trace, res, turns)
    decreases if Decide(env.cfg, res).Effect? then rank(res.handle) + 1 else 0, 1
  {
    var plan := Decide(env.cfg, res);
    if !plan.Effect? {
      turns := [];
      assert trace + [] == trace;
    } else {
      var response := env.net(trace, plan.effect);
      if response.None? {
        turns := [Unanswered(plan.effect)];
      } else {
        turns := DriveContinues(env, rank, st, r, trace, res, plan.effect, response.value.0, response.value.1);
      }
    }
  }

  lemma {:induction false} DriveContinues<R>(env: Env, rank: Rank, st: Store<R>, r: R, trace: seq<Event>, res: StepResult,
                                             effect: HttpEffect, status: int, body: Bytes)
    returns (turns: seq<Turn>)
    requires Ranked(env, rank) && r in st.heap
    requires Decide(env.cfg, res) == Effect(effect) && env.net(trace, effect) == Some((status, body))
    ensures Describes(env, rank, st, r, trace, res, turns)
    decreases rank(res.handle) + 1, 0
  {
    var input := ResumeHTTP(res.handle, status, body);
    var heard := trace + [NetEvent(effect, Some((status, body)))];
    var reply := env.sdk(heard, input);
    var told := heard + [SdkEvent(input, reply)];
    if reply.SdkError? {
      turns := [Rejected(effect, status, body)];
      assert told == trace + Events(res, turns);
    } else {
      var kept := Write(st, r, WithHandle(st.heap[r], res.handle));
      var rest := DriveIsScript(env, rank, kept, r, told, reply.res);
      turns := [Continued(effect, status, body, reply.res)] + rest;
      OneMoreTurn(env, rank, st, r, trace, res, effect, status, body, rest);
    }
  }

  lemma OneMoreTurn<R>(env: Env, rank: Rank, st: Store<R>, r: R, trace: seq<Event>, res: StepResult,
                       effect: HttpEffect, status: int, body: Bytes, rest: seq<Turn>)
    requires Ranked(env, rank) && r in st.heap
    requires Decide(env.cfg, res) == Effect(effect) && env.net(trace, effect) == Some((status, body))
    requires var input := ResumeHTTP(res.handle, status, body);
             var heard := trace + [NetEvent(effect, Some((status, body)))];
             var reply := env.sdk(heard, input);
             reply.Stepped?
             && Describes(env, rank, Write(st, r, WithHandle(st.heap[r], res.handle)), r, heard + [SdkEvent(input, reply)], reply.res, rest)
    ensures var reply := env.sdk(trace + [NetEvent(effect, Some((status, body)))], ResumeHTTP(res.handle, status, body));
            Describes(env, rank, st, r, trace, res, [Continued(effect, status, body, reply.res)] + rest)
  {
    var input := ResumeHTTP(res.handle, status, body);
    var heard := trace + [NetEvent(effect, Some((status, body)))];
    var next := env.sdk(heard, input).res;
    var told := heard + [SdkEvent(input, Stepped(next))];
    var kept := Write(st, r, WithHandle(st.heap[r], res.handle));
    ScriptShift(env.cfg, res, Continued(effect, status, body, next), rest);
    TurnEvents(env, trace, res, effect, status, body, rest);
    assert Drive(env, rank, st, r, trace, res) == Drive(env, rank, kept, r, told, next);
    WriteTwice(st, r, res.handle, StepAt(next, rest, LastStep(rest)).handle);
  }

  lemma TurnEvents(env: Env, trace: seq<Event>, res: StepResult, effect: HttpEffect, status: int, body: Bytes, rest: seq<Turn>)
    requires env.net(trace, effect) == Some((status, body))
    requires var input := ResumeHTTP(res.handle, status, body);
             var heard := trace + [NetEvent(effect, Some((status, body)))];
             var reply := env.sdk(heard, input);
             reply.Stepped? && AnsweredBy(env, heard + [SdkEvent(input, reply)], Events(reply.res, rest))
    ensures var input := ResumeHTTP(res.handle, status, body);
            var heard := trace + [NetEvent(effect, Some((status, body)))];
            var reply := env.sdk(heard, input);
            var turns := [Continued(effect, status, body, reply.res)] + rest;
            && trace + Events(res, turns) == heard + [SdkEvent(input, reply)] + Events(reply.res, rest)
            && AnsweredBy(env, trace, Events(res, turns))
  {
    var input := ResumeHTTP(res.handle, status, body);
    var heard := trace + [NetEvent(effect, Some((status, body)))];
    var next := env.sdk(heard, input).res;
    var first := Continued(effect, status, body, next);
    OneTurnEvents(res, effect, status, body, next);
    TwoAnswered(env, trace, NetEvent(effect, Some((status, body))), SdkEvent(input, Stepped(next)));
    TwoThenMore(trace, NetEvent(effect, Some((status, body))), SdkEvent(input, Stepped(next)), Events(next, rest));
    EventsShift(env, trace, res, first, rest);
  }

  /** What one turn exchanges. */
  lemma OneTurnEvents(res: StepResult, effect: HttpEffect, status: int, body: Bytes, next: StepResult)
    ensures Events(res, [Continued(effect, status, body, next)])
            == [NetEvent(effect, Some((status, body))), SdkEvent(ResumeHTTP(res.handle, status, body), Stepped(next))]
  {
    assert [Continued(effect, status, body, next)][1..] == [];
  }

  lemma TwoThenMore(trace: seq<Event>, a: Event, b: Event, more: seq<Event>)
    ensures trace + [a, b] == trace + [a] + [b]
    ensures trace + ([a, b] + more) == trace + [a] + [b] + more
  {
  }

  lemma TwoAnswered(env: Env, trace: seq<Event>, a: Event, b: Event)
    requires Genuine(env, trace, a) && Genuine(env, trace + [a], b)
    ensures AnsweredBy(env, trace, [a, b])
  {
    assert [a, b][1..] == [b] && [b][1..] == [];
    assert AnsweredBy(env, trace + [a], [b]);
  }

  lemma WriteTwice<R>(st: Store<R>, r: R, h: Bytes, h': Bytes)
    requires r in st.heap
    ensures var kept := Write(st, r, WithHandle(st.heap[r], h));
            Write(kept, r, WithHandle(kept.heap[r], h')) == Write(st, r, WithHandle(st.heap[r], h'))
  {
    var kept := Write(st, r, WithHandle(st.heap[r], h));
    assert Write(kept, r, WithHandle(kept.heap[r], h')).heap == Write(st, r, WithHandle(st.heap[r], h')).heap;
  }

  /** Every exit releases the claim, in one of two ways: the session waits under the new state, indexed
      and authorizing; or it is over, with the status and reason of the plan, no state, no handle, and
      no index entry. The outcome says which. */
  lemma ExitReleases<R>(cfg: Config, st: Store<R>, r: R, plan: Plan)
    requires Consistent(st) && r in st.heap && st.heap[r].oauthState == "" && !plan.Effect?
    ensures var (st', outcome) := Conclude(cfg, st, r, plan);
            var rec := st'.heap[r];
            && st'.heap.Keys == st.heap.Keys && st'.byID == st.byID && !rec.resuming
            && (forall r' | r' in st.heap && r' != r :: st'.heap[r'] == st.heap[r'])
            && if plan.Index? then
                 && rec == st.heap[r].(oauthState := plan.state, status := Authorizing, resuming := false)
                 && st'.byState == (if plan.state == "" then st.byState else st.byState[plan.state := rec.correlationID])
                 && outcome == Outcome(Some(Authorizing), cfg.rewrite(plan.url), "", None)
               else
                 && rec.oauthState == "" && rec.handle == [] && st'.byState == st.byState
                 && (plan.Finish? ==>
                       && rec == st.heap[r].(oauthState := "", handle := [], resuming := false, status := Completed,
                                             resultPDF := plan.pdf, evidence := plan.evidence)
                       && outcome == Outcome(Some(Completed), "", "", None))
                 && (plan.Fail? ==>
                       && rec == st.heap[r].(oauthState := "", handle := [], resuming := false, status := plan.status, reason := plan.reason,
                                             evidence := if plan.failEvidence.Some? then plan.failEvidence else st.heap[r].evidence)
                       && outcome == plan.outcome)
  {
  }

  // --- Begin --------------------------------------------------------------------------------

  /** The end of `Begin`: the session `s` is created, then its handle and its status are written. */
  function Opened<R>(cfg: Config, st: Store<R>, s: R, id: string, clientState: string, conformance: string,
                     handle: Bytes, state: string, evictAt: int, createdAt: int): Store<R>
    requires Closed(st)
  {
    var created := New(st, s, id, state, clientState, conformance, cfg.ttl, evictAt, createdAt);
    Write(created, s, Reopened(WithHandle(created.heap[s], handle)))
  }

  /** A session that has begun: it waits under its state with the SDK's handle, for its lifetime, and every
      other session that is not five minutes past its deadline, or is being advanced, is still stored. */
  lemma OpenedIs<R>(cfg: Config, st: Store<R>, s: R, id: string, clientState: string, conformance: string,
                    handle: Bytes, state: string, evictAt: int, createdAt: int)
    requires Closed(st) && state != ""
    ensures var st' := Opened(cfg, st, s, id, clientState, conformance, handle, state, evictAt, createdAt);
            && s in st'.heap
            && st'.heap[s] == Record(id, state, clientState, handle, Authorizing, "", conformance, [], None,
                                     createdAt, createdAt + cfg.ttl, false)
            && id in st'.byID && st'.byID[id] == s && state in st'.byState && st'.byState[state] == id
            && (forall r | r in st.heap && r != s :: r in st'.heap && st'.heap[r] == st.heap[r])
            && (forall i | i in st.byID && i != id ::
                  i in st'.byID <==> st.heap[st.byID[i]].resuming || evictAt <= st.heap[st.byID[i]].expiresAt + 300_000_000_000)
            && (forall i | i in st'.byID && i != id :: i in st.byID && st'.byID[i] == st.byID[i])
  {
  }

  // --- Complete and CompleteError ---------------------------------------------------------

  function ReturnInput(handle: Bytes, denied: bool, payload: string, state: string): SdkInput {
    if denied then ResumeRedirectError(handle, payload, state) else ResumeRedirect(handle, payload, state)
  }

  /** One resume with the claimed session, then the drive. */
  ghost function AfterClaim<R>(env: Env, rank: Rank, claimed: Store<R>, r: R, trace: seq<Event>, input: SdkInput): Ending<R>
    requires Ranked(env, rank) && r in claimed.heap
  {
    var reply := env.sdk(trace, input);
    var told := trace + [SdkEvent(input, reply)];
    match reply
    case SdkError => EndWith(env.cfg, claimed, r, told, ResumeFailure)
    case Stepped(res) => Drive(env, rank, claimed, r, told, res)
  }

  /** `Complete`, or, if `denied`, `CompleteError`: claim, resume, drive. */
  ghost function CompleteCall<R>(env: Env, rank: Rank, st: Store<R>, r: R, trace: seq<Event>,
                                 denied: bool, payload: string, state: string, now: int): Ending<R>
    requires Ranked(env, rank) && r in st.heap
  {
    var (claimed, claim) := Consume(st, r, now);
    match claim
    case Err(e) => Ending(claimed, trace, HttpApi.Refused(e))
    case Ok(handle) => AfterClaim(env, rank, claimed, r, trace, ReturnInput(handle, denied, payload, state))
  }

  /** Nobody else holds the session and it is neither over nor past its deadline. */
  predicate MayClaim(rec: Record, now: int) {
    (rec.status == Pending || rec.status == Authorizing) && now <= rec.expiresAt && !rec.resuming
  }

  /** The exchanges of a call that claimed its session: first the one redirect resume, with the session's
      handle, then HTTP effects and their resumes only. */
  ghost predicate Tells(handle: Bytes, denied: bool, payload: string, state: string, events: seq<Event>) {
    && |events| > 0 && events[0].SdkEvent?
    && events[0].input == (if denied then ResumeRedirectError(handle, payload, state) else ResumeRedirect(handle, payload, state))
    && forall i | 1 <= i < |events| :: events[i].SdkEvent? ==> events[i].input.ResumeHTTP?
  }

  lemma {:induction false} EventsAreHTTP(res: StepResult, turns: seq<Turn>)
    ensures forall i | 0 <= i < |Events(res, turns)| :: Events(res, turns)[i].SdkEvent? ==> Events(res, turns)[i].input.ResumeHTTP?
    decreases |turns|
  {
    if turns != [] && turns[0].Continued? {
      EventsAreHTTP(turns[0].next, turns[1..]);
    }
  }

  /** What a call tells the SDK. A claimed call makes exactly one redirect resume, before anything else, with
      the handle the session held, the callback's code (or error) as such, and its state; a refused call
      exchanges nothing and says why. */
  lemma CallTells<R>(env: Env, rank: Rank, st: Store<R>, r: R, trace: seq<Event>,
                     denied: bool, payload: string, state: string, now: int)
    requires Ranked(env, rank) && r in st.heap
    ensures var end, rec := CompleteCall(env, rank, st, r, trace, denied, payload, state, now), st.heap[r];
            if MayClaim(rec, now) then
              trace <= end.trace && Tells(rec.handle, denied, payload, state, end.trace[|trace|..])
            else
              && end.trace == trace
              && end.outcome == Outcome(None, "", "", Some(
                   if (rec.status == Pending || rec.status == Authorizing) && now <= rec.expiresAt then AlreadyResuming
                   else AlreadyTerminal))
  {
    if MayClaim(st.heap[r], now) {
      ResumeTells(env, rank, Consume(st, r, now).0, r, trace, st.heap[r].handle, denied, payload, state);
    }
  }

  lemma ResumeTells<R>(env: Env, rank: Rank, claimed: Store<R>, r: R, trace: seq<Event>,
                       handle: Bytes, denied: bool, payload: string, state: string)
    requires Ranked(env, rank) && r in claimed.heap
    ensures var end := AfterClaim(env, rank, claimed, r, trace, ReturnInput(handle, denied, payload, state));
            trace <= end.trace && Tells(handle, denied, payload, state, end.trace[|trace|..])
  {
    var input := ReturnInput(handle, denied, payload, state);
    var told := SdkEvent(input, env.sdk(trace, input));
    var rest: seq<Event> := [];
    if told.reply.Stepped? {
      rest := DriveTells(env, rank, claimed, r, trace + [told], told.reply.res);
    }
    FirstThenHTTP(trace, told, rest);
  }

  lemma FirstThenHTTP(trace: seq<Event>, first: Event, rest: seq<Event>)
    requires forall i | 0 <= i < |rest| :: rest[i].SdkEvent? ==> rest[i].input.ResumeHTTP?
    ensures var whole := trace + [first] + rest;
            && trace <= whole && |whole| > |trace| && whole[|trace|..][0] == first
            && forall i | 1 <= i < |whole[|trace|..]| :: whole[|trace|..][i].SdkEvent? ==> whole[|trace|..][i].input.ResumeHTTP?
  {
    assert (trace + [first] + rest)[|trace|..] == [first] + rest;
  }

  /** A drive exchanges HTTP effects and their resumes only. */
  lemma DriveTells<R>(env: Env, rank: Rank, st: Store<R>, r: R, trace: seq<Event>, res: StepResult) returns (events: seq<Event>)
    requires Ranked(env, rank) && r in st.heap
    ensures Drive(env, rank, st, r, trace, res).trace == trace + events
    ensures forall i | 0 <= i < |events| :: events[i].SdkEvent? ==> events[i].input.ResumeHTTP?
  {
    var turns := DriveIsScript(env, rank, st, r, trace, res);
    EventsAreHTTP(res, turns);
    events := Events(res, turns);
  }

  /** What an exit with this plan leaves of session `r`, and says of it. */
  ghost predicate LeftAs<R>(cfg: Config, st: Store<R>, r: R, plan: Plan, st': Store<R>, outcome: Outcome)
    requires r in st.heap && !plan.Effect?
  {
    && st'.heap.Keys == st.heap.Keys && st'.byID == st.byID && !st'.heap[r].resuming
    && (forall r' | r' in st.heap && r' != r :: st'.heap[r'] == st.heap[r'])
    && var rec := st'.heap[r];
       if plan.Index? then
         && rec.oauthState == plan.state && rec.status == Authorizing
         && st'.byState == (if plan.state == "" then st.byState else st.byState[plan.state := rec.correlationID])
         && outcome == Outcome(Some(Authorizing), cfg.rewrite(plan.url), "", None)
       else
         && rec.oauthState == "" && rec.handle == [] && st'.byState == st.byState
         && (plan.Finish? ==> rec.status == Completed && rec.resultPDF == plan.pdf && rec.evidence == plan.evidence
                              && outcome == Outcome(Some(Completed), "", "", None))
         && (plan.Fail? ==> rec.status == plan.status && rec.reason == plan.reason && outcome == plan.outcome)
  }

  /** How a drive that breaks off fails: with "upstream_error" if the upstream call failed, which is no error
      of the engine, and with "resume_error" if the SDK refused the response, which is. */
  lemma BreaksAs(cfg: Config, res: StepResult, turns: seq<Turn>)
    requires Breaks(turns)
    ensures Verdict(cfg, res, turns) ==
            if turns[|turns| - 1].Unanswered? then
              Fail(Failed, "upstream_error", None, Outcome(Some(Failed), "", "upstream_error", None))
            else
              Fail(Failed, "resume_error", None, Outcome(None, "", "", Some(Internal)))
  {
  }

  /** What a drive leaves of its session, on a consistent store with the session claimed. */
  lemma DriveReleases<R>(env: Env, rank: Rank, st: Store<R>, r: R, trace: seq<Event>, res: StepResult)
    returns (turns: seq<Turn>)
    requires Ranked(env, rank) && Consistent(st) && r in st.heap && st.heap[r].oauthState == ""
    ensures Script(env.cfg, res, turns)
    ensures var end := Drive(env, rank, st, r, trace, res);
            LeftAs(env.cfg, st, r, Verdict(env.cfg, res, turns), end.store, end.outcome)
  {
    turns := DriveIsScript(env, rank, st, r, trace, res);
    var kept := WithHandle(st.heap[r], StepAt(res, turns, LastStep(turns)).handle);
    WriteConsistent(st, r, kept);
    ExitReleases(env.cfg, Write(st, r, kept), r, Verdict(env.cfg, res, turns));
  }

  /** A granted claim itself touches no other session and no id. */
  lemma ClaimTouches<R>(st: Store<R>, r: R, now: int)
    requires r in st.heap && Consume(st, r, now).1.Ok?
    ensures var claimed := Consume(st, r, now).0;
            && claimed.heap.Keys == st.heap.Keys && claimed.byID == st.byID
            && forall r' | r' in st.heap && r' != r :: claimed.heap[r'] == st.heap[r']
  {
  }

  /** A granted claim is released on every path, and the session is left as that path prescribes: the
      plan is the failure to resume, or the verdict of the script that the drive turned out to be. */
  lemma CompleteReleases<R>(env: Env, rank: Rank, st: Store<R>, r: R, trace: seq<Event>,
                            denied: bool, payload: string, state: string, now: int)
    returns (plan: Plan, turns: seq<Turn>)
    requires Ranked(env, rank) && Consistent(st) && r in st.heap && Consume(st, r, now).1.Ok?
    ensures var end := CompleteCall(env, rank, st, r, trace, denied, payload, state, now);
            var handle := st.heap[r].handle;
            var first := env.sdk(trace, if denied then ResumeRedirectError(handle, payload, state) else ResumeRedirect(handle, payload, state));
            && plan == (if first.Stepped? then Verdict(env.cfg, first.res, turns)
                        else Fail(Failed, "resume_error", None, Outcome(None, "", "", Some(Internal))))
            && (first.Stepped? ==> Script(env.cfg, first.res, turns))
            && !plan.Effect?
            && LeftAs(env.cfg, Consume(st, r, now).0, r, plan, end.store, end.outcome)
            && end.store.heap.Keys == st.heap.Keys && end.store.byID == st.byID
            && (forall r' | r' in st.heap && r' != r :: end.store.heap[r'] == st.heap[r'])
  {
    ClaimTouches(st, r, now);
    ConsumeConsistent(st, r, now);
    var claimed := Consume(st, r, now).0;
    var input := ReturnInput(Consume(st, r, now).1.value, denied, payload, state);
    var reply := env.sdk(trace, input);
    turns := [];
    if reply.SdkError? {
      plan := ResumeFailure;
      ExitReleases(env.cfg, claimed, r, plan);
    } else {
      turns := DriveReleases(env, rank, claimed, r, trace + [SdkEvent(input, reply)], reply.res);
      plan := Verdict(env.cfg, reply.res, turns);
    }
  }

  /** The completion path once the session is found: call, view. */
  ghost function PathFrom<R>(env: Env, rank: Rank, st: Store<R>, r: R, trace: seq<Event>, req: Request, claimAt: int, viewAt: int)
    : (Store<R>, seq<Event>, (Completion, Option<CompleteError>))
    requires Ranked(env, rank) && Closed(st) && r in st.heap
  {
    var denied := req.error != "";
    var payload := if denied then req.error else req.code;
    var end := CompleteCall(env, rank, st, r, trace, denied, payload, req.state, claimAt);
    CallKeepsClosed(env, rank, st, r, trace, denied, payload, req.state, claimAt);
    var (viewed, view) := ViewByID(end.store, st.heap[r].correlationID, viewAt);
    (viewed, end.trace, Merge(end.outcome, view))
  }

  /** The completion path of the HTTP service: lookup, call, view, each at its own time. */
  ghost function CompletionPath<R>(env: Env, rank: Rank, st: Store<R>, trace: seq<Event>, req: Request,
                                   lookupAt: int, claimAt: int, viewAt: int)
    : (Store<R>, seq<Event>, (Completion, Option<CompleteError>))
    requires Ranked(env, rank) && Closed(st)
  {
    if !Valid(req) then (st, trace, (NoCompletion, Some(InvalidComplete)))
    else
      var (looked, found) := GetByState(st, req.state, lookupAt);
      match found
      case None => (looked, trace, (NoCompletion, Some(UnknownOAuthState)))
      case Some(r) => PathFrom(env, rank, looked, r, trace, req, claimAt, viewAt)
  }

  /** No stored session is found under the state: there is no entry, or the entry leads nowhere, or it goes
      because its session's deadline has passed. */
  ghost predicate NobodyWaits<R>(st: Store<R>, state: string, now: int)
    requires Closed(st)
  {
    || state !in st.byState || st.byState[state] == "" || st.byState[state] !in st.byID
    || var rec := st.heap[st.byID[st.byState[state]]];
       (rec.status == Pending || rec.status == Authorizing) && now > rec.expiresAt && rec.oauthState == state
  }

  /** The two refusals before the engine is called, and exactly when they are given. */
  lemma RefusedIff<R>(env: Env, rank: Rank, st: Store<R>, trace: seq<Event>, req: Request,
                      lookupAt: int, claimAt: int, viewAt: int)
    requires Ranked(env, rank) && Closed(st)
    ensures var (st', trace', completion) := CompletionPath(env, rank, st, trace, req, lookupAt, claimAt, viewAt);
            var answer := Reply(req, completion.0, completion.1);
            && (answer == BadRequest <==> req.state == "" || (req.code == "" && req.error == ""))
            && (answer == UnknownState <==>
                  req.state != "" && (req.code != "" || req.error != "") && NobodyWaits(st, req.state, lookupAt))
            && (answer == BadRequest ==> st' == st && trace' == trace)
            && (answer == UnknownState ==> trace' == trace)
  {
    if Valid(req) {
      FoundIff(st, req.state, lookupAt);
      var (looked, found) := GetByState(st, req.state, lookupAt);
      if found.Some? { PathReplies(env, rank, looked, found.value, trace, req, claimAt, viewAt); }
    }
  }

  lemma FoundIff<R>(st: Store<R>, state: string, now: int)
    requires Closed(st) && state != ""
    ensures GetByState(st, state, now).1 == None <==> NobodyWaits(st, state, now)
  {
  }

  /** Once a session is found the callback is neither malformed nor unknown. */
  lemma PathReplies<R>(env: Env, rank: Rank, st: Store<R>, r: R, trace: seq<Event>, req: Request, claimAt: int, viewAt: int)
    requires Ranked(env, rank) && Closed(st) && r in st.heap
    ensures var (_, _, completion) := PathFrom(env, rank, st, r, trace, req, claimAt, viewAt);
            var answer := Reply(req, completion.0, completion.1);
            answer != BadRequest && answer != UnknownState
  {
  }

  /** The request is well formed, and the session it finds may be claimed, at the lookup and at the claim. */
  ghost predicate Enters<R>(st: Store<R>, req: Request, lookupAt: int, claimAt: int)
    requires Closed(st)
  {
    && req.state != "" && (req.code != "" || req.error != "")
    && req.state in st.byState && st.byState[req.state] != "" && st.byState[req.state] in st.byID
    && var rec := st.heap[st.byID[st.byState[req.state]]];
       MayClaim(rec, lookupAt) && MayClaim(rec, claimAt)
  }

  /** What a callback tells the SDK: its code, or its error if it has one, with its state and the handle of
      the session that waits, in one redirect resume before anything else; or nothing at all. */
  lemma PathTells<R>(env: Env, rank: Rank, st: Store<R>, trace: seq<Event>, req: Request, lookupAt: int, claimAt: int, viewAt: int)
    requires Ranked(env, rank) && Closed(st)
    ensures var trace' := CompletionPath(env, rank, st, trace, req, lookupAt, claimAt, viewAt).1;
            if Enters(st, req, lookupAt, claimAt) then
              var handle := st.heap[st.byID[st.byState[req.state]]].handle;
              && trace <= trace'
              && Tells(handle, req.error != "", if req.error != "" then req.error else req.code, req.state, trace'[|trace|..])
            else trace' == trace
  {
    if Valid(req) {
      var (looked, found) := GetByState(st, req.state, lookupAt);
      if found.Some? {
        CallTells(env, rank, looked, found.value, trace, req.error != "", if req.error != "" then req.error else req.code, req.state, claimAt);
      }
    }
  }

  lemma CallKeepsClosed<R>(env: Env, rank: Rank, st: Store<R>, r: R, trace: seq<Event>,
                           denied: bool, payload: string, state: string, now: int)
    requires Ranked(env, rank) && r in st.heap && Closed(st)
    ensures Closed(CompleteCall(env, rank, st, r, trace, denied, payload, state, now).store)
  {
    var claimed := Consume(st, r, now).0;
    var claim := Consume(st, r, now).1;
    if claim.Ok? {
      var input := ReturnInput(claim.value, denied, payload, state);
      var reply := env.sdk(trace, input);
      if reply.Stepped? {
        var turns := DriveIsScript(env, rank, claimed, r, trace + [SdkEvent(input, reply)], reply.res);
      }
    }
  }

  /** A call changes no session's id. */
  lemma CallKeepsIdentity<R>(env: Env, rank: Rank, st: Store<R>, r: R, trace: seq<Event>,
                             denied: bool, payload: string, state: string, now: int)
    requires Ranked(env, rank) && r in st.heap
    ensures var end := CompleteCall(env, rank, st, r, trace, denied, payload, state, now);
            r in end.store.heap && end.store.heap[r].correlationID == st.heap[r].correlationID
  {
    var claimed := Consume(st, r, now).0;
    var claim := Consume(st, r, now).1;
    if claim.Ok? {
      var input := ReturnInput(claim.value, denied, payload, state);
      var reply := env.sdk(trace, input);
      if reply.Stepped? {
        var turns := DriveIsScript(env, rank, claimed, r, trace + [SdkEvent(input, reply)], reply.res);
      }
    }
  }
}
