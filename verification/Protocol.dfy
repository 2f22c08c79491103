/**
 The signing journey under interleaving: any number of starts, callbacks and pollers over one
 store, with the SDK, the upstream services and the clock as the environment.

 A `World` is a snapshot; an `Action` is one atomic step of one thread, together with whatever the
 environment contributes to it. Each store method is one step because the mutex covers it whole.
 `Hist` records, for each session, what no running code reads but the properties speak about.
 */
module Protocol {
  import opened Basics
  import opened Steps
  import opened SessionStore
  import opened HttpApi

  type Ref = int
  type Tid = int

  /** One SDK call on a session's behalf, with its reply. */
  datatype Call =
    | BeginCall(out: SdkReply)
    | RedirectCall(handle: Bytes, denied: bool, payload: string, state: string, out: SdkReply)
    | HttpCall(handle: Bytes, status: int, body: Bytes, out: SdkReply)

  /** The program counters of the request threads, with their local variables. */
  datatype Thread =
    // handleStart / Begin
    | Starting(r: Ref, clientState: string, conformance: string, handle: Bytes, url: string, state: string)
    | Created(r: Ref, handle: Bytes, url: string, state: string)
    | Begun(r: Ref, url: string, state: string)
    // complete / Complete / drive
    | Found(r: Ref, req: Request)
    | Claimed(r: Ref, req: Request, handle: Bytes)
    | Got(r: Ref, req: Request, res: StepResult)
    | Planned(r: Ref, req: Request, handle: Bytes, plan: Plan)
    | Responded(r: Ref, req: Request, handle: Bytes, status: int, body: Bytes)
    | Indexed(r: Ref, req: Request, url: string, state: string)
    | Finalizing(r: Ref, req: Request, outcome: Outcome)
    | Driven(r: Ref, req: Request, outcome: Outcome, entered: bool, issues: Option<string>)
    | Answered(r: Ref, req: Request, answer: Answer, entered: bool, issues: Option<string>)

  /** The history of one session: its id, the SDK calls made for it, how it was settled, the thread
      whose call is active on it, and the number of claims and releases. */
  datatype Hist = Hist(
    id: string, calls: seq<Call>, settled: Option<Settlement>, owner: Option<Tid>, claims: nat, releases: nat)

  datatype World = World(
    cfg: Config,
    now: int,
    store: Store<Ref>,
    threads: map<Tid, Thread>,
    hist: map<Ref, Hist>,
    ids: map<string, Ref>,        // correlation ids issued
    issued: map<string, Ref>,     // OAuth states the SDK has emitted
    published: set<string>)       // OAuth states whose redirect URL has been returned

  /** What the environment supplies to a thread's next step. */
  datatype Input =
    | Idle
    | Sdk(reply: SdkReply)
    | Net(response: Option<(int, Bytes)>)
    | Clock(reading: int)

  datatype Observation = StatusPoll | ResultPoll | Touch

  datatype Action =
    | Tick(reading: int)
    | Poll(id: string, what: Observation)
    | Start(t: Tid, r: Ref, id: string, clientState: string, conformance: string, reply: SdkReply)
    | Callback(t: Tid, req: Request)
    | Advance(t: Tid, input: Input)

  ghost predicate Initial(w: World) {
    && w.store == Store(map[], map[], map[])
    && w.threads == map[] && w.hist == map[] && w.ids == map[] && w.issued == map[] && w.published == {}
  }

  /** The OAuth state an SDK reply emits, if it is a well-formed redirect. */
  ghost function Emits(cfg: Config, reply: SdkReply): Option<string> {
    if reply.Stepped? && Decide(cfg, reply.res).Index? then Some(Decide(cfg, reply.res).state) else None
  }

  predicate InputFits(th: Thread, input: Input) {
    match th
    case Starting(_, _, _, _, _, _) => input.Clock?
    case Claimed(_, _, _) => input.Sdk?
    case Responded(_, _, _, _, _) => input.Sdk?
    case Planned(_, _, _, plan) => if plan.Effect? then input.Net? else input.Idle?
    case _ => input.Idle?
  }

  /** The pointers and ids the code follows are never dangling: part of the invariant, needed for
      the steps to be defined. */
  ghost predicate Linked(w: World) {
    && Closed(w.store)
    && w.store.heap.Keys <= w.hist.Keys
    && (forall t | t in w.threads ::
          w.threads[t].r in w.hist && (w.threads[t].Starting? || w.threads[t].r in w.store.heap))
  }

  /** When the action can happen at all. A new thread gets a new name and a new session a new pointer;
      correlation ids are hexadecimal, hence not empty. */
  ghost predicate Enabled(w: World, a: Action) {
    match a
    case Tick(_) => true
    case Poll(_, _) => true
    case Start(t, r, id, _, _, _) => t !in w.threads && r !in w.hist && id != ""
    case Callback(t, _) => t !in w.threads
    case Advance(t, input) => t in w.threads && InputFits(w.threads[t], input)
  }

  // --- Environment hypotheses ------------------------------------------------

  /** H1: correlation ids and OAuth states are never issued twice. */
  ghost predicate FreshNames(w: World, a: Action) {
    match a
    case Start(_, _, id, _, _, reply) => id !in w.ids && FreshState(w, reply)
    case Advance(_, Sdk(reply)) => FreshState(w, reply)
    case _ => true
  }

  ghost predicate FreshState(w: World, reply: SdkReply) {
    Emits(w.cfg, reply).Some? ==> Emits(w.cfg, reply).value !in w.issued
  }

  /** H2: the clock never goes back. */
  ghost predicate ClockForward(w: World, a: Action) {
    match a
    case Tick(reading) => w.now <= reading
    case Advance(_, Clock(reading)) => w.now <= reading
    case _ => true
  }

  /** H3: a state comes back in a callback only after its redirect URL has been handed out. */
  ghost predicate StateWasHandedOut(w: World, a: Action) {
    a.Callback? && a.req.state in w.issued ==> a.req.state in w.published
  }

  /** H4: a claim that succeeds does so while the session still waits for the state that was looked up. */
  ghost predicate ClaimIsCurrent(w: World, a: Action)
    requires Linked(w) && Enabled(w, a)
  {
    a.Advance? && w.threads[a.t].Found? && Consume(w.store, w.threads[a.t].r, w.now).1.Ok? ==>
      w.store.heap[w.threads[a.t].r].oauthState == w.threads[a.t].req.state
  }

  /** Which of the hypotheses are assumed of the environment. */
  datatype Assumed = Assumed(h1: bool, h2: bool, h3: bool, h4: bool)

  const NOTHING := Assumed(false, false, false, false)
  const H1_H2 := Assumed(true, true, false, false)
  const H1_H2_H3 := Assumed(true, true, true, false)
  const H1_H2_H4 := Assumed(true, true, false, true)
  const H1_H4 := Assumed(true, false, false, true)
  const H1_ONLY := Assumed(true, false, false, false)
  const H2_H3_H4 := Assumed(false, true, true, true)
  const ALL := Assumed(true, true, true, true)

  ghost predicate Meets(w: World, a: Action, assumed: Assumed)
    requires Linked(w) && Enabled(w, a)
  {
    && (assumed.h1 ==> FreshNames(w, a))
    && (assumed.h2 ==> ClockForward(w, a))
    && (assumed.h3 ==> StateWasHandedOut(w, a))
    && (assumed.h4 ==> ClaimIsCurrent(w, a))
  }

  // --- Steps -----------------------------------------------------------------

  ghost function Log(h: Hist, call: Call): Hist {
    h.(calls := h.calls + [call])
  }

  ghost function Emit(w: World, r: Ref, reply: SdkReply): map<string, Ref> {
    match Emits(w.cfg, reply)
    case None => w.issued
    case Some(x) => w.issued[x := r]
  }

  ghost function DoPoll(w: World, id: string, what: Observation): (World, Option<Answer>)
    requires Linked(w)
  {
    var (store, view) := ViewByID(w.store, id, w.now);
    (w.(store := store),
     match what
     case StatusPoll => Some(StatusAnswer(view))
     case ResultPoll => Some(ResultAnswer(view))
     case Touch => None)
  }

  /** `handleStart` up to the SDK call: a session's history begins with it. */
  ghost function DoStart(w: World, t: Tid, r: Ref, id: string, clientState: string, conformance: string,
                         reply: SdkReply): (World, Option<Answer>)
  {
    if Emits(w.cfg, reply).None? then (w, Some(StartFailed))
    else
      var plan := Decide(w.cfg, reply.res);
      (w.(threads := w.threads[t := Starting(r, clientState, conformance, reply.res.handle, plan.url, plan.state)],
          hist := w.hist[r := Hist(id, [BeginCall(reply)], None, Some(t), 0, 0)],
          ids := w.ids[id := r],
          issued := Emit(w, r, reply)),
       None)
  }

  ghost function DoNew(w: World, t: Tid, reading: int): World
    requires Linked(w) && t in w.threads && w.threads[t].Starting?
  {
    var th := w.threads[t];
    w.(now := reading,
       store := New(w.store, th.r, w.hist[th.r].id, th.state, th.clientState, th.conformance, w.cfg.ttl, w.now, reading),
       threads := w.threads[t := Created(th.r, th.handle, th.url, th.state)])
  }

  ghost function DoBegun(w: World, t: Tid): World
    requires Linked(w) && t in w.threads && w.threads[t].Created?
  {
    var th := w.threads[t];
    w.(store := Write(w.store, th.r, Reopened(WithHandle(w.store.heap[th.r], th.handle))),
       threads := w.threads[t := Begun(th.r, th.url, th.state)])
  }

  ghost function DoLookup(w: World, t: Tid, req: Request): (World, Option<Answer>)
    requires Linked(w)
  {
    if !Valid(req) then (w, Some(BadRequest))
    else
      var (store, found) := GetByState(w.store, req.state, w.now);
      match found
      case None => (w.(store := store), Some(UnknownState))
      case Some(r) => (w.(store := store, threads := w.threads[t := Found(r, req)]), None)
  }

  ghost function DoClaim(w: World, t: Tid): World
    requires Linked(w) && t in w.threads && w.threads[t].Found?
  {
    var th := w.threads[t];
    var h := w.hist[th.r];
    var (store, claim) := Consume(w.store, th.r, w.now);
    match claim
    case Err(e) => w.(store := store, threads := w.threads[t := Driven(th.r, th.req, Refused(e), false, None)])
    case Ok(handle) =>
      w.(store := store,
         threads := w.threads[t := Claimed(th.r, th.req, handle)],
         hist := w.hist[th.r := h.(owner := Some(t), claims := h.claims + 1)])
  }

  /** The thread after an SDK resume: the new step, or the failure path. */
  ghost function AfterSdk(r: Ref, req: Request, handle: Bytes, reply: SdkReply): Thread {
    match reply
    case Stepped(res) => Got(r, req, res)
    case SdkError => Planned(r, req, handle, ResumeFailure)
  }

  /** The call a claimed callback makes: `ResumeRedirect` or `ResumeRedirectError`. */
  function ReturnCall(th: Thread, reply: SdkReply): Call
    requires th.Claimed?
  {
    var denied := th.req.error != "";
    RedirectCall(th.handle, denied, if denied then th.req.error else th.req.code, th.req.state, reply)
  }

  ghost function DoResume(w: World, t: Tid, reply: SdkReply): World
    requires Linked(w) && t in w.threads && w.threads[t].Claimed?
  {
    var th := w.threads[t];
    w.(threads := w.threads[t := AfterSdk(th.r, th.req, th.handle, reply)],
       hist := w.hist[th.r := Log(w.hist[th.r], ReturnCall(th, reply))],
       issued := Emit(w, th.r, reply))
  }

  /** The handle write at the head of the drive loop, and the choice of branch. */
  ghost function DoKeepHandle(w: World, t: Tid): World
    requires Linked(w) && t in w.threads && w.threads[t].Got?
  {
    var th := w.threads[t];
    w.(store := Write(w.store, th.r, WithHandle(w.store.heap[th.r], th.res.handle)),
       threads := w.threads[t := Planned(th.r, th.req, th.res.handle, Decide(w.cfg, th.res))])
  }

  /** The thread after an upstream call: the response, or the failure path. */
  ghost function AfterNet(th: Thread, response: Option<(int, Bytes)>): Thread
    requires th.Planned?
  {
    match response
    case None => Planned(th.r, th.req, th.handle, UpstreamFailure)
    case Some(p) => Responded(th.r, th.req, th.handle, p.0, p.1)
  }

  ghost function DoUpstream(w: World, t: Tid, response: Option<(int, Bytes)>): World
    requires Linked(w) && t in w.threads && w.threads[t].Planned?
  {
    w.(threads := w.threads[t := AfterNet(w.threads[t], response)])
  }

  ghost function DoResumeHTTP(w: World, t: Tid, reply: SdkReply): World
    requires Linked(w) && t in w.threads && w.threads[t].Responded?
  {
    var th := w.threads[t];
    w.(threads := w.threads[t := AfterSdk(th.r, th.req, th.handle, reply)],
       hist := w.hist[th.r := Log(w.hist[th.r], HttpCall(th.handle, th.status, th.body, reply))],
       issued := Emit(w, th.r, reply))
  }

  ghost function DoIndex(w: World, t: Tid): World
    requires Linked(w) && t in w.threads && w.threads[t].Planned? && w.threads[t].plan.Index?
  {
    var th := w.threads[t];
    var h := w.hist[th.r];
    w.(store := SetState(w.store, th.r, th.plan.state),
       threads := w.threads[t := Indexed(th.r, th.req, th.plan.url, th.plan.state)],
       hist := w.hist[th.r := h.(releases := h.releases + 1)])
  }

  ghost function DoReopen(w: World, t: Tid): World
    requires Linked(w) && t in w.threads && w.threads[t].Indexed?
  {
    var th := w.threads[t];
    w.(store := Write(w.store, th.r, Reopened(w.store.heap[th.r])),
       threads := w.threads[t := Driven(th.r, th.req, Outcome(Some(Authorizing), w.cfg.rewrite(th.url), "", None), true, Some(th.state))])
  }

  ghost function DoSettle(w: World, t: Tid): World
    requires Linked(w) && t in w.threads && w.threads[t].Planned?
    requires w.threads[t].plan.Finish? || w.threads[t].plan.Fail?
  {
    var th := w.threads[t];
    w.(store := Write(w.store, th.r, Settled(w.store.heap[th.r], th.plan)),
       threads := w.threads[t := Finalizing(th.r, th.req, EndOutcome(th.plan))],
       hist := w.hist[th.r := w.hist[th.r].(settled := Some(SettlementOf(th.plan)))])
  }

  ghost function DoFinalize(w: World, t: Tid): World
    requires Linked(w) && t in w.threads && w.threads[t].Finalizing?
  {
    var th := w.threads[t];
    var h := w.hist[th.r];
    w.(store := Finalize(w.store, th.r),
       threads := w.threads[t := Driven(th.r, th.req, th.outcome, true, None)],
       hist := w.hist[th.r := h.(releases := h.releases + 1)])
  }

  ghost function DoView(w: World, t: Tid): World
    requires Linked(w) && t in w.threads && w.threads[t].Driven?
  {
    var th := w.threads[t];
    var (store, view) := ViewByID(w.store, w.store.heap[th.r].correlationID, w.now);
    w.(store := store,
       threads := w.threads[t := Answered(th.r, th.req, CompleteAnswer(th.req, th.outcome, view), th.entered, th.issues)])
  }

  /** The end of an active call: its state, if it issued one, is now with the browser. */
  ghost function DoReturn(w: World, t: Tid): (World, Option<Answer>)
    requires Linked(w) && t in w.threads && (w.threads[t].Begun? || w.threads[t].Answered?)
  {
    var th := w.threads[t];
    var threads := w.threads - {t};
    var released := w.hist[th.r := w.hist[th.r].(owner := None)];
    if th.Begun? then
      (w.(threads := threads, hist := released, published := w.published + {th.state}),
       Some(Started(w.cfg.rewrite(th.url), w.hist[th.r].id, w.store.heap[th.r].expiresAt)))
    else if !th.entered then
      (w.(threads := threads), Some(th.answer))
    else
      (w.(threads := threads, hist := released,
          published := w.published + (if th.issues.Some? then {th.issues.value} else {})),
       Some(th.answer))
  }

  /** The branch `drive` has chosen. */
  ghost function DoPlanned(w: World, t: Tid, input: Input): World
    requires Linked(w) && t in w.threads && w.threads[t].Planned? && InputFits(w.threads[t], input)
  {
    match w.threads[t].plan
    case Effect(_) => DoUpstream(w, t, input.response)
    case Index(_, _) => DoIndex(w, t)
    case _ => DoSettle(w, t)
  }

  ghost function DoAdvance(w: World, t: Tid, input: Input): (World, Option<Answer>)
    requires Linked(w) && t in w.threads && InputFits(w.threads[t], input)
  {
    match w.threads[t]
    case Starting(_, _, _, _, _, _) => (DoNew(w, t, input.reading), None)
    case Created(_, _, _, _) => (DoBegun(w, t), None)
    case Found(_, _) => (DoClaim(w, t), None)
    case Claimed(_, _, _) => (DoResume(w, t, input.reply), None)
    case Got(_, _, _) => (DoKeepHandle(w, t), None)
    case Planned(_, _, _, _) => (DoPlanned(w, t, input), None)
    case Responded(_, _, _, _, _) => (DoResumeHTTP(w, t, input.reply), None)
    case Indexed(_, _, _, _) => (DoReopen(w, t), None)
    case Finalizing(_, _, _) => (DoFinalize(w, t), None)
    case Driven(_, _, _, _, _) => (DoView(w, t), None)
    case _ => DoReturn(w, t)
  }

  /** One atomic step: the next world, and the HTTP answer if the step ends a request. */
  ghost function Apply(w: World, a: Action): (World, Option<Answer>)
    requires Linked(w) && Enabled(w, a)
  {
    match a
    case Tick(reading) => (w.(now := reading), None)
    case Poll(id, what) => DoPoll(w, id, what)
    case Start(t, r, id, clientState, conformance, reply) => DoStart(w, t, r, id, clientState, conformance, reply)
    case Callback(t, req) => DoLookup(w, t, req)
    case Advance(t, input) => DoAdvance(w, t, input)
  }
}
