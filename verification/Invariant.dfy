/** The inductive invariant of the protocol. */
module Invariant {
  import opened Basics
  import opened Steps
  import opened SessionStore
  import opened HttpApi
  import opened Protocol
  import opened Effects
  import opened Ledger
  import opened Custody

  // --- Conversations with the SDK --------------------------------------------

  /** `call` uses exactly what the previous reply gave: its handle, and, for a redirect return, the
      state emitted with it. */
  ghost predicate Follows(cfg: Config, prev: SdkReply, call: Call) {
    && prev.Stepped?
    && match call
       case BeginCall(_) => false
       case RedirectCall(handle, _, _, state, _) => handle == prev.res.handle && Emits(cfg, prev) == Some(state)
       case HttpCall(handle, _, _, _) => handle == prev.res.handle && Decide(cfg, prev.res).Effect?
  }

  ghost predicate Linear(cfg: Config, calls: seq<Call>) {
    && |calls| > 0
    && calls[0].BeginCall? && Emits(cfg, calls[0].out).Some?
    && forall i | 0 < i < |calls| :: Follows(cfg, calls[i - 1].out, calls[i])
  }

  /** No state is emitted twice in one conversation, and all of them are on record for this session. */
  ghost predicate EmitsOnce(cfg: Config, calls: seq<Call>) {
    forall i, j | 0 <= i < j < |calls| && Emits(cfg, calls[i].out).Some? :: Emits(cfg, calls[i].out) != Emits(cfg, calls[j].out)
  }

  ghost predicate OnRecord(cfg: Config, r: Ref, calls: seq<Call>, issued: map<string, Ref>) {
    forall i | 0 <= i < |calls| && Emits(cfg, calls[i].out).Some? :: IssuedTo(issued, Emits(cfg, calls[i].out).value, r)
  }

  ghost function LastReply(calls: seq<Call>): SdkReply {
    if |calls| == 0 then SdkError else calls[|calls| - 1].out
  }

  /** The plan for the last reply; an SDK error is a plan to fail. */
  ghost function LastPlan(cfg: Config, calls: seq<Call>): Plan {
    match LastReply(calls)
    case SdkError => ResumeFailure
    case Stepped(res) => Decide(cfg, res)
  }

  ghost function LastHandle(calls: seq<Call>): Bytes {
    match LastReply(calls)
    case SdkError => []
    case Stepped(res) => res.handle
  }

  /** The plan that ends a conversation which does not wait for a redirect: an effect can only end
      it by failing. */
  ghost function FinalPlan(cfg: Config, calls: seq<Call>): Plan {
    var p := LastPlan(cfg, calls);
    if p.Effect? then UpstreamFailure else p
  }

  // --- Threads ---------------------------------------------------------------

  /** The thread's call is the active one on its session. */
  predicate Owns(th: Thread) {
    match th
    case Found(_, _) => false
    case Driven(_, _, _, entered, _) => entered
    case Answered(_, _, _, entered, _) => entered
    case _ => true
  }

  // --- One session -----------------------------------------------------------

  /** What expiry and settlement have done to the record so far. */
  ghost predicate StatusOk(now: int, rec: Record, h: Hist) {
    match h.settled
    case None =>
      && rec.resultPDF == [] && rec.evidence == None
      && (rec.status == Authorizing
          || (rec.status == Failed && rec.reason == REASON_EXPIRED && PastDeadline(rec, now)))
      && (PastDeadline(rec, now) || rec.reason == "")
    case Some(s) =>
      && rec.status == s.status && s.status.Terminal()
      && (s.status != Completed ==> rec.reason == s.reason)
      && rec.resultPDF == s.pdf && rec.evidence == s.evidence
      && rec.oauthState == ""
  }

  /** The session waits for the redirect the SDK asked for last; after the deadline expiry may have
      taken its state and handle away. */
  ghost predicate Waiting(cfg: Config, now: int, rec: Record, h: Hist) {
    && h.settled == None
    && LastPlan(cfg, h.calls).Index?
    && (rec.oauthState == LastPlan(cfg, h.calls).state || (rec.oauthState == "" && PastDeadline(rec, now)))
  }

  ghost predicate KeepsHandle(now: int, rec: Record, h: Hist) {
    PastDeadline(rec, now) || rec.handle == LastHandle(h.calls)
  }

  ghost predicate Ended(cfg: Config, rec: Record, h: Hist) {
    h.settled.Some? && rec.handle == []
  }

  /** The answer a call that entered the SDK prepares, unless its session was evicted meanwhile. */
  ghost function Delivered(req: Request, outcome: Outcome, h: Hist, clientState: string): Answer {
    var v := match h.settled
      case None => View(h.id, clientState, Authorizing, "", [], None)
      case Some(s) => View(h.id, clientState, s.status, s.reason, s.pdf, s.evidence);
    CompleteAnswer(req, outcome, Some(v))
  }

  /** The outcome the conversation prescribes. */
  ghost function Prescribed(cfg: Config, calls: seq<Call>): Outcome {
    var p := FinalPlan(cfg, calls);
    match p
    case Index(url, _) => Outcome(Some(Authorizing), cfg.rewrite(url), "", None)
    case Effect(_) => ResumeFailure.outcome
    case _ => EndOutcome(p)
  }

  /** The session and the thread whose call is active on it. */
  ghost predicate ActiveOk(cfg: Config, now: int, stored: bool, rec: Record, h: Hist, th: Thread, published: set<string>) {
    var plan := LastPlan(cfg, h.calls);
    match th
    case Starting(_, _, _, _, _, _) => false
    case Created(_, handle, url, state) =>
      Waiting(cfg, now, rec, h) && plan == Index(url, state) && state !in published && handle == LastHandle(h.calls)
    case Begun(_, url, state) =>
      Waiting(cfg, now, rec, h) && KeepsHandle(now, rec, h) && plan == Index(url, state) && state !in published
    case Claimed(_, req, handle) =>
      h.settled == None && plan.Index? && plan.state == req.state && handle == LastHandle(h.calls)
    case Got(_, _, res) =>
      h.settled == None && LastReply(h.calls) == Stepped(res) && (plan.Index? ==> plan.state !in published)
    case Planned(_, _, handle, p) =>
      h.settled == None && (p == plan || (plan.Effect? && p == UpstreamFailure))
      && (p.Effect? ==> handle == LastHandle(h.calls))
      && (p.Index? ==> KeepsHandle(now, rec, h) && p.state !in published)
    case Responded(_, _, handle, _, _) =>
      h.settled == None && plan.Effect? && handle == LastHandle(h.calls)
    case Finalizing(_, _, outcome) =>
      h.settled.Some? && outcome == Prescribed(cfg, h.calls)
    case Indexed(_, _, url, state) =>
      Waiting(cfg, now, rec, h) && KeepsHandle(now, rec, h) && plan == Index(url, state) && state !in published
    case Driven(_, _, outcome, _, issues) =>
      outcome == Prescribed(cfg, h.calls) && IssuesOk(cfg, now, rec, h, issues, published)
    case Answered(_, req, answer, _, issues) =>
      && IssuesOk(cfg, now, rec, h, issues, published)
      && (answer == Delivered(req, Prescribed(cfg, h.calls), h, rec.clientState) || (!stored && answer == ResumeFailed))
    case Found(_, _) => false
  }

  /** An active call on its way out: it either issued the state the session waits for, or settled it. */
  ghost predicate IssuesOk(cfg: Config, now: int, rec: Record, h: Hist, issues: Option<string>, published: set<string>) {
    match issues
    case None => Ended(cfg, rec, h)
    case Some(state) =>
      && Waiting(cfg, now, rec, h) && KeepsHandle(now, rec, h)
      && LastPlan(cfg, h.calls).state == state && state !in published
  }

  /** A session no call is active on. */
  ghost predicate Resting(cfg: Config, now: int, rec: Record, h: Hist, published: set<string>) {
    if h.settled.Some? then Ended(cfg, rec, h)
    else Waiting(cfg, now, rec, h) && KeepsHandle(now, rec, h) && LastPlan(cfg, h.calls).state in published
  }

  ghost predicate SessionOk(cfg: Config, now: int, stored: bool, r: Ref, rec: Record, h: Hist, owner: Option<Thread>,
                            published: set<string>, issued: map<string, Ref>)
  {
    && rec.correlationID == h.id
    && Linear(cfg, h.calls) && EmitsOnce(cfg, h.calls) && OnRecord(cfg, r, h.calls, issued)
    && (rec.resuming <==> owner.Some? && Holds(owner.value))
    && (rec.resuming ==> rec.oauthState == "")
    && StatusOk(now, rec, h)
    && (h.settled.Some? ==>
          && (FinalPlan(cfg, h.calls).Finish? || FinalPlan(cfg, h.calls).Fail?)
          && h.settled.value == SettlementOf(FinalPlan(cfg, h.calls)))
    && match owner
       case None => Resting(cfg, now, rec, h, published)
       case Some(th) => ActiveOk(cfg, now, stored, rec, h, th, published)
  }

  /** A session that has no record yet: its `New` is still to come. */
  ghost predicate Unborn(cfg: Config, r: Ref, h: Hist, owner: Option<Thread>, published: set<string>, issued: map<string, Ref>) {
    && owner.Some? && owner.value.Starting?
    && Linear(cfg, h.calls) && EmitsOnce(cfg, h.calls) && OnRecord(cfg, r, h.calls, issued)
    && h.settled == None
    && var th := owner.value;
       LastPlan(cfg, h.calls) == Index(th.url, th.state) && th.handle == LastHandle(h.calls) && th.state !in published
  }

  // --- Threads that are not the active call ----------------------------------

  /** The journey is over for every later view: settled, or past its deadline. */
  ghost predicate Over(now: int, rec: Record, h: Hist) {
    h.settled.Some? || PastDeadline(rec, now)
  }

  /** The answers of a callback that did not get to claim the session. */
  ghost predicate LoserAnswer(now: int, rec: Record, h: Hist, req: Request, answer: Answer) {
    || answer == AlreadyProcessing
    || (req.browser && answer == ToApplication(rec.clientState, h.id) && Over(now, rec, h))
  }

  ghost predicate BystanderOk(now: int, r: Ref, rec: Record, h: Hist, th: Thread, published: set<string>, issued: map<string, Ref>) {
    match th
    case Found(_, req) => Valid(req) && req.state in published && IssuedTo(issued, req.state, r)
    case Driven(_, _, outcome, entered, issues) =>
      !entered ==> issues == None && (outcome == Refused(ErrTerminal) || outcome == Refused(ErrResuming))
    case Answered(_, req, answer, entered, issues) =>
      !entered ==> issues == None && LoserAnswer(now, rec, h, req, answer)
    case _ => true
  }

  // --- The whole world -------------------------------------------------------

  ghost function Owner(w: World, r: Ref): Option<Thread>
    requires r in w.hist
  {
    match w.hist[r].owner
    case None => None
    case Some(t) => if t in w.threads then Some(w.threads[t]) else None
  }

  ghost predicate SessionAt(w: World, r: Ref)
    requires r in w.hist
  {
    if r in w.store.heap then
      SessionOk(w.cfg, w.now, Stored(w.store, r), r, w.store.heap[r], w.hist[r], Owner(w, r), w.published, w.issued)
    else
      Unborn(w.cfg, r, w.hist[r], Owner(w, r), w.published, w.issued)
  }

  ghost predicate ThreadAt(w: World, t: Tid)
    requires Linked(w) && t in w.threads
  {
    var th := w.threads[t];
    && (Owns(th) ==> w.hist[th.r].owner == Some(t))
    && (th.r in w.store.heap ==>
          BystanderOk(w.now, th.r, w.store.heap[th.r], w.hist[th.r], th, w.published, w.issued))
  }

  /** An active call is a live thread on that session. */
  ghost predicate OwnerLive(w: World, r: Ref)
    requires r in w.hist
  {
    match w.hist[r].owner
    case None => true
    case Some(t) => t in w.threads && w.threads[t].r == r && Owns(w.threads[t])
  }

  /** Every session is as its conversation and its active call prescribe, and every thread as its
      program counter says. */
  ghost predicate Journeys(w: World) {
    && Linked(w)
    && (forall r {:trigger OwnerLive(w, r)} | r in w.hist :: OwnerLive(w, r))
    && (forall r {:trigger SessionAt(w, r)} | r in w.hist :: SessionAt(w, r))
    && (forall t {:trigger ThreadAt(w, t)} | t in w.threads :: ThreadAt(w, t))
  }

  /** The store in order, and every journey in its place. */
  ghost predicate Inv(w: World) {
    Orderly(w) && Journeys(w)
  }

  lemma InitialInv(w: World)
    requires Initial(w)
    ensures Inv(w)
  {
  }
}
