/** How completions and views become HTTP answers (internal/httpapi/service.go). */
module HttpApi {
  import opened Basics
  import opened Steps
  import opened SessionStore

  /** The inputs of the completion path; `browser` tells the public callback from the JSON route. */
  datatype Request = Request(browser: bool, code: string, error: string, state: string)

  datatype CompleteError = InvalidComplete | UnknownOAuthState | Engine(error: EngineError)

  datatype Completion = Completion(
    status: Option<Status>, redirectURL: string, reason: string, correlationID: string, clientState: string)

  const NoCompletion := Completion(None, "", "", "", "")

  datatype Answer =
    | Started(redirectURL: string, correlationID: string, expiresAt: int)
    | StartFailed                                         // 500 begin_failed
    | BadRequest                                          // 400 bad_request
    | UnknownState                                        // 400 unknown_state
    | AlreadyProcessing                                   // 409 already_processing
    | ResumeFailed                                        // 500 resume_failed
    | Progress(status: Option<Status>, redirect: Option<string>, why: Option<string>)  // 200 from the JSON route
    | ToProvider(url: string)                             // 302 to the next authorization URL
    | ToApplication(clientState: string, correlationID: string)  // 302 to the application
    | StatusIs(shown: Status, why: Option<string>)        // 200 from /v1/sign/status
    | NotFound                                            // 404
    | NotCompleted                                        // 409 not_completed
    | SignedDocument(pdf: Bytes, evidence: Option<Bytes>) // 200 application/pdf

  predicate Valid(req: Request) {
    req.state != "" && (req.code != "" || req.error != "")
  }

  /** The tail of `complete`: the engine's outcome merged with the final view. */
  function Merge(outcome: Outcome, view: Option<View>): (Completion, Option<CompleteError>) {
    match view
    case None =>
      (NoCompletion, Some(Engine(if outcome.error.Some? then outcome.error.value else Internal)))
    case Some(v) =>
      (Completion(
         if outcome.status.None? then Some(v.status) else outcome.status,
         outcome.redirectURL,
         if outcome.reason == "" then v.reason else outcome.reason,
         v.correlationID,
         v.clientState),
       if outcome.error.Some? then Some(Engine(outcome.error.value)) else None)
  }

  /** `writeCompleteError` and `classifyCompleteError`. */
  function ErrorAnswer(error: CompleteError): Answer {
    match error
    case InvalidComplete => BadRequest
    case UnknownOAuthState => UnknownState
    case Engine(e) => if e == Internal then ResumeFailed else AlreadyProcessing
  }

  predicate ReturnsToApplication(c: Completion, error: Option<CompleteError>) {
    error.None? || (c.status.Some? && c.status.value.Terminal() && c.correlationID != "")
  }

  /** The tail of `handleOAuthCallback`. */
  function BrowserAnswer(c: Completion, error: Option<CompleteError>): Answer {
    if !ReturnsToApplication(c, error) then
      ErrorAnswer(error.value)
    else if c.redirectURL != "" then
      ToProvider(c.redirectURL)
    else
      ToApplication(c.clientState, c.correlationID)
  }

  /** The tail of `handleComplete`; a reason is shown only for a failed journey. */
  function JsonAnswer(c: Completion, error: Option<CompleteError>): Answer {
    if error.Some? then
      ErrorAnswer(error.value)
    else
      Progress(
        c.status,
        if c.redirectURL == "" then None else Some(c.redirectURL),
        if c.status == Some(Failed) && c.reason != "" then Some(c.reason) else None)
  }

  function Reply(req: Request, c: Completion, error: Option<CompleteError>): Answer {
    if req.browser then BrowserAnswer(c, error) else JsonAnswer(c, error)
  }

  /** The answer to a callback whose engine call ended with `outcome` and whose final view was `view`. */
  function CompleteAnswer(req: Request, outcome: Outcome, view: Option<View>): Answer {
    var (c, error) := Merge(outcome, view);
    Reply(req, c, error)
  }

  /** The status shown is one of the three end states, of a session that can be named. */
  predicate ShowsEnd(outcome: Outcome, view: Option<View>) {
    && view.Some? && view.value.correlationID != ""
    && var shown := if outcome.status.Some? then outcome.status.value else view.value.status;
       shown == Completed || shown == Declined || shown == Failed
  }

  predicate LostRace(outcome: Outcome) {
    outcome.error == Some(AlreadyTerminal) || outcome.error == Some(AlreadyResuming)
  }

  /** When each answer is given, by what the engine reported and what the final view shows. An error goes
      back to the application only on the browser route, and only once the journey shows its end. */
  lemma AnswersIff(req: Request, outcome: Outcome, view: Option<View>)
    ensures var answer := CompleteAnswer(req, outcome, view);
            var back := req.browser && view.Some? && (outcome.error == None || ShowsEnd(outcome, view));
            && (answer == AlreadyProcessing <==> LostRace(outcome) && !back)
            && (answer == ResumeFailed <==> !LostRace(outcome) && !back && (view == None || outcome.error == Some(Internal)))
            && (forall url :: answer == ToProvider(url) <==> back && url == outcome.redirectURL != "")
            && (forall clientState, id :: answer == ToApplication(clientState, id) <==>
                  back && outcome.redirectURL == "" && clientState == view.value.clientState && id == view.value.correlationID)
            && (answer.Progress? <==> !req.browser && view.Some? && outcome.error == None)
  {
  }

  /** What the JSON route reports: the engine's status and reason, or else those of the view; a redirect if
      there is one; and a reason for a failed journey only. */
  lemma ProgressIs(req: Request, outcome: Outcome, view: View)
    requires !req.browser && outcome.error == None
    ensures var status := if outcome.status.Some? then outcome.status.value else view.status;
            var reason := if outcome.reason != "" then outcome.reason else view.reason;
            CompleteAnswer(req, outcome, Some(view)) ==
              Progress(Some(status),
                       if outcome.redirectURL != "" then Some(outcome.redirectURL) else None,
                       if status == Failed && reason != "" then Some(reason) else None)
  {
  }

  /** `handleStatus`. */
  function StatusAnswer(view: Option<View>): Answer {
    match view
    case None => NotFound
    case Some(v) => StatusIs(v.status, if v.status == Failed && v.reason != "" then Some(v.reason) else None)
  }

  /** `handleResult`; empty evidence is not sent. */
  function ResultAnswer(view: Option<View>): Answer {
    match view
    case None => NotFound
    case Some(v) =>
      if v.status != Completed then NotCompleted
      else SignedDocument(v.resultPDF, if v.evidence.Some? && v.evidence.value != [] then v.evidence else None)
  }

  /** What a status poll of the store shows, by the stored record. */
  lemma StatusShown<R>(st: Store<R>, id: string, now: int)
    requires Closed(st)
    ensures var answer := StatusAnswer(ViewByID(st, id, now).1);
            && (answer == NotFound <==> id !in st.byID)
            && (id in st.byID ==>
                  var rec := st.heap[st.byID[id]];
                  answer == if (rec.status == Pending || rec.status == Authorizing) && now > rec.expiresAt
                            then StatusIs(Failed, Some("session_expired"))
                            else StatusIs(rec.status, if rec.status == Failed && rec.reason != "" then Some(rec.reason) else None))
  {
  }

  /** What a result poll of the store shows, by the stored record. */
  lemma ResultShown<R>(st: Store<R>, id: string, now: int)
    requires Closed(st)
    ensures var answer := ResultAnswer(ViewByID(st, id, now).1);
            && (answer == NotFound <==> id !in st.byID)
            && (id in st.byID ==>
                  var rec := st.heap[st.byID[id]];
                  if rec.status == Completed then
                    answer == SignedDocument(rec.resultPDF, if rec.evidence == Some([]) then None else rec.evidence)
                  else answer == NotCompleted)
  {
  }

  function EngineErrorOf(e: ConsumeError): EngineError {
    match e
    case ErrTerminal => AlreadyTerminal
    case ErrResuming => AlreadyResuming
  }

  /** The outcome of `Complete` when the claim is refused. */
  function Refused(e: ConsumeError): Outcome {
    Outcome(None, "", "", Some(EngineErrorOf(e)))
  }
}
