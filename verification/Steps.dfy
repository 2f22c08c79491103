/**
 The decoded SDK step and the branch `drive` takes on it (internal/flow/flow.go).

 A step is a loosely typed map; every field is read with a checked type test, so a
 missing field and a field of the wrong type are the same thing.
 */
module Steps {
  import opened Basics

  datatype Status = Pending | Authorizing | Completed | Declined | Failed {
    predicate Terminal() {
      this == Completed || this == Declined || this == Failed
    }
  }

  datatype Value =
    | Text(text: string)
    | Blob(blob: Bytes)
    | List(items: seq<Value>)
    | Object(fields: map<string, Value>)
    | Scalar(number: int)

  type Step = map<string, Value>

  /** One SDK step: the new opaque handle and the decoded step. */
  datatype StepResult = StepResult(handle: Bytes, step: Step)

  /** What the SDK returns: a step, or an error. */
  datatype SdkReply = Stepped(res: StepResult) | SdkError

  datatype HttpEffect = HttpEffect(method_: string, url: string, headers: seq<(string, string)>, body: Option<Bytes>)

  /** The engine's collaborators that are library code: the JSON encoder (which may refuse a
      value) and the rewriting of authorization URLs; and the configured session lifetime. */
  datatype Config = Config(marshal: Value -> Option<Bytes>, rewrite: string -> string, ttl: int)

  const REASON_UPSTREAM_ERROR := "upstream_error"
  const REASON_RESUME_ERROR := "resume_error"
  const REASON_UNKNOWN := "unknown"
  const OUTCOME_DECLINED := "declined"

  function MapString(m: map<string, Value>, key: string): string {
    if key in m && m[key].Text? then m[key].text else ""
  }

  function StepKind(step: Step): string {
    MapString(step, "kind")
  }

  function StepRedirect(step: Step): Option<(string, string)> {
    var url, state := MapString(step, "url"), MapString(step, "state");
    if url == "" || state == "" then None else Some((url, state))
  }

  /** The header pairs `stepHTTP` keeps: two-element lists of strings, in order; anything else
      in the list is dropped silently. */
  function Headers(items: seq<Value>): seq<(string, string)> {
    if items == [] then []
    else
      var rest := Headers(items[1..]);
      var h := items[0];
      if h.List? && |h.items| == 2 && h.items[0].Text? && h.items[1].Text?
      then [(h.items[0].text, h.items[1].text)] + rest
      else rest
  }

  function StepHTTP(step: Step): Option<HttpEffect> {
    var m, url := MapString(step, "method"), MapString(step, "url");
    if m == "" || url == "" then None
    else
      Some(HttpEffect(m, url,
        if "headers" in step && step["headers"].List? then Headers(step["headers"].items) else [],
        if "body" in step && step["body"].Blob? then Some(step["body"].blob) else None))
  }

  function StepEvidence(marshal: Value -> Option<Bytes>, step: Step): Option<Option<Bytes>> {
    if "evidence" !in step then Some(None)
    else match marshal(step["evidence"])
      case None => None
      case Some(b) => Some(Some(b))
  }

  function SignedPdf(step: Step): Bytes {
    if "signed" in step && step["signed"].Object?
       && "pdf" in step["signed"].fields && step["signed"].fields["pdf"].Blob?
    then step["signed"].fields["pdf"].blob else []
  }

  function StepDone(marshal: Value -> Option<Bytes>, step: Step): Option<(Bytes, Option<Bytes>)> {
    var pdf := SignedPdf(step);
    if pdf == [] then None
    else match StepEvidence(marshal, step)
      case None => None
      case Some(evidence) => Some((pdf, evidence))
  }

  function MapFailed(step: Step): (Status, string) {
    var outcome := if "evidence" in step && step["evidence"].Object?
                   then MapString(step["evidence"].fields, "outcome") else "";
    if outcome == OUTCOME_DECLINED then (Declined, OUTCOME_DECLINED)
    else (Failed, if outcome == "" then REASON_UNKNOWN else outcome)
  }

  /** Why `Complete` returned an error. */
  datatype EngineError = AlreadyTerminal | AlreadyResuming | Internal

  /** The four results of `drive`; `status` is None for the empty status. */
  datatype Outcome = Outcome(status: Option<Status>, redirectURL: string, reason: string, error: Option<EngineError>)

  /** What `drive` does with one step: run an HTTP effect, wait for another redirect, or end. */
  datatype Plan =
    | Effect(effect: HttpEffect)
    | Index(url: string, state: string)
    | Finish(pdf: Bytes, evidence: Option<Bytes>)
    | Fail(status: Status, reason: string, failEvidence: Option<Bytes>, outcome: Outcome)

  const ResumeFailure := Fail(Failed, REASON_RESUME_ERROR, None, Outcome(None, "", "", Some(Internal)))

  const InvalidResult :=
    Fail(Failed, REASON_RESUME_ERROR, None, Outcome(Some(Failed), "", REASON_RESUME_ERROR, Some(Internal)))

  const UpstreamFailure :=
    Fail(Failed, REASON_UPSTREAM_ERROR, None, Outcome(Some(Failed), "", REASON_UPSTREAM_ERROR, None))

  /** The switch at the head of the drive loop. */
  function Decide(cfg: Config, res: StepResult): Plan {
    var step := res.step;
    match StepKind(step)
    case "perform_http" =>
      (match StepHTTP(step)
       case None => ResumeFailure
       case Some(effect) => Effect(effect))
    case "redirect" =>
      (match StepRedirect(step)
       case None => ResumeFailure
       case Some(p) => Index(p.0, p.1))
    case "done" =>
      (match StepDone(cfg.marshal, step)
       case None => InvalidResult
       case Some(p) => Finish(p.0, p.1))
    case "failed" =>
      (var (status, reason) := MapFailed(step);
       match StepEvidence(cfg.marshal, step)
       case None => InvalidResult
       case Some(evidence) => Fail(status, reason, evidence, Outcome(Some(status), "", reason, None)))
    case _ => ResumeFailure
  }

  /** What a plan that ends the journey writes: the status, the reason and the result. */
  datatype Settlement = Settlement(status: Status, reason: string, pdf: Bytes, evidence: Option<Bytes>)

  function SettlementOf(plan: Plan): Settlement
    requires plan.Finish? || plan.Fail?
  {
    if plan.Finish? then Settlement(Completed, "", plan.pdf, plan.evidence)
    else Settlement(plan.status, plan.reason, [], plan.failEvidence)
  }

  function EndOutcome(plan: Plan): Outcome
    requires plan.Finish? || plan.Fail?
  {
    if plan.Finish? then Outcome(Some(Completed), "", "", None) else plan.outcome
  }

  // --- What the fields say, key by key --------------------------------------------------

  /** The field holds exactly this text. */
  predicate HasText(m: map<string, Value>, key: string, text: string) {
    key in m && m[key] == Text(text)
  }

  /** Every plan is well formed, whatever the SDK sends: redirects carry a URL and a state, only a
      non-empty PDF completes, every failure has a reason, `declined` is reported exactly for a
      readable `failed` step whose outcome says so, and an outcome never names a status other than
      the one written. */
  lemma DecideIsSound(cfg: Config, res: StepResult)
    ensures var p, step := Decide(cfg, res), res.step;
            match p
            case Effect(e) => e.method_ != "" && e.url != "" && HasText(step, "kind", "perform_http")
            case Index(url, state) => url != "" && state != "" && HasText(step, "kind", "redirect")
            case Finish(pdf, _) => pdf != [] && HasPdf(step, pdf) && HasText(step, "kind", "done")
            case Fail(status, reason, _, outcome) =>
              && reason != ""
              && (status == Failed || status == Declined)
              && (outcome.status == None || outcome.status == Some(status))
              && (outcome.reason == "" || outcome.reason == reason)
              && outcome.redirectURL == ""
              && (outcome.error == None || outcome.error == Some(Internal))
              && (outcome.error == None ==> outcome.status != None)
              && (status == Declined <==> HasText(step, "kind", "failed") && SaysOutcome(step, "declined") && !EncoderRefuses(cfg, step))
  {
  }

  /** `pdf` is the blob under "pdf" in the object under "signed". */
  predicate HasPdf(step: Step, pdf: Bytes) {
    "signed" in step && step["signed"].Object? && "pdf" in step["signed"].fields && step["signed"].fields["pdf"] == Blob(pdf)
  }

  /** The object under "evidence" has this text under "outcome". */
  predicate SaysOutcome(step: Step, outcome: string) {
    "evidence" in step && step["evidence"].Object? && HasText(step["evidence"].fields, "outcome", outcome)
  }

  /** There is evidence, and the encoder does not take it. */
  predicate EncoderRefuses(cfg: Config, step: Step) {
    "evidence" in step && cfg.marshal(step["evidence"]) == None
  }

  /** `evidence` is the encoded field, or there is neither. */
  predicate HasEvidence(cfg: Config, step: Step, evidence: Option<Bytes>) {
    if "evidence" in step then evidence.Some? && cfg.marshal(step["evidence"]) == evidence else evidence == None
  }

  /** A header is a list of two texts. */
  predicate IsHeader(item: Value) {
    item.List? && |item.items| == 2 && item.items[0].Text? && item.items[1].Text?
  }

  /** `hs` are the headers at the places `at`, in order, and nothing else in the list is a header. */
  predicate HeadersAt(items: seq<Value>, at: seq<nat>, hs: seq<(string, string)>) {
    && |at| == |hs|
    && (forall i, j | 0 <= i < j < |at| :: at[i] < at[j])
    && (forall i | 0 <= i < |at| :: at[i] < |items| && items[at[i]] == List([Text(hs[i].0), Text(hs[i].1)]))
    && (forall k | 0 <= k < |items| && k !in at :: !IsHeader(items[k]))
  }

  ghost predicate HasHeaders(step: Step, hs: seq<(string, string)>) {
    if "headers" in step && step["headers"].List? then exists at :: HeadersAt(step["headers"].items, at, hs) else hs == []
  }

  predicate HasBody(step: Step, body: Option<Bytes>) {
    match body
    case Some(b) => "body" in step && step["body"] == Blob(b)
    case None => "body" in step ==> !step["body"].Blob?
  }

  /** The step's fields are those of the effect. */
  ghost predicate AsksFor(step: Step, e: HttpEffect) {
    && e.method_ != "" && HasText(step, "method", e.method_)
    && e.url != "" && HasText(step, "url", e.url)
    && HasHeaders(step, e.headers) && HasBody(step, e.body)
  }

  lemma {:induction false} HeadersFound(items: seq<Value>) returns (at: seq<nat>)
    ensures HeadersAt(items, at, Headers(items))
    decreases |items|
  {
    at := [];
    if items != [] {
      var n := |items| - 1;
      at := HeadersFound(items[..n]);
      HeadersOneMore(items[..n], items[n], at, Headers(items[..n]));
      HeadersAppended(items[..n], items[n]);
      assert items == items[..n] + [items[n]];
      if IsHeader(items[n]) { at := at + [n]; }
    }
  }

  lemma HeadersAppended(items: seq<Value>, last: Value)
    ensures Headers(items + [last]) ==
            if IsHeader(last) then Headers(items) + [(last.items[0].text, last.items[1].text)] else Headers(items)
  {
    HeadersConcat(items, [last]);
  }

  lemma HeadersOneMore(items: seq<Value>, last: Value, at: seq<nat>, hs: seq<(string, string)>)
    requires HeadersAt(items, at, hs)
    ensures IsHeader(last) ==>
              HeadersAt(items + [last], at + [|items|], hs + [(last.items[0].text, last.items[1].text)])
    ensures !IsHeader(last) ==> HeadersAt(items + [last], at, hs)
  {
    forall k | 0 <= k < |items| + 1 && k !in at + [|items|] ensures !IsHeader((items + [last])[k]) {
      assert k != |items| by { assert (at + [|items|])[|at|] == |items|; }
    }
  }

  lemma {:induction false} HeadersAreFound(items: seq<Value>, at: seq<nat>, hs: seq<(string, string)>)
    requires HeadersAt(items, at, hs)
    ensures Headers(items) == hs
    decreases |items|
  {
    if items != [] {
      var n := |items| - 1;
      assert items == items[..n] + [items[n]];
      HeadersAppended(items[..n], items[n]);
      if IsHeader(items[n]) {
        LastIsLast(items, at, hs);
        HeadersOneLess(items, at, hs);
        HeadersAreFound(items[..n], at[..|at| - 1], hs[..|hs| - 1]);
      } else {
        NotAmong(items, at, hs);
        HeadersAreFound(items[..n], at, hs);
      }
    }
  }

  lemma LastIsLast(items: seq<Value>, at: seq<nat>, hs: seq<(string, string)>)
    requires items != [] && HeadersAt(items, at, hs) && IsHeader(items[|items| - 1])
    ensures |at| > 0 && at[|at| - 1] == |items| - 1
    ensures var last := items[|items| - 1]; hs == hs[..|hs| - 1] + [(last.items[0].text, last.items[1].text)]
  {
    var n := |items| - 1;
    assert n in at;
    var j :| 0 <= j < |at| && at[j] == n;
    AtMostLast(at, j);
  }

  lemma AtMostLast(at: seq<nat>, j: int)
    requires 0 <= j < |at| && forall i, k | 0 <= i < k < |at| :: at[i] < at[k]
    ensures at[j] <= at[|at| - 1]
  {
  }

  lemma NotAmong(items: seq<Value>, at: seq<nat>, hs: seq<(string, string)>)
    requires items != [] && HeadersAt(items, at, hs) && !IsHeader(items[|items| - 1])
    ensures HeadersAt(items[..|items| - 1], at, hs)
  {
    HeadersThere(items, at, hs);
  }

  lemma HeadersThere(items: seq<Value>, at: seq<nat>, hs: seq<(string, string)>)
    requires HeadersAt(items, at, hs)
    ensures forall i | 0 <= i < |at| :: at[i] < |items| && IsHeader(items[at[i]])
  {
  }

  lemma HeadersOneLess(items: seq<Value>, at: seq<nat>, hs: seq<(string, string)>)
    requires items != [] && HeadersAt(items, at, hs) && |at| > 0 && at[|at| - 1] == |items| - 1
    ensures HeadersAt(items[..|items| - 1], at[..|at| - 1], hs[..|hs| - 1])
  {
    var n, m := |items| - 1, |at| - 1;
    assert at == at[..m] + [n];
  }

  /** `stepHTTP` gives an effect exactly if the step's fields are those of that effect. */
  lemma StepHTTPIff(step: Step, e: HttpEffect)
    ensures StepHTTP(step) == Some(e) <==> AsksFor(step, e)
  {
    if "headers" in step && step["headers"].List? {
      var items := step["headers"].items;
      var at := HeadersFound(items);
      if AsksFor(step, e) {
        var at' :| HeadersAt(items, at', e.headers);
        HeadersAreFound(items, at', e.headers);
      }
    }
  }

  /** An HTTP effect is performed exactly if the step is of that kind and has its method, URL, headers and
      body: the method under "method", the URL under "url". */
  lemma PerformsIff(cfg: Config, res: StepResult, e: HttpEffect)
    ensures Decide(cfg, res) == Effect(e) <==> HasText(res.step, "kind", "perform_http") && AsksFor(res.step, e)
  {
    StepHTTPIff(res.step, e);
  }

  /** A redirect is followed exactly if the step is of that kind and has its URL and its state. */
  lemma AwaitsIff(cfg: Config, res: StepResult, url: string, state: string)
    ensures Decide(cfg, res) == Index(url, state) <==>
              && HasText(res.step, "kind", "redirect")
              && url != "" && HasText(res.step, "url", url) && state != "" && HasText(res.step, "state", state)
  {
  }

  /** A journey is completed with a document exactly if the step is of kind "done", has that document, not
      empty, and its evidence encodes, if there is any. */
  lemma FinishesIff(cfg: Config, res: StepResult, pdf: Bytes, evidence: Option<Bytes>)
    ensures Decide(cfg, res) == Finish(pdf, evidence) <==>
              && HasText(res.step, "kind", "done")
              && pdf != [] && HasPdf(res.step, pdf) && HasEvidence(cfg, res.step, evidence)
  {
  }

  /** The status and reason for the outcome in the evidence. */
  predicate Reports(step: Step, status: Status, reason: string) {
    if SaysOutcome(step, "declined") then status == Declined && reason == "declined"
    else status == Failed
         && if "evidence" in step && step["evidence"].Object? && "outcome" in step["evidence"].fields
               && step["evidence"].fields["outcome"].Text? && step["evidence"].fields["outcome"].text != ""
            then SaysOutcome(step, reason)
            else reason == "unknown"
  }

  /** A terminal step that cannot be read: no document, or evidence the encoder refuses. */
  ghost predicate Unreadable(cfg: Config, step: Step) {
    || (HasText(step, "kind", "done") && (EncoderRefuses(cfg, step) || forall pdf | HasPdf(step, pdf) :: pdf == []))
    || (HasText(step, "kind", "failed") && EncoderRefuses(cfg, step))
  }

  /** There is no such text, or it is empty. */
  ghost predicate Lacks(step: Step, key: string) {
    forall text | HasText(step, key, text) :: text == ""
  }

  /** A step of no known kind, or an effect or a redirect without one of its two texts. */
  ghost predicate Malformed(step: Step) {
    if HasText(step, "kind", "perform_http") then Lacks(step, "method") || Lacks(step, "url")
    else if HasText(step, "kind", "redirect") then Lacks(step, "url") || Lacks(step, "state")
    else !HasText(step, "kind", "done") && !HasText(step, "kind", "failed")
  }

  /** When a journey fails, and as what: the outcome in a readable `failed` step, with the SDK's word for
      it; a terminal step that cannot be read; or a step that is none. */
  lemma FailsIff(cfg: Config, res: StepResult, status: Status, reason: string, evidence: Option<Bytes>, outcome: Outcome)
    ensures Decide(cfg, res) == Fail(status, reason, evidence, outcome) <==>
              || (&& HasText(res.step, "kind", "failed") && Reports(res.step, status, reason) && HasEvidence(cfg, res.step, evidence)
                  && outcome == Outcome(Some(status), "", reason, None))
              || (&& Unreadable(cfg, res.step) && status == Failed && reason == "resume_error" && evidence == None
                  && outcome == Outcome(Some(Failed), "", "resume_error", Some(Internal)))
              || (&& Malformed(res.step) && status == Failed && reason == "resume_error" && evidence == None
                  && outcome == Outcome(None, "", "", Some(Internal)))
  {
    var step := res.step;
    assert HasText(step, "kind", StepKind(step)) || StepKind(step) == "";
    TextIs(step, "method");
    TextIs(step, "url");
    TextIs(step, "state");
    PdfIs(step);
  }

  lemma TextIs(step: Step, key: string)
    ensures Lacks(step, key) <==> MapString(step, key) == ""
  {
    if Lacks(step, key) && MapString(step, key) != "" { assert HasText(step, key, MapString(step, key)); }
  }

  lemma PdfIs(step: Step)
    ensures SignedPdf(step) == [] <==> forall pdf | HasPdf(step, pdf) :: pdf == []
  {
    if SignedPdf(step) != [] { assert HasPdf(step, SignedPdf(step)); }
  }

  lemma {:induction false} HeadersConcat(a: seq<Value>, b: seq<Value>)
    ensures Headers(a + b) == Headers(a) + Headers(b)
  {
    if a == [] {
      assert a + b == b;
    } else {
      HeadersConcat(a[1..], b);
      assert (a + b)[1..] == a[1..] + b;
    }
  }

  /** The wire form of a header list. */
  function HeaderItems(hs: seq<(string, string)>): seq<Value> {
    seq(|hs|, i requires 0 <= i < |hs| => List([Text(hs[i].0), Text(hs[i].1)]))
  }

  /** Reading back a well-formed header list loses nothing and keeps the order. */
  lemma {:induction false} HeadersRoundTrip(hs: seq<(string, string)>)
    ensures Headers(HeaderItems(hs)) == hs
  {
    if hs != [] {
      HeadersRoundTrip(hs[1..]);
      assert HeaderItems(hs)[1..] == HeaderItems(hs[1..]);
    }
  }

  /** The header loop of `stepHTTP`. */
  method ParseHTTP(step: Step) returns (effect: Option<HttpEffect>)
    ensures effect == StepHTTP(step)
    ensures forall e :: effect == Some(e) <==> AsksFor(step, e)
  {
    forall e ensures StepHTTP(step) == Some(e) <==> AsksFor(step, e) {
      StepHTTPIff(step, e);
    }
    var m, url := MapString(step, "method"), MapString(step, "url");
    if m == "" || url == "" {
      return None;
    }
    var headers: seq<(string, string)> := [];
    if "headers" in step && step["headers"].List? {
      var items := step["headers"].items;
      for i := 0 to |items|
        invariant headers == Headers(items[..i])
      {
        var h := items[i];
        assert items[..i + 1] == items[..i] + [h];
        HeadersConcat(items[..i], [h]);
        if h.List? && |h.items| == 2 {
          if h.items[0].Text? && h.items[1].Text? {
            headers := headers + [(h.items[0].text, h.items[1].text)];
          }
        }
      }
      assert items[..|items|] == items;
    }
    var body := if "body" in step && step["body"].Blob? then Some(step["body"].blob) else None;
    return Some(HttpEffect(m, url, headers, body));
  }
}
