# The signing journey, verified

The trust gateway drives a remote signing SDK through a browser: a journey starts with a redirect to the
provider, every OAuth callback resumes the SDK, the SDK asks for HTTP effects or for another redirect, and in
the end there is a signed PDF or a failure. Callbacks, duplicates of callbacks, pollers, new starts and the
clock interleave freely over one in-memory session store. This project models that protocol twice and proves
what it keeps.

- **Sequential layer.** `Memory` (class) is the store with its two maps and its mutable sessions, one method per
  store method; `Engine` (class) is the flow engine with its drive loop; `Service` (class) is the completion path
  and the two observers. Each method is proved against a specification on values: `SessionStore` (the store),
  `Drive` (the loop as a recursive function), `Steps` (what the engine does with one SDK step) and `HttpApi` (the
  answers). The SDK and the upstream services are functions of everything exchanged so far, so they may answer
  differently every time; a rank on handles bounds consecutive HTTP effects.
- **Interleaved layer.** `Protocol` is a step relation over snapshots, with request threads and program counters.
  A step is one atomic store call, one SDK call, one upstream call or one return; the clock may tick between any
  two. `Hist` records, per session, the conversation with the SDK, the claims and the releases. `Effects` says what
  each step leaves alone, `Executions` what a run is, and `Scenes` tells concrete runs briefly. `Sequential` proves
  that a whole start, callback or poll stepped through alone does to the store, tells the SDK and answers exactly what
  `Engine` and `Service` are proved to do.
- **Signature extraction.** `Signature` is the ByteRange parser of the end-to-end driver (ISO 32000-1 section
  12.8.1), the hexadecimal string in its gap (section 7.3.4.3) and the DER definite length (ITU-T X.690 section
  8.1.3). `RangeSyntax` and `HexSyntax` state as grammars, in characters and octets, what the pattern and the decoder
  accept.

## Hypotheses on the environment

They are predicates on one step (`Protocol`), and every result says which of them it assumes.

- H1 `FreshNames`: correlation ids and OAuth states are never issued twice.
- H2 `ClockForward`: the clock never goes back.
- H3 `StateWasHandedOut`: a state the gateway was issued comes back in a callback only after the call that issued it
  has returned its redirect URL (`state` in sections 4.1.1 and 4.1.2 of RFC 6749).
- H4 `ClaimIsCurrent`: a claim that succeeds does so while the session still waits for the state that was looked up.

| results | modules | assume |
|---|---|---|
| mutual exclusion, claim accounting | `Ledger` | nothing |
| what is served was signed, what settles and what unsettles a journey, losers, redirects to the provider | `Settlement`, `Answers` | nothing |
| what is told to the SDK was brought by a callback | `Provenance` | nothing |
| how often a state reaches the SDK | `Spending` | H1 |
| when a session is dropped | `Storage.DroppedIff` | nothing |
| index, eviction, retention, the way back to the application | `Custody`, `Storage`, `Answers.ClientStateComesBack` | H1, H2 |
| polling transparency | `Transparency` | H1, H2, H3 |
| one-shot states | `Spending.OneShot` | H1, H4 |
| linear handles, rest, order of views | `Invariant` to `Safety`, `Views` | H1 to H4 |

`Custody.Orderly` and `Invariant.Inv` are the two inductive invariants; `Inv` is `Orderly` together with the journeys.
`Custody.StepCustody` and `Runs.StepInv` say that every step keeps them.

## What does not hold

H1 to H4 are about the environment and the scheduling; the code does not check them. Each item below says what fails,
on which run, and exactly when.

- **A state is one-shot only under H4.** `ConsumeForResume` takes the session pointer and does not check that the
  session still waits for the state that was looked up. Two callbacks can both look up a state, the first can be
  driven to the next redirect and release the claim, and the second then claims the session again and takes the old
  state to the SDK with the new handle. The comment at internal/flow/flow.go:262-266 (never reaches the SDK a second
  time) and docs/trust-gateway-api.md:68 (one-shot) promise otherwise; the model follows the code.
  `Counterexamples.WithoutH4StateReachesSdkTwice` is the run. `Limits.ReturnsAgainIff` is the exact condition: a granted
  claim takes its callback's state to the SDK again if and only if the session no longer waits for that state.
  `Spending.ReturnsAreAccounted` counts them without H4: a state reaches the SDK at most once, plus once for every such
  claim. `Limits.PairedIffCurrent` is the same condition for the handle that goes with it.
- **A settled journey stays settled only under H4.** The late callback above may also complete the journey while the
  status write of the first call is still to come. docs/trust-gateway-api.md:109-110 promises that repeated reads return
  the same document. In `Counterexamples.WithoutH4CompletedIsUndone` the session goes from completed back to authorizing
  with the document still in the record, and the result is no longer served; so the order of views, frozen views and
  "completed exactly when there is a document" all fail. With nothing assumed, `Settlement.StatusTakenAwayIff` says which
  step takes an end status away (exactly the status write of a start or a call that has indexed a redirect on that session)
  and `Settlement.SettledForGoodIff` says when a settled session stays as it is for good: if and only if no such write is
  pending. That a completed session has a signed document, and that nothing else is ever served, needs no hypothesis
  (`Settlement.CompletedIsSigned`, `Settlement.ServedIsSigned`).
- **Polling is invisible only under H3.** Between `SetState` and the status write after it, a session past its
  deadline is findable by its new state if a poll has marked it failed, and not findable otherwise.
  `Counterexamples.WithoutH3PollingIsVisible` is the pair of runs, `Storage.MarkedOnlyInWindow` says that the window is
  the only place, and `Limits.PollUnseenIff` is the exact condition: a poll just before `SetState` goes unseen if and only
  if the deadline has not passed unmarked. (`Limits.LookupsAgreeIff` reduces any other two worlds that differ by polls to
  the mark.)
- **The raw status is not absorbing, even under H1 to H4.** A session marked `session_expired` while its claim is in
  flight may still be completed by the claim holder: `Counterexamples.MarkIsOvercome`. `Views.EndOverwrittenIff` is the
  exact condition: the session is not settled yet, and the step is its call's status write or settlement. What views show
  is ordered all the same: open, then expired, then settled.
- **Retention needs H1.** `New` under an id already in use replaces a stored session before its deadline:
  `Counterexamples.WithoutH1SessionIsDropped`. `Storage.DroppedIff` says, with nothing assumed, when a session is dropped.

That a browser sent back to the application has a journey that is over needs one fact about the URL rewriting,
`Views.RewritesKeep`: a URL is never rewritten to the empty string. internal/upstream/client.go:32-47 meets it.

## Model

| member | source | states |
|---|---|---|
| Ledger.MutualExclusion | internal/session/store.go:163-212 | in every interleaving, whatever the environment does, claims minus releases is 1 while a session is being resumed and else 0, and a session is being resumed exactly when one thread, and only one, is between claim and release |
| Ledger.NoSecondClaim | internal/flow/flow.go:262-279 | while a thread is between claim and release every other claim of that session is refused, so SDK resumes and upstream calls for one session never overlap |
| Ledger.StepAccounted | internal/session/store.go:90-237 | every step of every thread keeps the accounts of claims and releases, with no hypothesis |
| Custody.StepCustody | internal/session/store.go:90-237 | under H1 and H2 every step keeps the two indexes in agreement, ids and states apart, claimed sessions stored, and states not yet handed out with one call each |
| Storage.EvictionNeverMeetsClaim | internal/session/store.go:227-237 | a claimed session is in the store; one that has left it is more than five minutes past its deadline and refuses every claim |
| Storage.EvictedForever | internal/session/store.go:163-168 | once evicted, a session stays out of the store in every continuation and the pointer a late callback still holds never claims it |
| Storage.IndexingIsSafe | internal/session/store.go:189-200 | `SetState` only ever indexes a stored session, under a state that no index entry has |
| Storage.IndexIsScan | internal/session/store.go:125-141 | in every reachable world a lookup by state equals the linear scan of stored sessions, has at most one answer, never finds a claimed session, and the index has exactly the states a stored session holds |
| Storage.MarkedOnlyInWindow | internal/flow/flow.go:159-160 | a lookup can find a session already marked failed only between `SetState` and the status write after it, past the deadline, with a state not yet handed out |
| Storage.NoEarlyDrop | internal/session/store.go:227-237 | no step drops a session until more than 300,000,000,000 nanoseconds after its deadline, or while it is claimed; only `New` drops any |
| Storage.DroppedIff | internal/session/store.go:91-110 | whatever the environment does, a step drops a stored session if and only if it creates one and the old one is unclaimed and more than five minutes past its deadline, or the new one has its id |
| Storage.RetentionBound | internal/session/store.go:91-110 | after every `New` each stored session is in flight or was created within the last lifetime plus five minutes, so the store is no larger than those two groups together (with a positive lifetime, as internal/config/config.go:165-173 requires) |
| SessionStore.LookupIsScan | internal/session/store.go:125-141 | on a store whose indexes agree, `GetByState` finds a session exactly when it is the one stored session that holds the state and is not due for expiry |
| SessionStore.ExpireConsistent | internal/session/store.go:214-225 | expiry keeps the two indexes in agreement, also for a session already evicted |
| SessionStore.EvictConsistent | internal/session/store.go:227-237 | eviction keeps the two indexes in agreement |
| SessionStore.NewConsistent | internal/session/store.go:91-110 | creating a session under an unused id and an unused state keeps the two indexes in agreement |
| SessionStore.ConsumeConsistent | internal/session/store.go:163-179 | a claim keeps the two indexes in agreement |
| SessionStore.SetStateConsistent | internal/session/store.go:189-200 | indexing a stored session under a state no other session holds keeps the two indexes in agreement |
| SessionStore.FinalizeConsistent | internal/session/store.go:203-212 | finalising keeps the two indexes in agreement |
| SessionStore.DoomedEntries | internal/session/store.go:229-235 | the state entries eviction deletes are exactly those of the sessions it deletes |
| Memory.Memory.New | internal/session/store.go:91-110 | evicts, then stores a fresh session under its id and state, with the fields given and the deadline one lifetime ahead; no other entry is added, moved or, unless out of date, dropped |
| Memory.Memory.Get | internal/session/store.go:113-122 | the session stored under the id, marked failed if its deadline has passed unfinished, or nothing |
| Memory.Memory.GetByState | internal/session/store.go:125-141 | the session indexed under the state; nothing exactly when there is no entry, the entry leads nowhere, or its session waits for that state past its deadline |
| Memory.Memory.ViewByID | internal/session/store.go:144-160 | the snapshot of the session after expiry, or nothing |
| Memory.Memory.ConsumeForResume | internal/session/store.go:163-179 | terminal exactly when the session is finished or past its deadline, resuming exactly when it is claimed, and otherwise the claim: the handle is returned, the state and its index entry are dropped, nothing else changes |
| Memory.Memory.SetState | internal/session/store.go:189-200 | moves the index entry to the new state, writes it and releases the claim; no other field changes |
| Memory.Memory.Finalize | internal/session/store.go:203-212 | drops the state, its index entry and the handle and releases the claim; no other field changes |
| Memory.Memory.ExpireLocked | internal/session/store.go:214-225 | marks an unfinished session past its deadline failed with "session_expired", and drops its handle, state and index entry; otherwise, and for every other session, changes nothing |
| Memory.Memory.EvictExpiredLocked | internal/session/store.go:227-237 | in whatever order the entries are visited, an entry goes exactly if its session is unclaimed and more than five minutes past its deadline, and with it exactly the index entries of such sessions' states |
| Memory.Memory.Settle | internal/flow/flow.go:170-174 | the terminal write, field by field: status with PDF and evidence, or status with reason and, if there is any, evidence |
| Steps.DecideIsSound | internal/flow/flow.go:131-192 | whatever the SDK sends, a redirect has a URL and a state, only the non-empty document of a step of kind "done" completes, every failure has a reason, `declined` is reported exactly for a readable "failed" step whose evidence says "declined", and no outcome names a status other than the one written |
| Steps.PerformsIff | internal/flow/flow.go:314-337 | an HTTP effect is performed if and only if the step is of kind "perform_http" and has non-empty texts under "method" and "url"; the effect has that method, that URL, the two-text lists under "headers" in order and nothing else, and the blob under "body" if there is one |
| Steps.AwaitsIff | internal/flow/flow.go:298-304 | a redirect is followed if and only if the step is of kind "redirect" and has non-empty texts under "url" and "state", which are its URL and its state |
| Steps.FinishesIff | internal/flow/flow.go:339-353 | a journey is completed if and only if the step is of kind "done", has a non-empty blob under "pdf" in the object under "signed", which is the document, and its evidence encodes or is absent |
| Steps.FailsIff | internal/flow/flow.go:367-379 | a journey fails exactly so: a readable "failed" step is declined if its outcome is "declined", else failed with its outcome or "unknown"; an unreadable terminal step and a step that is none fail with "resume_error", each with its own outcome |
| Steps.ParseHTTP | internal/flow/flow.go:314-337 | the header loop gives an effect if and only if the step asks for it, key by key |
| Steps.HeadersRoundTrip | internal/flow/flow.go:319-332 | reading back a well-formed header list gives the same list |
| Engine.Engine.Run | internal/flow/flow.go:127-194 | the drive loop terminates on the SDK's rank, releases the claim exactly once, and ends with the store, the exchanges and the outcome of the recursive specification |
| Engine.Engine.Iterate | internal/flow/flow.go:128-192 | one turn of the loop writes the handle and either leaves what the drive will come to unchanged, with the rank lower, or has come to it |
| Engine.Engine.Complete | internal/flow/flow.go:234-245 | claim, one resume, drive, exactly as many releases as claims; if the session may be claimed the first thing the SDK is told is `ResumeRedirect` with the handle it held, the code and the state, and otherwise it is told nothing and the call is refused |
| Engine.Engine.CompleteError | internal/flow/flow.go:249-260 | the same with an OAuth error and `ResumeRedirectError` |
| Engine.Engine.Begin | internal/flow/flow.go:210-230 | asks the SDK once, with the document, the conformance and the signer, and records the exchange; only a well-formed redirect creates a session, whose every field is stated, and otherwise the store is untouched |
| Engine.Engine.End | internal/flow/flow.go:196-205 | the terminal write followed by `Finalize`: one release, the specified store and outcome |
| Drive.DriveIsScript | internal/flow/flow.go:127-194 | for every behaviour of SDK and upstream the drive is one script: the leading HTTP effects in order and once each up to the first failure, each response fed to one resume with the handle of the step that asked; store and outcome depend only on the last handle and the verdict |
| Drive.ExitReleases | internal/flow/flow.go:153-191 | every exit leaves the session unclaimed and either indexed at the new state and authorizing, or finalised with the status, reason, document and evidence of its plan, and nothing else changed, and reports so |
| Drive.CallTells | internal/flow/flow.go:234-260 | a granted call makes exactly one redirect resume, first of all, with the handle the session held and the code or error and the state given, and then only HTTP effects and their resumes; a refused one exchanges nothing and says whether the journey is over or being advanced |
| Drive.BreaksAs | internal/flow/flow.go:138-151 | a drive that breaks off fails with "upstream_error" and no engine error if the upstream call failed, and with "resume_error" and an engine error if the SDK refused the response |
| Drive.PathTells | internal/httpapi/service.go:342-356 | a callback tells the SDK its error if it has one, else its code, with its state and the waiting session's handle, if and only if it is well formed and finds a session that may be claimed; else nothing |
| Drive.RefusedIff | internal/httpapi/service.go:342-349 | a callback is malformed exactly when the state, or both code and error, are empty, and unknown exactly when no stored session is found under its state |
| Drive.OpenedIs | internal/flow/flow.go:223-229 | after a start the session waits under its state with the SDK's handle for exactly its lifetime, and every other session is stored still exactly if claimed or not more than five minutes past its deadline |
| Drive.DriveReleases | internal/flow/flow.go:127-194 | whatever the SDK and upstream do, the drive releases the claim and leaves the session and the outcome that the verdict of its script prescribes |
| Drive.CompleteReleases | internal/flow/flow.go:234-260 | after a granted claim every path, resume error included, releases it and leaves the session as the script's verdict prescribes, no other session changed |
| Drive.TurnsRank | internal/flow/flow.go:146-152 | a turn that brings another HTTP effect has used up some of the SDK's rank |
| Service.Service.Complete | internal/httpapi/service.go:342-373 | validation, lookup, engine call and final view compose to the specified completion; claims equal releases |
| Service.Service.Handle | internal/httpapi/service.go:278-339 | both routes turn the completion into the specified answer, with exactly the specified effect on the store; malformed and unknown exactly as above; and the SDK is first told the callback's own code or error with its state and the handle of the session that waits, or nothing |
| Service.Service.Conclude | internal/httpapi/service.go:357-372 | what the engine left open is filled in from the final view; a vanished session is an error |
| HttpApi.AnswersIff | internal/httpapi/service.go:300-339 | when each answer is given: 409 exactly for a lost race and 500 exactly for an engine error or a vanished session, unless the browser is sent back; to the provider or to the application exactly on the browser route without an error or once the journey shows its end |
| HttpApi.ProgressIs | internal/httpapi/service.go:300-322 | the JSON route reports the engine's status and reason or else the view's, a redirect if there is one, and a reason for a failed journey only |
| HttpApi.StatusShown | internal/httpapi/service.go:421-434 | what a status poll shows, by the stored record: not found, failed by expiry, or its status |
| HttpApi.ResultShown | internal/httpapi/service.go:436-454 | what a result poll shows, by the stored record: not found, a conflict, or the document with its evidence |
| Service.Service.HandleStatus | internal/httpapi/service.go:421-434 | not found exactly when nothing is stored under the id; an unfinished session past its deadline is reported failed by expiry; any other by its status, with a reason only for a failed one |
| Service.Service.HandleResult | internal/httpapi/service.go:436-454 | not found exactly when nothing is stored under the id, a conflict exactly for a session that is not completed, and else the session's PDF with its evidence, empty evidence left out |
| Sequential.DriveAlone | internal/flow/flow.go:127-194 | the drive's steps in the interleaved layer, taken alone, leave the store and outcome the drive loop is proved to leave, and record in the history exactly the SDK calls the drive makes |
| Sequential.CallbackAlone | internal/httpapi/service.go:342-373 | a whole callback in the interleaved layer, taken alone, leaves the store, gives the answer and records the SDK calls that the handlers are proved to leave, give and make |
| Sequential.StartAlone | internal/flow/flow.go:210-230 | a whole start in the interleaved layer, taken alone, leaves the store and gives the answer that `Begin` is proved to leave and give |
| Sequential.PollAlone | internal/httpapi/service.go:421-454 | a poll in the interleaved layer leaves the store the observers are proved to leave and shows what the stored record says |
| Provenance.NothingIsMadeUp | internal/flow/flow.go:234-260 | whatever the environment does, every redirect resume in any conversation carries exactly the code, or the error if it had one, and the state of a well-formed callback of the run |
| Provenance.StepFromRequests | internal/httpapi/service.go:342-356 | every step keeps it so that threads work on requests that came in and conversations hold nothing else |
| Runs.StepInv | internal/flow/flow.go:127-279 | under H1 to H4 every step of every interleaving keeps the protocol's invariant |
| Runs.StepLater | internal/session/store.go:90-237 | no step undoes a settlement, shortens a conversation, changes a session's identity or deadline, or brings an evicted session back |
| Safety.OneActiveCall | internal/flow/flow.go:262-279 | at most one call is active on a session from its claim, or its start, to its return |
| Spending.OneShot | internal/session/store.go:163-179 | under H1 and H4 each OAuth state reaches the SDK in at most one redirect resume, over all sessions and callbacks |
| Spending.ReturnsAreAccounted | internal/session/store.go:163-179 | under H1 alone, along any run, a state reaches the SDK at most once more than there were claims granted to a callback whose session no longer waited for it |
| Safety.HandlesAreLinear | internal/flow/flow.go:129-146 | every SDK resume gets exactly the handle the previous SDK call for that session returned; a redirect resume brings the state emitted with it, an HTTP resume answers the effect asked for |
| Safety.OneEntrant | internal/httpapi/service.go:346-355 | a callback about to enter the SDK with a state excludes any past resume with it and any other such callback |
| Safety.RestDichotomy | internal/flow/flow.go:158-177 | when no call is active on a session before its deadline, it is either finished, unindexed and without handle, or waits under exactly the last state with the last handle, so that the next callback is found and claims it: no journey is stuck |
| Safety.CompletedMeansSigned | internal/flow/flow.go:163-177 | completed exactly when there is a PDF; PDF and evidence are those of the SDK's last reply, a valid `done` step, and no earlier reply was one |
| Settlement.StepEarnest | internal/flow/flow.go:127-194 | with nothing assumed, every step keeps: each plan comes from a reply of the session's own conversation, and a completed session has a non-empty PDF that such a reply gave |
| Settlement.CompletedIsSigned | internal/flow/flow.go:163-175 | whatever the environment does, a completed session has a non-empty PDF, and PDF and evidence are those of one valid `done` step the SDK gave for that session |
| Settlement.ServedIsSigned | internal/httpapi/service.go:436-454 | whatever the environment does, a document is served for an id only if the SDK gave it, with that evidence, for the session stored under the id |
| Settlement.StatusTakenAwayIff | internal/flow/flow.go:159-160 | a step takes an end status away if and only if it is the status write of a redirect, by a start or a call that has indexed its state on that session |
| Settlement.SettledForGoodIff | internal/flow/flow.go:163-177 | what is shown of a settled session stays the same along every continuation if and only if no call still has such a write to make |
| Settlement.SettlingBringsRest | internal/flow/flow.go:196-205 | whatever the environment does, after every settlement the session has an end status and no thread holds it but the one about to finalise it |
| Views.ViewByPhase | internal/session/store.go:144-160 | what pollers see of a session is determined by whether it is open, past its deadline or settled, and how it was settled |
| Views.ViewsNeverGoBack | internal/session/store.go:144-160 | over every run the views of a session go open, expired, settled, never backwards, and from the settlement on every view is identical until eviction |
| Views.StepFreezes | internal/flow/flow.go:170-175 | no step changes any visible field of a settled session |
| Views.EndOverwrittenIff | internal/session/store.go:214-225 | under H1 to H4 a step changes what is shown of a session with an end status if and only if the session is not settled and the step is its call's status write or settlement |
| Answers.LosersNeverFail | internal/httpapi/service.go:375-419 | with nothing assumed, a callback that lost the claim is told 409 or, on the browser route, sent back to the application; never a 500, even if the session was evicted |
| Views.LosersReturnWhenOver | internal/httpapi/service.go:324-339 | under H1 to H4 a loser sent back to the application carries its session's own references, and the journey is over |
| Answers.ToProviderIsAsked | internal/httpapi/service.go:330-333 | with nothing assumed, a redirect to the provider carries the rewritten URL of a redirect step the SDK gave for that session |
| Views.ToApplicationMeansOver | internal/httpapi/service.go:324-339 | a redirect to the application names the session's own references and means the journey is over, and settled if the callback was the one that resumed it (with a rewriting that never empties a URL, as internal/upstream/client.go:32-47) |
| Views.OverOrEmptied | internal/httpapi/service.go:324-339 | with an arbitrary rewriting the journey is over unless its own next URL was rewritten to the empty one |
| Answers.ClientStateComesBack | internal/httpapi/service.go:397-404 | under H1 and H2, from the start to the end of a journey, whatever happens in between, a browser sent back to the application carries the client state the journey was started with and its own id |
| Views.StartedIsCurrent | internal/flow/flow.go:207-230 | a start answers with the rewritten URL of the SDK's redirect, whose state the session waits for and which is only now handed out, and with the exact expiry of the session |
| Views.ToProviderIsCurrent | internal/httpapi/service.go:330-333 | a redirect to the provider carries the rewritten URL of the SDK's last redirect step, whose state the session now waits for unless its deadline has passed |
| Views.BrowserFailureMeansEvicted | internal/httpapi/service.go:357-363 | a 500 on the browser route means the session was evicted, later than its deadline plus grace |
| Transparency.PollsAreInvisible | internal/session/store.go:113-225 | inserting any number of polls anywhere in any run leaves the run possible and changes no other answer, with or without H4 |
| Transparency.StepSim | internal/flow/flow.go:127-205 | two worlds that differ only in what lazy expiry has written allow the same steps, give the same answers and stay so |
| Transparency.MergeAlike | internal/httpapi/service.go:300-303 | a callback's answer shows no more of the final view than an observer sees |
| Limits.ReturnsAgainIff | internal/session/store.go:163-179 | a granted claim takes a state to the SDK that has reached it before, for that session, if and only if the session no longer waits for the state the callback looked up |
| Limits.PairedIffCurrent | internal/session/store.go:163-179 | a granted claim pairs the SDK's last handle with its own state if and only if the session still holds the state the callback looked up |
| Limits.PollUnseenIff | internal/session/store.go:189-200 | under H1 and H2, when a call is about to index a state, the lookup of it right after is answered alike with and without a poll just before, if and only if the session is not due for expiry |
| Counterexamples.WithoutH4StateReachesSdkTwice | internal/flow/flow.go:262-279 | a concrete run under H1, H2 and H3 in which one state reaches the SDK twice, with two handles |
| Counterexamples.WithoutH4CompletedIsUndone | internal/flow/flow.go:159-160 | a concrete run under H1, H2 and H3 whose last step takes a completed journey back to authorizing with its PDF still stored, so that the result served before is refused |
| Counterexamples.MarkIsOvercome | internal/session/store.go:214-225 | a concrete run under H1 to H4 in which a poll marks a claimed session expired and the claim holder then completes it |
| Counterexamples.WithoutH1SessionIsDropped | internal/session/store.go:91-110 | a concrete run under H2, H3 and H4 in which a second journey with the id of the first drops a stored session before its deadline |
| Counterexamples.WithoutH3PollingIsVisible | internal/flow/flow.go:159-160 | two concrete runs that differ by one status poll, after which the same callback is refused in one and accepted in the other |
| Signature.ParseByteRange | e2e/blackbox_test.go:620-638 | the leftmost match, its four components and the cover check give the specified range or error |
| RangeSyntax.MatchIff | e2e/blackbox_test.go:36 | the pattern matches at a place, with these groups, if and only if a text of the grammar with these groups stands there |
| RangeSyntax.FindIff | e2e/blackbox_test.go:621-624 | the groups found are those of the leftmost range written in the PDF, and only those |
| RangeSyntax.WrittenRangeIsRead | e2e/blackbox_test.go:620-638 | the leftmost range written in the PDF is read as the four numbers its decimal digits denote: refused if one exceeds a 64-bit integer, accepted exactly if they start at 0 and cover the file but for one gap |
| RangeSyntax.PrintedRangeIsRead | e2e/blackbox_test.go:620-638 | four printed numbers with any white space the pattern allows, at the leftmost place where a range is written, are read as exactly those numbers, or refused for what they are |
| RangeSyntax.NoRangeIff | e2e/blackbox_test.go:621-624 | there is no range if and only if none is written anywhere in the PDF |
| Signature.RangePartitions | e2e/blackbox_test.go:633-637 | every accepted range gives two in-bounds, disjoint spans that with the gap between them are the whole PDF |
| Signature.Tamper | e2e/blackbox_test.go:350-367 | succeeds exactly when there is a range and a space in a signed span, and then the first such space, first span first, has become a line feed |
| Signature.TamperingIsDetectable | e2e/blackbox_test.go:350-367 | tampering keeps length, range, gap and extracted signature, changes exactly one byte, and the signed bytes differ |
| Signature.ParseSame | e2e/blackbox_test.go:36 | the range read does not depend on which white space stands where |
| Signature.DerLength | e2e/blackbox_test.go:663-688 | the fold over the length octets computes the big-endian length, with the same errors |
| Signature.DerRoundTrip | e2e/blackbox_test.go:663-688 | for every value with a one-byte tag and a definite length of at most four octets, whatever follows it, the length read is its own |
| HexSyntax.ExtractIff | e2e/blackbox_test.go:640-661 | `v` is extracted if and only if the gap is a hexadecimal text in angle brackets, each digit in either case, with spaces, tabs, line feeds and carriage returns anywhere, that prints one whole DER value `v` and any octets after it |
| HexSyntax.ExtractRoundTrip | e2e/blackbox_test.go:640-661 | one whole DER value and any octets after it, so printed, is extracted exactly |
| HexSyntax.WritesIff | e2e/blackbox_test.go:646-655 | a text decodes to a value if and only if it prints it |
| HexSyntax.TotalIff | e2e/blackbox_test.go:663-688 | the length read is `total` if and only if the first `total` octets are one tag, a definite length of one to five octets, and as many octets of contents as it says |
| HexSyntax.EncodedIsWhole | e2e/blackbox_test.go:663-688 | a value encoded with any definite length form of at most four octets is one whole value |
| HexSyntax.InsertBlank | e2e/blackbox_test.go:646-651 | white space inserted anywhere leaves the digits the same |
| Signature.ExtractedIsWhole | e2e/blackbox_test.go:656-660 | whatever is extracted is one whole value: the length it states is its own |

## Left out

- Runs.StepInv: assumes H4, which the code does not enforce; see "What does not hold" for the runs without it.
- Runs.StepLater: that settlements stay assumes H4; `Settlement.SettledForGoodIff` is the exact condition without it.
- Safety.OneActiveCall: assumes H4 from claim to return; from claim to release `Ledger.MutualExclusion` assumes nothing.
- Safety.HandlesAreLinear: assumes H4; `Limits.PairedIffCurrent` is the exact condition for a claim.
- Safety.OneEntrant: assumes H4; `Limits.ReturnsAgainIff` is the exact condition for a claim.
- Safety.CompletedMeansSigned: assumes H4 for "if there is a PDF then completed"; the other half is `Settlement.CompletedIsSigned`.
- Spending.OneShot: assumes H4; `Spending.ReturnsAreAccounted` is the count without it.
- Views.ViewByPhase: assumes H4; without it `Counterexamples.WithoutH4CompletedIsUndone` contradicts it.
- Views.ViewsNeverGoBack: assumes H4, likewise.
- Views.StepFreezes: assumes H4; `Settlement.StatusTakenAwayIff` and `Settlement.SettledForGoodIff` are exact without it.
- HexSyntax.ExtractIff: Go's `int` does not overflow here on 64-bit targets, so lengths are unbounded integers; 32-bit targets are not modelled.
- The mutex itself: each store method is one atomic step because the mutex covers its whole body; data races inside one are not modelled. `Update` is modelled by the three mutations the engine passes to it.
- Slice aliasing: handles, PDFs and evidence are values; that `ConsumeForResume` copies the handle is therefore not visible.
- Clock: every reading is a parameter of the call that makes it; in the interleaved layer it is a field of the world that ticks between steps.
- Identity of names: correlation ids are arbitrary non-empty strings, not 32 hexadecimal digits, and states are arbitrary strings; randomness is H1.
- internal/cleverbase: the SDK is abstract, with the replies it may give; `VerifyPDF` and `handleVerify` pass through to it.
- internal/upstream: the transport is an effect that may fail, and the rewriting of redirect URLs is an arbitrary function on strings. Cancellation by the request context is one way for an effect to fail.
- JSON: the encoder of evidence is a function that may refuse; request decoding, body caps, base64, response headers, URL query encoding and logging are library behaviour.
- internal/config and internal/httpapi/auth.go: validation and gate branches before the protocol starts, among them `Options.Validate` and the checks of `handleStart` before `Begin`, and the rejection of `HEAD`.
- cmd/server: signal handling, timeouts and shutdown.
- The rest of the end-to-end driver: containers, OpenSSL, file modes and HTTP helpers.
- PDF structure beyond the byte range, CMS contents and cryptographic validity.
