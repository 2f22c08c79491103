/**
 Concrete runs in which the code does not keep what is proved of it under more hypotheses. One journey,
 id "j", lifetime 1000; the SDK answers the start with a redirect for state "a".
 */
module Counterexamples {
  import opened Basics
  import opened Steps
  import opened SessionStore
  import opened HttpApi
  import opened Protocol
  import opened Executions
  import opened Effects
  import opened Ledger
  import opened Settlement
  import opened Spending
  import opened Scenes

  const ID := "j"
  const A := "a"
  const B := "b"

  ghost function Settings(): Config {
    Config(v => None, u => u, 1000)
  }

  function RedirectStep(url: string, state: string): Step {
    map["kind" := Text("redirect"), "url" := Text(url), "state" := Text(state)]
  }

  function DoneStep(pdf: Bytes): Step {
    map["kind" := Text("done"), "signed" := Object(map["pdf" := Blob(pdf)])]
  }

  /** The SDK's reply to the start, a redirect for state "a"; and two it may give to the first return: a
      redirect for state "b", or the signed document. Any such replies will do. */
  ghost function First(): (res: StepResult)
    ensures Decide(Settings(), res) == Index("u", A) && res.handle == [1]
  {
    var given := StepResult([1], RedirectStep("u", A));
    assert Decide(Settings(), given) == Index("u", A) && given.handle == [1];
    var res: StepResult :| Decide(Settings(), res) == Index("u", A) && res.handle == [1];
    res
  }

  ghost function Second(): (res: StepResult)
    ensures Decide(Settings(), res) == Index("v", B) && res.handle == [2]
  {
    var given := StepResult([2], RedirectStep("v", B));
    assert Decide(Settings(), given) == Index("v", B) && given.handle == [2];
    var res: StepResult :| Decide(Settings(), res) == Index("v", B) && res.handle == [2];
    res
  }

  ghost function Last(): (res: StepResult)
    ensures Decide(Settings(), res) == Finish([9], None) && res.handle == [3]
  {
    var given := StepResult([3], DoneStep([9]));
    assert Decide(Settings(), given) == Finish([9], None) && given.handle == [3];
    var res: StepResult :| Decide(Settings(), res) == Finish([9], None) && res.handle == [3];
    res
  }

  lemma StatesDiffer()
    ensures A != B
  {
    assert A[0] != B[0];
  }

  ghost const START := BeginCall(Stepped(First()))
  ghost const STARTING := Start(0, 0, ID, "c", "B-B", Stepped(First()))
  const CALLBACK_A := Request(true, "code", "", A)
  const CALLBACK_B := Request(true, "code", "", B)

  function Returned(handle: Bytes, state: string, out: SdkReply): Call {
    RedirectCall(handle, false, "code", state, out)
  }

  function Rec(state: string, handle: Bytes, resuming: bool): Record {
    Record(ID, state, "c", handle, Authorizing, "", "B-B", [], None, 0, 1000, resuming)
  }

  // --- The start ------------------------------------------------------------------------

  /** The journey has started and its redirect URL is with the browser. */
  ghost function Waits(): Scene {
    Scene(Settings(), 0, Rec(A, [1], false), map[], Hist(ID, [START], None, None, 0, 0), map[A := 0], {A})
  }

  lemma Journey() returns (run: seq<Action>)
    ensures Stage(run, Waits(), ALL)
  {
    Opens(Settings(), STARTING, ALL);
    run := [STARTING] + [Advance(0, Clock(0))];
    HandleIsWritten(run);
    run := run + [Advance(0, Idle)];
    Begins(run, Handled(), 0, ALL);
    run := run + [Advance(0, Idle)];
    assert Handled().threads - {0} == map[];
  }

  lemma HandleIsWritten(run: seq<Action>)
    requires Stage(run, Opened(Settings(), STARTING), ALL)
    ensures Stage(run + [Advance(0, Idle)], Handled(), ALL)
  {
    var s := Opened(Settings(), STARTING);
    GoesOn(run, s, 0, Idle, ALL);
    assert s.threads[0 := Begun(0, "u", A)] == map[0 := Begun(0, "u", A)];
  }

  ghost function Handled(): Scene {
    Waits().(threads := map[0 := Begun(0, "u", A)], h := Hist(ID, [START], None, Some(0), 0, 0), published := {})
  }

  // --- Two callbacks with one state ---------------------------------------------------------

  /** The first callback has been driven to the next redirect and has released the claim; its status write
      is still to come. The second has looked the session up by the old state. */
  ghost function Overtaken(): Scene {
    Scene(Settings(), 0, Rec(B, [2], false),
          map[1 := Indexed(0, CALLBACK_A, "v", B), 2 := Found(0, CALLBACK_A)],
          Hist(ID, [START, Returned([1], A, Stepped(Second()))], None, Some(1), 1, 1), map[A := 0, B := 0], {A})
  }

  ghost function BothFound(): Scene {
    Waits().(threads := map[1 := Found(0, CALLBACK_A), 2 := Found(0, CALLBACK_A)])
  }

  lemma BothLookUp() returns (run: seq<Action>)
    ensures Stage(run, BothFound(), ALL)
  {
    StatesDiffer();
    run := Journey();
    LookedUp(run, Waits(), 1, CALLBACK_A, ALL);
    run := run + [Callback(1, CALLBACK_A)];
    var s := Waits().(threads := Waits().threads[1 := Found(0, CALLBACK_A)]);
    LookedUp(run, s, 2, CALLBACK_A, ALL);
    run := run + [Callback(2, CALLBACK_A)];
    assert s.threads[2 := Found(0, CALLBACK_A)] == BothFound().threads;
  }

  /** Thread 1 has claimed the journey and told the SDK, and has written the handle of its reply. */
  ghost function Planning(threads: map<Tid, Thread>, res: StepResult, issued: map<string, Ref>): Scene
    requires 1 in threads
  {
    Scene(Settings(), 0, Rec("", res.handle, true), threads[1 := Planned(0, CALLBACK_A, res.handle, Decide(Settings(), res))],
          Hist(ID, [START, Returned([1], A, Stepped(res))], None, Some(1), 1, 0), issued, {A})
  }

  ghost function Told(threads: map<Tid, Thread>, res: StepResult, issued: map<string, Ref>): Scene
    requires 1 in threads
  {
    Planning(threads, res, issued).(rec := Rec("", [1], true), threads := threads[1 := Got(0, CALLBACK_A, res)])
  }

  /** What the SDK's reply adds to the states issued. */
  ghost function IssuedBy(res: StepResult): map<string, Ref> {
    var emitted := Emits(Settings(), Stepped(res));
    if emitted.Some? then map[A := 0][emitted.value := 0] else map[A := 0]
  }

  /** The first callback claims; whoever else has looked up the state stays where it is. */
  lemma FirstClaims(run: seq<Action>, threads: map<Tid, Thread>)
    requires 1 in threads && threads[1] == Found(0, CALLBACK_A) && Stage(run, Waits().(threads := threads), ALL)
    ensures Stage(run + [Advance(1, Idle)], Claiming(threads), ALL)
  {
    Takes(run, Waits().(threads := threads), 1, ALL);
  }

  ghost function Claiming(threads: map<Tid, Thread>): Scene
    requires 1 in threads
  {
    Waits().(rec := Rec("", [1], true), threads := threads[1 := Claimed(0, CALLBACK_A, [1])], h := Hist(ID, [START], None, Some(1), 1, 0))
  }

  lemma FirstIsTold(run: seq<Action>, threads: map<Tid, Thread>, res: StepResult)
    requires 1 in threads && Stage(run, Claiming(threads), ALL)
    requires Emits(Settings(), Stepped(res)).Some? ==> Emits(Settings(), Stepped(res)).value != A
    ensures Stage(run + [Advance(1, Sdk(Stepped(res)))], Told(threads, res, IssuedBy(res)), ALL)
  {
    var s := Claiming(threads);
    GoesOn(run, s, 1, Sdk(Stepped(res)), ALL);
    assert [START] + [Returned([1], A, Stepped(res))] == [START, Returned([1], A, Stepped(res))];
    assert s.threads[1 := Got(0, CALLBACK_A, res)] == threads[1 := Got(0, CALLBACK_A, res)];
  }

  lemma FirstPlans(run: seq<Action>, threads: map<Tid, Thread>, res: StepResult, issued: map<string, Ref>)
    requires 1 in threads && Stage(run, Told(threads, res, issued), ALL)
    ensures Stage(run + [Advance(1, Idle)], Planning(threads, res, issued), ALL)
  {
    var s := Told(threads, res, issued);
    GoesOn(run, s, 1, Idle, ALL);
    var th := Planned(0, CALLBACK_A, res.handle, Decide(Settings(), res));
    assert s.threads[1 := th] == threads[1 := th];
  }

  lemma FirstReachesPlan(run: seq<Action>, threads: map<Tid, Thread>, res: StepResult) returns (run': seq<Action>)
    requires 1 in threads && threads[1] == Found(0, CALLBACK_A) && Stage(run, Waits().(threads := threads), ALL)
    requires Emits(Settings(), Stepped(res)).Some? ==> Emits(Settings(), Stepped(res)).value != A
    ensures Stage(run', Planning(threads, res, IssuedBy(res)), ALL)
  {
    FirstClaims(run, threads);
    FirstIsTold(run + [Advance(1, Idle)], threads, res);
    run' := run + [Advance(1, Idle)] + [Advance(1, Sdk(Stepped(res)))];
    FirstPlans(run', threads, res, IssuedBy(res));
    run' := run' + [Advance(1, Idle)];
  }

  /** The first callback has indexed the next state and released the claim. */
  ghost function Indexing(threads: map<Tid, Thread>): Scene
    requires 1 in threads
  {
    Scene(Settings(), 0, Rec(B, [2], false), threads[1 := Indexed(0, CALLBACK_A, "v", B)],
          Hist(ID, [START, Returned([1], A, Stepped(Second()))], None, Some(1), 1, 1), IssuedBy(Second()), {A})
  }

  lemma FirstIndexes(run: seq<Action>, threads: map<Tid, Thread>)
    requires 1 in threads && Stage(run, Planning(threads, Second(), IssuedBy(Second())), ALL)
    ensures Stage(run + [Advance(1, Idle)], Indexing(threads), ALL)
  {
    GoesOn(run, Planning(threads, Second(), IssuedBy(Second())), 1, Idle, ALL);
    IndexingIsNext(threads);
  }

  lemma IndexingIsNext(threads: map<Tid, Thread>)
    requires 1 in threads
    ensures GoneOn(Planning(threads, Second(), IssuedBy(Second())), 1, Idle) == Indexing(threads)
  {
    var s := Planning(threads, Second(), IssuedBy(Second()));
    assert s.threads[1 := Indexed(0, CALLBACK_A, "v", B)] == threads[1 := Indexed(0, CALLBACK_A, "v", B)];
  }

  lemma FirstOvertakes() returns (run: seq<Action>)
    ensures Stage(run, Overtaken(), ALL)
  {
    StatesDiffer();
    run := BothLookUp();
    run := FirstReachesPlan(run, BothFound().threads, Second());
    FirstIndexes(run, BothFound().threads);
    run := run + [Advance(1, Idle)];
    assert Indexing(BothFound().threads).threads == Overtaken().threads;
  }

  /** The late callback has claimed the session although it now waits for another state: H4 would forbid
      it. */
  ghost function Late(): Scene {
    Overtaken().(rec := Rec("", [2], true), threads := map[1 := Indexed(0, CALLBACK_A, "v", B), 2 := Claimed(0, CALLBACK_A, [2])],
                 h := Hist(ID, [START, Returned([1], A, Stepped(Second()))], None, Some(2), 2, 1))
  }

  lemma LateClaims() returns (run: seq<Action>)
    ensures Stage(run, Late(), H1_H2_H3)
  {
    StatesDiffer();
    run := FirstOvertakes();
    StageUnderFewer(run, Overtaken(), ALL, H1_H2_H3);
    Takes(run, Overtaken(), 2, H1_H2_H3);
    run := run + [Advance(2, Idle)];
    assert Taken(Overtaken(), 2).threads == Late().threads;
  }

  /** The late callback has told the SDK, which replied `out`. */
  ghost function ToldLate(out: SdkReply): Scene {
    var calls := [START, Returned([1], A, Stepped(Second())), Returned([2], A, out)];
    Late().(threads := map[1 := Indexed(0, CALLBACK_A, "v", B), 2 := AfterSdk(0, CALLBACK_A, [2], out)],
            h := Hist(ID, calls, None, Some(2), 2, 1))
  }

  lemma LateIsTold(out: SdkReply) returns (run: seq<Action>)
    requires Emits(Settings(), out) == None
    ensures Stage(run, ToldLate(out), H1_H2_H3)
  {
    run := LateClaims();
    GoesOn(run, Late(), 2, Sdk(out), H1_H2_H3);
    run := run + [Advance(2, Sdk(out))];
    var s := GoneOn(Late(), 2, Sdk(out));
    assert s.h.calls == ToldLate(out).h.calls;
    assert s.threads == ToldLate(out).threads;
  }

  /** Without H4 the states are not one-shot: under H1, H2 and H3 alone, two callbacks that both looked
      up state "a" before either claimed can both take it to the SDK, the second one with a handle
      that was emitted with another state. */
  lemma WithoutH4StateReachesSdkTwice()
    ensures exists run: seq<Action>, w: World ::
              && Leads(Nothing(Settings()), run, w, H1_H2_H3)
              && IsReturnOf(w, 0, 1, A) && IsReturnOf(w, 0, 2, A)
              && w.hist[0].calls[1].handle != w.hist[0].calls[2].handle
  {
    var run := LateIsTold(SdkError);
    var w :| Leads(Nothing(Settings()), run, w, H1_H2_H3) && Shows(w, ToldLate(SdkError));
    assert IsReturnOf(w, 0, 1, A) && IsReturnOf(w, 0, 2, A);
  }

  // --- A completed journey undone -------------------------------------------------------------

  /** The late callback has completed the journey: its document is stored. */
  ghost function LateCompleted(): Scene {
    ToldLate(Stepped(Last())).(
      rec := Rec("", [], false).(status := Completed, resultPDF := [9]),
      threads := map[1 := Indexed(0, CALLBACK_A, "v", B), 2 := Driven(0, CALLBACK_A, Outcome(Some(Completed), "", "", None), true, None)],
      h := Hist(ID, ToldLate(Stepped(Last())).h.calls, Some(Settlement(Completed, "", [9], None)), Some(2), 2, 2))
  }

  /** Three steps of one call: the handle write, the terminal write, the release. */
  lemma Completes(run: seq<Action>, s: Scene, t: Tid, assumed: Assumed)
    requires Stage(run, s, assumed) && s.cfg == Settings() && t in s.threads && s.threads[t] == Got(0, CALLBACK_A, Last())
    ensures Stage(run + [Advance(t, Idle)] + [Advance(t, Idle)] + [Advance(t, Idle)], Finished(s, t), assumed)
  {
    Plans(run, s, t, assumed);
    Settles(run + [Advance(t, Idle)], s, t, assumed);
    Releases(run + [Advance(t, Idle)] + [Advance(t, Idle)], s, t, assumed);
  }

  ghost function Kept(s: Scene, t: Tid): Scene {
    s.(rec := WithHandle(s.rec, [3]), threads := s.threads[t := Planned(0, CALLBACK_A, [3], Finish([9], None))])
  }

  lemma Plans(run: seq<Action>, s: Scene, t: Tid, assumed: Assumed)
    requires Stage(run, s, assumed) && s.cfg == Settings() && t in s.threads && s.threads[t] == Got(0, CALLBACK_A, Last())
    ensures Stage(run + [Advance(t, Idle)], Kept(s, t), assumed)
  {
    StatesDiffer();
    GoesOn(run, s, t, Idle, assumed);
  }

  ghost function Ended(s: Scene, t: Tid): Scene {
    s.(rec := s.rec.(status := Completed, resultPDF := [9], evidence := None, handle := [3]),
       threads := s.threads[t := Finalizing(0, CALLBACK_A, Outcome(Some(Completed), "", "", None))],
       h := s.h.(settled := Some(Settlement(Completed, "", [9], None))))
  }

  lemma Settles(run: seq<Action>, s: Scene, t: Tid, assumed: Assumed)
    requires Stage(run, Kept(s, t), assumed)
    ensures Stage(run + [Advance(t, Idle)], Ended(s, t), assumed)
  {
    GoesOn(run, Kept(s, t), t, Idle, assumed);
    EndedIsNext(s, t);
  }

  lemma EndedIsNext(s: Scene, t: Tid)
    ensures GoneOn(Kept(s, t), t, Idle) == Ended(s, t)
  {
    assert Ended(s, t).threads == GoneOn(Kept(s, t), t, Idle).threads;
  }

  lemma Releases(run: seq<Action>, s: Scene, t: Tid, assumed: Assumed)
    requires Stage(run, Ended(s, t), assumed)
    ensures Stage(run + [Advance(t, Idle)], Finished(s, t), assumed)
  {
    GoesOn(run, Ended(s, t), t, Idle, assumed);
    FinishedIsNext(s, t);
  }

  lemma FinishedIsNext(s: Scene, t: Tid)
    ensures GoneOn(Ended(s, t), t, Idle) == Finished(s, t)
  {
    assert Finished(s, t).threads == GoneOn(Ended(s, t), t, Idle).threads;
  }

  ghost function Finished(s: Scene, t: Tid): Scene {
    s.(rec := s.rec.(status := Completed, resultPDF := [9], evidence := None, oauthState := "", handle := [], resuming := false),
       threads := s.threads[t := Driven(0, CALLBACK_A, Outcome(Some(Completed), "", "", None), true, None)],
       h := s.h.(settled := Some(Settlement(Completed, "", [9], None)), releases := s.h.releases + 1))
  }

  lemma LateCompletes() returns (run: seq<Action>)
    ensures Stage(run, LateCompleted(), H1_H2_H3)
  {
    StatesDiffer();
    run := LateIsTold(Stepped(Last()));
    var s := ToldLate(Stepped(Last()));
    Completes(run, s, 2, H1_H2_H3);
    run := run + [Advance(2, Idle)] + [Advance(2, Idle)] + [Advance(2, Idle)];
    assert Finished(s, 2).threads == LateCompleted().threads;
  }

  /** Without H4 a completed journey can be undone: under H1, H2 and H3 alone, the status write of the
      callback that was overtaken puts the journey back to authorizing, its document still stored, and the
      result that was being served is refused. */
  lemma WithoutH4CompletedIsUndone()
    ensures exists run: seq<Action>, w: World ::
              && Leads(Nothing(Settings()), run, w, H1_H2_H3) && CanStep(w, Advance(1, Idle), H1_H2_H3)
              && 0 in w.store.heap && AtRest(w, 0) && PendingWrite(w, 0, 1)
              && ResultAnswer(ViewByID(w.store, ID, w.now).1) == SignedDocument([9], None)
              && var w' := Apply(w, Advance(1, Idle)).0;
                 && Linked(w') && 0 in w'.store.heap
                 && w'.store.heap[0].status == Authorizing && w'.store.heap[0].resultPDF == [9]
                 && ResultAnswer(ViewByID(w'.store, ID, w'.now).1) == NotCompleted
  {
    var run := LateCompletes();
    var w :| Leads(Nothing(Settings()), run, w, H1_H2_H3) && Shows(w, LateCompleted());
    ServesDocument(w);
    WriteIsPending(w);
    Undone(w);
  }

  lemma ServesDocument(w: World)
    requires Shows(w, LateCompleted())
    ensures ResultAnswer(ViewByID(w.store, ID, w.now).1) == SignedDocument([9], None)
  {
  }

  lemma WriteIsPending(w: World)
    requires Shows(w, LateCompleted())
    ensures AtRest(w, 0) && PendingWrite(w, 0, 1)
  {
    var threads := LateCompleted().threads;
    assert forall t | t in threads :: t == 1 || t == 2;
  }

  lemma Undone(w: World)
    requires Shows(w, LateCompleted())
    ensures CanStep(w, Advance(1, Idle), H1_H2_H3)
    ensures var w' := Apply(w, Advance(1, Idle)).0;
            && Linked(w') && 0 in w'.store.heap
            && w'.store.heap[0].status == Authorizing && w'.store.heap[0].resultPDF == [9]
            && ResultAnswer(ViewByID(w'.store, ID, w'.now).1) == NotCompleted
  {
    MayGoOn(w, LateCompleted(), 1, H1_H2_H3);
    NotServed(DoAdvance(w, 1, Idle).0, GoneOn(LateCompleted(), 1, Idle));
  }

  lemma NotServed(w: World, s: Scene)
    requires Shows(w, s) && s.rec.status == Authorizing && s.rec.correlationID == ID
    ensures ResultAnswer(ViewByID(w.store, ID, w.now).1) == NotCompleted
  {
  }

  // --- Polls and the deadline -------------------------------------------------------------------

  lemma OneLooksUp() returns (run: seq<Action>)
    ensures Stage(run, Waits().(threads := map[1 := Found(0, CALLBACK_A)]), ALL)
  {
    StatesDiffer();
    run := Journey();
    LookedUp(run, Waits(), 1, CALLBACK_A, ALL);
    run := run + [Callback(1, CALLBACK_A)];
    assert Waits().threads[1 := Found(0, CALLBACK_A)] == map[1 := Found(0, CALLBACK_A)];
  }

  const ALONE: map<Tid, Thread> := map[1 := Found(0, CALLBACK_A)]

  /** One callback has written the handle of the reply `res`; the deadline has passed since. */
  ghost function Overdue(res: StepResult): Scene {
    Planning(ALONE, res, IssuedBy(res)).(now := 1001)
  }

  lemma DeadlinePasses(res: StepResult) returns (run: seq<Action>)
    requires Emits(Settings(), Stepped(res)).Some? ==> Emits(Settings(), Stepped(res)).value != A
    ensures Stage(run, Overdue(res), ALL)
  {
    run := OneLooksUp();
    run := FirstReachesPlan(run, ALONE, res);
    Ticked(run, Planning(ALONE, res, IssuedBy(res)), 1001, ALL);
    run := run + [Tick(1001)];
  }

  /** A marked session overcome: under H1-H4, a poll marks the session failed while its drive is in
      flight, and the drive, which asks nobody, completes it all the same. */
  lemma MarkIsOvercome()
    ensures exists run: seq<Action>, w: World ::
              && Leads(Nothing(Settings()), run, w, ALL) && CanStep(w, Advance(1, Idle), ALL)
              && 0 in w.store.heap && w.store.heap[0].status == Failed && w.store.heap[0].reason == "session_expired"
              && var w' := Apply(w, Advance(1, Idle)).0;
                 0 in w'.store.heap && w'.store.heap[0].status == Completed && w'.store.heap[0].resultPDF == [9]
  {
    var run := DeadlinePasses(Last());
    IsPolled(run, Overdue(Last()), StatusPoll, ALL);
    MarkedNow();
    run := run + [Poll(ID, StatusPoll)];
    var w :| Leads(Nothing(Settings()), run, w, ALL) && Shows(w, Marked());
    Overcomes(w);
  }

  /** The journey has been marked failed; thread 1 is about to complete it. */
  ghost function Marked(): Scene {
    Scene(Settings(), 1001, Rec("", [], true).(status := Failed, reason := REASON_EXPIRED),
          map[1 := Planned(0, CALLBACK_A, [3], Finish([9], None))],
          Hist(ID, [START, Returned([1], A, Stepped(Last()))], None, Some(1), 1, 0), map[A := 0], {A})
  }

  lemma MarkedNow()
    ensures LookedAt(Overdue(Last())) == Marked()
  {
  }

  lemma Overcomes(w: World)
    requires Shows(w, Marked())
    ensures CanStep(w, Advance(1, Idle), ALL)
    ensures var w' := Apply(w, Advance(1, Idle)).0;
            0 in w'.store.heap && w'.store.heap[0].status == Completed && w'.store.heap[0].resultPDF == [9]
  {
    MayGoOn(w, Marked(), 1, ALL);
  }

  /** `SetState` after the deadline, when nobody has looked at the session since, and when a poll has. */
  ghost function Unpolled(): Scene {
    GoneOn(Overdue(Second()).(threads := PLANNED), 1, Idle)
  }

  ghost function PolledFirst(): Scene {
    GoneOn(LookedAt(Overdue(Second())).(threads := PLANNED), 1, Idle)
  }

  const PLANNED: map<Tid, Thread> := map[1 := Planned(0, CALLBACK_A, [2], Index("v", B))]

  /** Without H3 polling is visible: under H1, H2 and H4 alone, a callback that brings a state back
      before the call that issued it has returned is refused as unknown after one run, and accepted
      after the same run with one status poll inserted. */
  lemma WithoutH3PollingIsVisible()
    ensures exists run: seq<Action>, step: Action, poll: Action, w: World, v: World ::
              && poll.Poll?
              && Leads(Nothing(Settings()), run + [step], w, ALL)
              && Leads(Nothing(Settings()), run + [poll] + [step], v, ALL)
              && CanStep(w, Callback(2, CALLBACK_B), H1_H2_H4) && CanStep(v, Callback(2, CALLBACK_B), H1_H2_H4)
              && Apply(w, Callback(2, CALLBACK_B)).1 == Some(UnknownState)
              && Apply(v, Callback(2, CALLBACK_B)).1 == None
  {
    StatesDiffer();
    var run := DeadlinePasses(Second());
    var step, poll := Advance(1, Idle), Poll(ID, StatusPoll);
    IndexedLate(run);
    IndexedMarked(run);
    var w :| Leads(Nothing(Settings()), run + [step], w, ALL) && Shows(w, Unpolled());
    var v :| Leads(Nothing(Settings()), run + [poll] + [step], v, ALL) && Shows(v, PolledFirst());
    RefusedUnpolled(run + [step], w);
    FoundPolled(run + [poll] + [step], v);
  }

  lemma IndexedLate(run: seq<Action>)
    requires Stage(run, Overdue(Second()), ALL)
    ensures Stage(run + [Advance(1, Idle)], Unpolled(), ALL)
  {
    assert Overdue(Second()).threads == PLANNED;
    GoesOn(run, Overdue(Second()), 1, Idle, ALL);
  }

  lemma IndexedMarked(run: seq<Action>)
    requires Stage(run, Overdue(Second()), ALL)
    ensures Stage(run + [Poll(ID, StatusPoll)] + [Advance(1, Idle)], PolledFirst(), ALL)
  {
    assert Overdue(Second()).threads == PLANNED;
    IsPolled(run, Overdue(Second()), StatusPoll, ALL);
    GoesOn(run + [Poll(ID, StatusPoll)], LookedAt(Overdue(Second())), 1, Idle, ALL);
  }

  lemma MayCall(w: World, s: Scene, t: Tid, req: Request)
    requires Shows(w, s) && t !in s.threads
    ensures CanStep(w, Callback(t, req), H1_H2_H4) && Apply(w, Callback(t, req)).1 == DoLookup(w, t, req).1
  {
  }

  lemma RefusedUnpolled(run: seq<Action>, w: World)
    requires Leads(Nothing(Settings()), run, w, ALL) && Shows(w, Unpolled())
    ensures CanStep(w, Callback(2, CALLBACK_B), H1_H2_H4) && Apply(w, Callback(2, CALLBACK_B)).1 == Some(UnknownState)
  {
    MayCall(w, Unpolled(), 2, CALLBACK_B);
    Misses(run, w, Unpolled(), 2, CALLBACK_B, ALL);
  }

  lemma FoundPolled(run: seq<Action>, w: World)
    requires Leads(Nothing(Settings()), run, w, ALL) && Shows(w, PolledFirst())
    ensures CanStep(w, Callback(2, CALLBACK_B), H1_H2_H4) && Apply(w, Callback(2, CALLBACK_B)).1 == None
  {
    MayCall(w, PolledFirst(), 2, CALLBACK_B);
    OrderlyLooksUp(run, w, PolledFirst(), 2, CALLBACK_B, ALL);
  }

  // --- A name issued twice -----------------------------------------------------------------------

  ghost const AGAIN := Start(1, 1, ID, "d", "B-B", Stepped(Second()))

  /** Without H1 `New` drops a session at once: under H2, H3 and H4 alone, a second journey with the same
      correlation id takes the place of the first in the store, long before its deadline. */
  lemma WithoutH1SessionIsDropped()
    ensures exists run: seq<Action>, w: World ::
              && Leads(Nothing(Settings()), run, w, H2_H3_H4) && CanStep(w, Advance(1, Clock(0)), H2_H3_H4)
              && 0 in w.store.heap && Stored(w.store, 0)
              && var w' := Apply(w, Advance(1, Clock(0))).0;
                 0 in w'.store.heap && !Stored(w'.store, 0) && w'.now <= w'.store.heap[0].expiresAt
  {
    var run, w := SecondIsAsked();
    Replaces(w);
  }

  /** The second journey has been asked for, with the id of the first. */
  lemma SecondIsAsked() returns (run: seq<Action>, w: World)
    ensures Leads(Nothing(Settings()), run, w, H2_H3_H4) && Twin(w)
  {
    Opens(Settings(), STARTING, H2_H3_H4);
    run := [STARTING] + [Advance(0, Clock(0))];
    var w0 :| Leads(Nothing(Settings()), run, w0, H2_H3_H4) && Shows(w0, Opened(Settings(), STARTING));
    StartsAgain(w0);
    OneMore(Nothing(Settings()), run, w0, AGAIN, H2_H3_H4);
    run, w := run + [AGAIN], Apply(w0, AGAIN).0;
  }

  ghost predicate Twin(w: World) {
    && Linked(w) && w.now == 0 && w.cfg == Settings()
    && 1 in w.threads && w.threads[1].Starting? && w.threads[1].r == 1 && 1 in w.hist && w.hist[1].id == ID
    && w.store.byID == map[ID := 0] && w.store.heap == map[0 := Opened(Settings(), STARTING).rec]
  }

  lemma StartsAgain(w: World)
    requires Shows(w, Opened(Settings(), STARTING))
    ensures CanStep(w, AGAIN, H2_H3_H4) && Twin(Apply(w, AGAIN).0)
  {
    TwinIsBorn(w);
  }

  lemma TwinIsBorn(w: World)
    requires Shows(w, Opened(Settings(), STARTING))
    ensures Twin(DoStart(w, 1, 1, ID, "d", "B-B", Stepped(Second())).0)
  {
  }

  lemma Replaces(w: World)
    requires Twin(w)
    ensures CanStep(w, Advance(1, Clock(0)), H2_H3_H4) && 0 in w.store.heap && Stored(w.store, 0)
    ensures var w' := Apply(w, Advance(1, Clock(0))).0;
            0 in w'.store.heap && !Stored(w'.store, 0) && w'.now <= w'.store.heap[0].expiresAt
  {
  }
}
