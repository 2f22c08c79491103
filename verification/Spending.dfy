/**
 How often an OAuth state can reach the SDK, under H1 alone: once, and once more for every claim that is
 granted to a callback whose state its session no longer waits for.
 */
module Spending {
  import opened Basics
  import opened Steps
  import opened SessionStore
  import opened HttpApi
  import opened Protocol
  import opened Executions
  import opened Effects
  import opened Ledger
  import opened Custody

  // --- Names -------------------------------------------------------------------------------

  /** The state a call has been given and has not indexed yet. */
  ghost function Unindexed(cfg: Config, th: Thread): Option<string> {
    match th
    case Starting(_, _, _, _, _, state) => Some(state)
    case Got(_, _, res) => Emits(cfg, Stepped(res))
    case Planned(_, _, _, plan) => if plan.Index? then Some(plan.state) else None
    case _ => None
  }

  /** The state of a callback that has looked its session up and has not told the SDK yet. */
  function Asks(th: Thread): Option<string> {
    if th.Found? || th.Claimed? then Some(th.req.state) else None
  }

  /** States are on record for the session they were issued to, wherever they are. */
  ghost predicate ThreadNamed(w: World, t: Tid)
    requires t in w.threads
  {
    var th := w.threads[t];
    && (Unindexed(w.cfg, th).Some? ==> IssuedTo(w.issued, Unindexed(w.cfg, th).value, th.r))
    && (Asks(th).Some? ==> Asks(th).value != "" && IssuedTo(w.issued, Asks(th).value, th.r))
  }

  ghost predicate CallsNamed(issued: map<string, Ref>, r: Ref, calls: seq<Call>) {
    forall i | 0 <= i < |calls| && calls[i].RedirectCall? :: IssuedTo(issued, calls[i].state, r)
  }

  ghost predicate SessionNamed(w: World, r: Ref)
    requires r in w.hist
  {
    && CallsNamed(w.issued, r, w.hist[r].calls)
    && (r in w.store.heap ==>
          var rec := w.store.heap[r];
          && rec.correlationID == w.hist[r].id
          && (rec.oauthState != "" ==>
                IssuedTo(w.issued, rec.oauthState, r) && forall t :: !WillIndex(w, t, rec.oauthState)))
  }

  ghost predicate WillIndex(w: World, t: Tid, state: string) {
    t in w.threads && Unindexed(w.cfg, w.threads[t]) == Some(state)
  }

  ghost predicate IndexNamed(w: World, state: string)
    requires state in w.store.byState
  {
    && state in w.issued && w.issued[state] in w.hist
    && w.store.byState[state] == w.hist[w.issued[state]].id
  }

  ghost predicate IdNamed(w: World, id: string)
    requires id in w.store.byID
  {
    w.store.byID[id] in w.hist && w.hist[w.store.byID[id]].id == id
  }

  ghost predicate IdsApart(w: World) {
    forall r | r in w.hist :: w.hist[r].id in w.ids && w.ids[w.hist[r].id] == r
  }

  ghost predicate EmittedAt(cfg: Config, calls: seq<Call>, i: int, state: string) {
    0 <= i < |calls| && Emits(cfg, calls[i].out) == Some(state)
  }

  ghost predicate EmittedIn(cfg: Config, calls: seq<Call>, state: string) {
    exists i :: EmittedAt(cfg, calls, i, state)
  }

  /** A state on record was emitted in the conversation of the session it was issued to. */
  ghost predicate IssuedHome(w: World, state: string)
    requires state in w.issued
  {
    w.issued[state] in w.hist && EmittedIn(w.cfg, w.hist[w.issued[state]].calls, state)
  }

  lemma StillEmitted(cfg: Config, calls: seq<Call>, calls': seq<Call>, state: string)
    requires calls <= calls' && EmittedIn(cfg, calls, state)
    ensures EmittedIn(cfg, calls', state)
  {
    var i :| EmittedAt(cfg, calls, i, state);
    assert EmittedAt(cfg, calls', i, state);
  }

  ghost predicate Named(w: World) {
    && Accounted(w) && IdsApart(w)
    && (forall x {:trigger IssuedHome(w, x)} | x in w.issued :: IssuedHome(w, x))
    && (forall id {:trigger IdNamed(w, id)} | id in w.store.byID :: IdNamed(w, id))
    && (forall x {:trigger IndexNamed(w, x)} | x in w.store.byState :: IndexNamed(w, x))
    && (forall t {:trigger ThreadNamed(w, t)} | t in w.threads :: ThreadNamed(w, t))
    && (forall r {:trigger SessionNamed(w, r)} | r in w.hist :: SessionNamed(w, r))
    && (forall t, u, x :: WillIndex(w, t, x) && WillIndex(w, u, x) ==> t == u)
  }

  /** A lookup finds the session its state was issued to. */
  lemma LookupNamed(w: World, state: string)
    requires Named(w) && GetByState(w.store, state, w.now).1.Some?
    ensures IssuedTo(w.issued, state, GetByState(w.store, state, w.now).1.value)
  {
    assert IndexNamed(w, state);
    assert IdNamed(w, w.store.byState[state]);
  }

  // --- Steps that touch one session and one thread ------------------------------------------

  /** What a step may do to the names. */
  ghost predicate NamesMove(w: World, w': World, r: Ref, t: Tid)
    requires r in w.store.heap && r in w'.store.heap && r in w.hist && r in w'.hist
  {
    var x' := w'.store.heap[r].oauthState;
    && (t in w.threads ==> w.threads[t].r == r)
    && w'.hist[r].id == w.hist[r].id && w'.store.heap[r].correlationID == w.store.heap[r].correlationID
    && (forall x | x in w'.store.byState ::
          (x in w.store.byState && w'.store.byState[x] == w.store.byState[x])
          || (IssuedTo(w'.issued, x, r) && w'.store.byState[x] == w.hist[r].id))
    && CallsNamed(w'.issued, r, w'.hist[r].calls)
    && w.hist[r].calls <= w'.hist[r].calls
    && (forall x | x in w'.issued :: x in w.issued || (w'.issued[x] == r && EmittedIn(w.cfg, w'.hist[r].calls, x)))
    && (x' == "" || x' == w.store.heap[r].oauthState || WillIndex(w, t, x'))
    && (forall x :: WillIndex(w', t, x) ==> x != x' && (WillIndex(w, t, x) || x !in w.issued))
  }

  lemma OtherThreadNamed(w: World, w': World, r: Ref, t: Tid, u: Tid)
    requires Named(w) && Local(w, w', r, t) && u in w'.threads && u != t
    ensures ThreadNamed(w', u)
  {
    assert ThreadNamed(w, u);
  }

  lemma OtherSessionNamed(w: World, w': World, r: Ref, t: Tid, r': Ref)
    requires Named(w) && Local(w, w', r, t) && r' in w.hist && r' != r && r in w.hist && r in w.store.heap && NamesMove(w, w', r, t)
    ensures SessionNamed(w', r')
  {
    assert SessionNamed(w, r');
    if r' in w.store.heap && w.store.heap[r'].oauthState != "" {
      forall u ensures !WillIndex(w', u, w.store.heap[r'].oauthState) {
        assert !WillIndex(w, u, w.store.heap[r'].oauthState);
      }
    }
  }

  lemma OwnSessionNamed(w: World, w': World, r: Ref, t: Tid)
    requires Named(w) && Local(w, w', r, t) && r in w.hist && r in w.store.heap && NamesMove(w, w', r, t)
    ensures SessionNamed(w', r)
  {
    assert SessionNamed(w, r);
    var x' := w'.store.heap[r].oauthState;
    if x' != "" {
      if x' != w.store.heap[r].oauthState { assert ThreadNamed(w, t); }
      forall u ensures !WillIndex(w', u, x') {
        if u != t { assert WillIndex(w', u, x') ==> WillIndex(w, u, x'); }
      }
    }
  }

  lemma IndexStaysNamed(w: World, w': World, r: Ref, t: Tid, x: string)
    requires Named(w) && Local(w, w', r, t) && r in w.hist && r in w.store.heap && NamesMove(w, w', r, t) && x in w'.store.byState
    ensures IndexNamed(w', x)
  {
    if x in w.store.byState { assert IndexNamed(w, x); }
  }

  lemma IssuedStaysHome(w: World, w': World, r: Ref, t: Tid, x: string)
    requires Named(w) && Local(w, w', r, t) && r in w.hist && r in w.store.heap && NamesMove(w, w', r, t) && x in w'.issued
    ensures IssuedHome(w', x)
  {
    if x in w.issued {
      assert IssuedHome(w, x);
      if w.issued[x] == r { StillEmitted(w.cfg, w.hist[r].calls, w'.hist[r].calls, x); }
    }
  }

  lemma IdStaysNamed(w: World, w': World, r: Ref, t: Tid, id: string)
    requires Named(w) && Local(w, w', r, t) && r in w.hist && r in w'.hist && w'.hist[r].id == w.hist[r].id && id in w'.store.byID
    ensures IdNamed(w', id)
  {
    assert IdNamed(w, id);
    var r' := w.store.byID[id];
    assert w'.hist[r'].id == w.hist[r'].id;
  }

  lemma OneStillIndexes(w: World, w': World, r: Ref, t: Tid)
    requires Named(w) && Local(w, w', r, t) && r in w.hist && r in w.store.heap && NamesMove(w, w', r, t)
    ensures forall u, v, x :: WillIndex(w', u, x) && WillIndex(w', v, x) ==> u == v
  {
    forall u, x | WillIndex(w', u, x) && u != t ensures WillIndex(w, u, x) && x in w.issued {
      assert ThreadNamed(w, u);
    }
  }

  lemma LocalNamed(w: World, w': World, r: Ref, t: Tid)
    requires Named(w) && Accounted(w') && Local(w, w', r, t) && r in w.hist && r in w.store.heap && NamesMove(w, w', r, t)
    requires t in w'.threads ==> ThreadNamed(w', t)
    ensures Named(w')
  {
    OneStillIndexes(w, w', r, t);
    assert IdsApart(w');
    forall x | x in w'.issued ensures IssuedHome(w', x) { IssuedStaysHome(w, w', r, t, x); }
    forall id | id in w'.store.byID ensures IdNamed(w', id) { IdStaysNamed(w, w', r, t, id); }
    forall x | x in w'.store.byState ensures IndexNamed(w', x) { IndexStaysNamed(w, w', r, t, x); }
    forall u | u in w'.threads ensures ThreadNamed(w', u) {
      if u != t { OtherThreadNamed(w, w', r, t, u); }
    }
    forall r' | r' in w'.hist ensures SessionNamed(w', r') {
      if r' == r { OwnSessionNamed(w, w', r, t); } else { OtherSessionNamed(w, w', r, t, r'); }
    }
  }

  // --- Every step ---------------------------------------------------------------------------

  /** What a call between claim and return does to the index: nothing, or its own new entry, or the
      removal of its old one. */
  lemma NextIndex(w: World, t: Tid, input: Input)
    requires Linked(w) && Enabled(w, Advance(t, input)) && PutsOnly(w.threads[t])
    ensures IndexMoves(w, DoAdvance(w, t, input).0, t)
  {
    match w.threads[t]
    case Created(_, _, _, _) => BegunPuts(w, t);
    case Claimed(_, _, _) => ResumePuts(w, t, input.reply);
    case Responded(_, _, _, _, _) => ResumeHTTPPuts(w, t, input.reply);
    case Got(_, _, _) => KeepHandlePuts(w, t);
    case Planned(_, _, _, _) => PlannedIndex(w, t, input);
    case Indexed(_, _, _, _) => ReopenPuts(w, t);
    case Finalizing(_, _, _) => FinalizePuts(w, t);
  }

  lemma PlannedIndex(w: World, t: Tid, input: Input)
    requires Linked(w) && t in w.threads && w.threads[t].Planned? && InputFits(w.threads[t], input)
    ensures IndexMoves(w, DoPlanned(w, t, input), t)
  {
    match w.threads[t].plan
    case Effect(_) => UpstreamPuts(w, t, input.response);
    case Index(_, _) => IndexPuts(w, t);
    case _ => SettlePuts(w, t);
  }

  /** What the thread's next position carries: what it carried, or the state the SDK has just emitted. */
  lemma NextUnindexed(w: World, th: Thread, input: Input, x: string)
    requires PutsOnly(th) && InputFits(th, input) && Unindexed(w.cfg, NextThread(w.cfg, th, input)) == Some(x)
    ensures Unindexed(w.cfg, th) == Some(x) || ((th.Claimed? || th.Responded?) && Emits(w.cfg, input.reply) == Some(x))
    ensures !(th.Planned? && th.plan.Index?)
  {
  }

  lemma EmitGrows(w: World, th: Thread, input: Input)
    requires PutsOnly(th) && InputFits(th, input)
    requires (th.Claimed? || th.Responded?) ==> FreshState(w, input.reply)
    ensures Grows(w.issued, NextIssued(w, th, input))
    ensures forall x | x in NextIssued(w, th, input) && x !in w.issued :: NextIssued(w, th, input)[x] == th.r
    ensures (th.Claimed? || th.Responded?) && Emits(w.cfg, input.reply).Some? ==> Emits(w.cfg, input.reply).value in NextIssued(w, th, input)
  {
  }

  lemma CallsStayNamed(issued: map<string, Ref>, issued': map<string, Ref>, r: Ref, th: Thread, h: Hist, input: Input)
    requires PutsOnly(th) && InputFits(th, input) && CallsNamed(issued, r, h.calls) && Grows(issued, issued')
    requires th.Claimed? ==> IssuedTo(issued, th.req.state, r)
    ensures CallsNamed(issued', r, NextHist(th, h, input).calls)
  {
  }

  lemma DriveNamed(w: World, t: Tid, input: Input)
    requires Named(w) && Enabled(w, Advance(t, input)) && PutsOnly(w.threads[t]) && FreshNames(w, Advance(t, input))
    ensures Named(DoAdvance(w, t, input).0)
  {
    var w' := DoAdvance(w, t, input).0;
    var th := w.threads[t];
    AdvanceAccounted(w, t, input);
    AdvancePuts(w, t, input);
    NextIndex(w, t, input);
    EmitGrows(w, th, input);
    PutLocal(w, w', t, NextThread(w.cfg, th, input), NextRecord(th, w.store.heap[th.r]), NextHist(th, w.hist[th.r], input));
    DriveMoves(w, w', t, input);
    NextThreadNamed(w, w', t, input);
    LocalNamed(w, w', th.r, t);
  }

  /** What the store's index may hold after such a step. */
  ghost predicate IndexMoves(w: World, w': World, t: Tid)
    requires t in w.threads && w.threads[t].r in w.store.heap
  {
    var th := w.threads[t];
    forall x | x in w'.store.byState ::
      || (x in w.store.byState && w'.store.byState[x] == w.store.byState[x])
      || (th.Planned? && th.plan.Index? && x == th.plan.state && w'.store.byState[x] == w.store.heap[th.r].correlationID)
  }

  lemma DriveMoves(w: World, w': World, t: Tid, input: Input)
    requires Named(w) && t in w.threads && PutsOnly(w.threads[t]) && InputFits(w.threads[t], input)
    requires w.threads[t].r in w.store.heap && w.threads[t].r in w.hist && Advances(w, w', t, input) && IndexMoves(w, w', t)
    requires (w.threads[t].Claimed? || w.threads[t].Responded?) ==> FreshState(w, input.reply)
    ensures NamesMove(w, w', w.threads[t].r, t)
  {
    var th := w.threads[t];
    EmitGrows(w, th, input);
    NextWillIndex(w, w', t, input);
    NextIndexNamed(w, w', t, input);
    NextEmission(w, w', t, input);
    NextSessionMoves(w, w', t, input);
  }

  lemma NextEmission(w: World, w': World, t: Tid, input: Input)
    requires t in w.threads && PutsOnly(w.threads[t]) && InputFits(w.threads[t], input)
    requires w.threads[t].r in w.store.heap && w.threads[t].r in w.hist && Advances(w, w', t, input)
    ensures var r := w.threads[t].r;
            && w.hist[r].calls <= w'.hist[r].calls
            && forall x | x in w'.issued :: x in w.issued || (w'.issued[x] == r && EmittedIn(w.cfg, w'.hist[r].calls, x))
  {
    var th := w.threads[t];
    var calls, calls' := w.hist[th.r].calls, w'.hist[th.r].calls;
    if (th.Claimed? || th.Responded?) && Emits(w.cfg, input.reply).Some? {
      assert EmittedAt(w.cfg, calls', |calls|, Emits(w.cfg, input.reply).value);
    }
  }

  lemma NextSessionMoves(w: World, w': World, t: Tid, input: Input)
    requires Named(w) && t in w.threads && PutsOnly(w.threads[t]) && InputFits(w.threads[t], input)
    requires w.threads[t].r in w.store.heap && w.threads[t].r in w.hist && Advances(w, w', t, input) && Grows(w.issued, w'.issued)
    ensures var r := w.threads[t].r;
            var x' := w'.store.heap[r].oauthState;
            && w'.hist[r].id == w.hist[r].id && w'.store.heap[r].correlationID == w.store.heap[r].correlationID
            && CallsNamed(w'.issued, r, w'.hist[r].calls)
            && (x' == "" || x' == w.store.heap[r].oauthState || WillIndex(w, t, x'))
  {
    var th := w.threads[t];
    assert ThreadNamed(w, t) && SessionNamed(w, th.r);
    CallsStayNamed(w.issued, w'.issued, th.r, th, w.hist[th.r], input);
    NextStateIs(th, w.store.heap[th.r]);
  }

  lemma NextThreadNamed(w: World, w': World, t: Tid, input: Input)
    requires Named(w) && t in w.threads && PutsOnly(w.threads[t]) && InputFits(w.threads[t], input)
    requires w.threads[t].r in w.store.heap && w.threads[t].r in w.hist && Advances(w, w', t, input)
    requires (w.threads[t].Claimed? || w.threads[t].Responded?) ==> FreshState(w, input.reply)
    ensures ThreadNamed(w', t)
  {
    NextWillIndex(w, w', t, input);
    var next := Unindexed(w.cfg, w'.threads[t]);
    assert next.Some? ==> WillIndex(w', t, next.value);
  }

  lemma NextIndexNamed(w: World, w': World, t: Tid, input: Input)
    requires Named(w) && t in w.threads && w.threads[t].r in w.store.heap && w.threads[t].r in w.hist && IndexMoves(w, w', t)
    requires Grows(w.issued, w'.issued)
    ensures forall x | x in w'.store.byState ::
              (x in w.store.byState && w'.store.byState[x] == w.store.byState[x])
              || (IssuedTo(w'.issued, x, w.threads[t].r) && w'.store.byState[x] == w.hist[w.threads[t].r].id)
  {
    assert ThreadNamed(w, t) && SessionNamed(w, w.threads[t].r);
  }

  lemma NextWillIndex(w: World, w': World, t: Tid, input: Input)
    requires Named(w) && t in w.threads && PutsOnly(w.threads[t]) && InputFits(w.threads[t], input)
    requires w.threads[t].r in w.store.heap && w.threads[t].r in w.hist && Advances(w, w', t, input)
    requires (w.threads[t].Claimed? || w.threads[t].Responded?) ==> FreshState(w, input.reply)
    ensures forall x | WillIndex(w', t, x) ::
              && x != w'.store.heap[w.threads[t].r].oauthState && (WillIndex(w, t, x) || x !in w.issued)
              && IssuedTo(w'.issued, x, w.threads[t].r)
  {
    var th := w.threads[t];
    assert ThreadNamed(w, t) && SessionNamed(w, th.r);
    EmitGrows(w, th, input);
    NextStateIs(th, w.store.heap[th.r]);
    forall x | WillIndex(w', t, x)
      ensures x != w'.store.heap[th.r].oauthState && (WillIndex(w, t, x) || x !in w.issued) && IssuedTo(w'.issued, x, th.r)
    {
      NextUnindexed(w, th, input, x);
      assert WillIndex(w, t, x) || x !in w.issued;
    }
  }

  lemma NextStateIs(th: Thread, rec: Record)
    requires PutsOnly(th)
    ensures var x := NextRecord(th, rec).oauthState;
            x == "" || x == rec.oauthState || (th.Planned? && th.plan.Index? && x == th.plan.state)
    ensures NextRecord(th, rec).correlationID == rec.correlationID
  {
  }

  /** Steps that issue nothing and move no thread: names may only be forgotten. */
  ghost predicate Forgets(w: World, w': World) {
    && w'.cfg == w.cfg && w'.threads == w.threads && w'.ids == w.ids && w'.issued == w.issued && w'.hist == w.hist
    && w'.store.heap.Keys == w.store.heap.Keys
    && (forall r | r in w.store.heap ::
          && w'.store.heap[r].correlationID == w.store.heap[r].correlationID
          && (w'.store.heap[r].oauthState == w.store.heap[r].oauthState || w'.store.heap[r].oauthState == ""))
    && (forall id | id in w'.store.byID :: id in w.store.byID && w'.store.byID[id] == w.store.byID[id])
    && (forall x | x in w'.store.byState :: x in w.store.byState && w'.store.byState[x] == w.store.byState[x])
  }

  lemma ForgetsNamed(w: World, w': World)
    requires Named(w) && Accounted(w') && Forgets(w, w')
    ensures Named(w')
  {
    forall x | x in w'.issued ensures IssuedHome(w', x) { assert IssuedHome(w, x); }
    forall id | id in w'.store.byID ensures IdNamed(w', id) { assert IdNamed(w, id); }
    forall x | x in w'.store.byState ensures IndexNamed(w', x) { assert IndexNamed(w, x); }
    forall t | t in w'.threads ensures ThreadNamed(w', t) { assert ThreadNamed(w, t); }
    forall r | r in w'.hist ensures SessionNamed(w', r) { SessionForgets(w, w', r); }
    assert forall t, x :: WillIndex(w', t, x) <==> WillIndex(w, t, x);
  }

  lemma SessionForgets(w: World, w': World, r: Ref)
    requires Named(w) && Forgets(w, w') && r in w.hist
    ensures SessionNamed(w', r)
  {
    assert SessionNamed(w, r);
    if r in w.store.heap && w'.store.heap[r].oauthState != "" {
      forall t ensures !WillIndex(w', t, w'.store.heap[r].oauthState) {
        assert !WillIndex(w, t, w.store.heap[r].oauthState);
      }
    }
  }

  lemma ExpiredNamed(w: World, r: Ref)
    requires Named(w) && r in w.store.heap
    ensures Named(Expired(w, r))
  {
    ExpiredAccounted(w, r);
    ForgetsNamed(w, Expired(w, r));
  }

  lemma LookedUpNamed(w: World, state: string)
    requires Named(w)
    ensures Named(AfterLookup(w, state))
  {
    if state in w.store.byState && w.store.byState[state] != "" && w.store.byState[state] in w.store.byID {
      ExpiredNamed(w, w.store.byID[w.store.byState[state]]);
    }
  }

  /** Only thread `t` moves, to or from a position that carries no state the store does not know of. */
  lemma ThreadMovesNamed(w: World, w': World, r: Ref, t: Tid)
    requires Named(w) && Accounted(w') && r in w.store.heap && r in w.hist && r in w'.hist
    requires Touches(w, w', r, t) && w'.store == w.store
    requires w'.cfg == w.cfg && w'.now == w.now && w'.published == w.published && w'.ids == w.ids && w'.issued == w.issued
    requires w'.hist[r].id == w.hist[r].id && w'.hist[r].calls == w.hist[r].calls
    requires t in w.threads ==> w.threads[t].r == r
    requires t in w'.threads ==> Unindexed(w.cfg, w'.threads[t]) == None && ThreadNamed(w', t)
    ensures Named(w')
  {
    assert SessionNamed(w, r);
    LocalNamed(w, w', r, t);
  }

  lemma LookupStepNamed(w: World, t: Tid, req: Request)
    requires Named(w) && t !in w.threads
    ensures Named(DoLookup(w, t, req).0)
  {
    if Valid(req) {
      LookedUpNamed(w, req.state);
      if GetByState(w.store, req.state, w.now).1.Some? {
        LookupNamed(w, req.state);
        LookupAccounted(w, t, req);
        LookupTouches(w, t, req);
        ThreadMovesNamed(AfterLookup(w, req.state), DoLookup(w, t, req).0, GetByState(w.store, req.state, w.now).1.value, t);
      }
    }
  }

  lemma ClaimNamed(w: World, t: Tid)
    requires Named(w) && t in w.threads && w.threads[t].Found?
    ensures Named(DoClaim(w, t))
  {
    var th := w.threads[t];
    ClaimAccounted(w, t);
    assert ThreadNamed(w, t);
    if Consume(w.store, th.r, w.now).1.Ok? {
      GrantedNamed(w, t);
    } else {
      ExpiredNamed(w, th.r);
      RefusedPuts(w, t);
      ThreadMovesNamed(Expired(w, th.r), DoClaim(w, t), th.r, t);
    }
  }

  lemma GrantedNamed(w: World, t: Tid)
    requires Named(w) && t in w.threads && w.threads[t].Found? && Consume(w.store, w.threads[t].r, w.now).1.Ok?
    requires Accounted(DoClaim(w, t))
    ensures Named(DoClaim(w, t))
  {
    var th := w.threads[t];
    var rec, h := w.store.heap[th.r], w.hist[th.r];
    assert ThreadNamed(w, t) && SessionNamed(w, th.r);
    ClaimPuts(w, t);
    PutLocal(w, DoClaim(w, t), t, Claimed(th.r, th.req, rec.handle), rec.(resuming := true, oauthState := ""),
             h.(owner := Some(t), claims := h.claims + 1));
    LocalNamed(w, DoClaim(w, t), th.r, t);
  }

  lemma ViewNamed(w: World, t: Tid)
    requires Named(w) && t in w.threads && w.threads[t].Driven?
    ensures Named(DoView(w, t))
  {
    var id := w.store.heap[w.threads[t].r].correlationID;
    if id in w.store.byID { ExpiredNamed(w, w.store.byID[id]); }
    ViewAccounted(w, t);
    ViewTouches(w, t);
    ThreadMovesNamed(Viewed(w, t), DoView(w, t), w.threads[t].r, t);
  }

  lemma ReturnNamed(w: World, t: Tid)
    requires Named(w) && t in w.threads && (w.threads[t].Begun? || w.threads[t].Answered?)
    ensures Named(DoReturn(w, t).0)
  {
    var w' := DoReturn(w, t).0;
    var w1 := w'.(published := w.published);
    ReturnAccounted(w, t);
    ReturnTouches(w, t);
    SameBooks(w', w1);
    ThreadMovesNamed(w, w1, w.threads[t].r, t);
    ForgetsNamed(w1, w');
  }

  lemma StartNamed(w: World, t: Tid, r: Ref, id: string, clientState: string, conformance: string, reply: SdkReply)
    requires Named(w) && Enabled(w, Start(t, r, id, clientState, conformance, reply))
    requires FreshNames(w, Start(t, r, id, clientState, conformance, reply))
    ensures Named(DoStart(w, t, r, id, clientState, conformance, reply).0)
  {
    if Emits(w.cfg, reply).Some? {
      StartAccounted(w, t, r, id, clientState, conformance, reply);
      BirthNamed(w, DoStart(w, t, r, id, clientState, conformance, reply).0, t, r, id);
    }
  }

  /** A session's history begins, with an id and a state that are new. */
  ghost predicate Born(w: World, w': World, t: Tid, r: Ref, id: string) {
    && t !in w.threads && r !in w.hist && id !in w.ids
    && w' == w.(threads := w'.threads, hist := w'.hist, ids := w.ids[id := r], issued := w'.issued)
    && t in w'.threads && w'.threads[t].Starting? && w'.threads[t].r == r && w'.threads == w.threads[t := w'.threads[t]]
    && r in w'.hist && w'.hist == w.hist[r := w'.hist[r]] && w'.hist[r].id == id
    && |w'.hist[r].calls| == 1 && w'.hist[r].calls[0].BeginCall? && EmittedAt(w.cfg, w'.hist[r].calls, 0, w'.threads[t].state)
    && w'.threads[t].state !in w.issued && w'.issued == w.issued[w'.threads[t].state := r]
  }

  lemma BirthNamed(w: World, w': World, t: Tid, r: Ref, id: string)
    requires Named(w) && Accounted(w') && Born(w, w', t, r, id)
    ensures Named(w')
  {
    ThreadsAtBirth(w, w', t, r, id);
    forall x | x in w'.issued ensures IssuedHome(w', x) { assert x in w.issued ==> IssuedHome(w, x); }
    forall i | i in w'.store.byID ensures IdNamed(w', i) { assert IdNamed(w, i); }
    forall x | x in w'.store.byState ensures IndexNamed(w', x) { assert IndexNamed(w, x); }
    forall r' | r' in w'.hist ensures SessionNamed(w', r') { SessionAtBirth(w, w', t, r, id, r'); }
  }

  lemma ThreadsAtBirth(w: World, w': World, t: Tid, r: Ref, id: string)
    requires Named(w) && Born(w, w', t, r, id)
    ensures forall u | u in w'.threads :: ThreadNamed(w', u)
    ensures forall u, v, x :: WillIndex(w', u, x) && WillIndex(w', v, x) ==> u == v
  {
    forall u | u in w'.threads ensures ThreadNamed(w', u) {
      if u != t { assert ThreadNamed(w, u); }
    }
    forall u, x | WillIndex(w', u, x) && u != t ensures WillIndex(w, u, x) && x in w.issued { assert ThreadNamed(w, u); }
  }

  lemma SessionAtBirth(w: World, w': World, t: Tid, r: Ref, id: string, r': Ref)
    requires Named(w) && Born(w, w', t, r, id) && r' in w'.hist
    ensures SessionNamed(w', r')
  {
    if r' != r {
      assert SessionNamed(w, r');
      if r' in w.store.heap && w.store.heap[r'].oauthState != "" {
        forall u ensures !WillIndex(w', u, w.store.heap[r'].oauthState) {
          assert !WillIndex(w, u, w.store.heap[r'].oauthState);
        }
      }
    }
  }

  lemma InsertedNamed(w: World, t: Tid)
    requires Named(w) && t in w.threads && w.threads[t].Starting?
    ensures Named(Inserted(w, t))
  {
    var th, w' := w.threads[t], Inserted(w, t);
    InsertedAccounted(w, t);
    assert ThreadNamed(w, t);
    assert WillIndex(w, t, th.state);
    forall u, x | WillIndex(w', u, x) ensures WillIndex(w, u, x) && u != t && x != th.state {
      assert WillIndex(w, u, x);
    }
    forall x | x in w'.issued ensures IssuedHome(w', x) { assert IssuedHome(w, x); }
    forall i | i in w'.store.byID ensures IdNamed(w', i) {
      if i in w.store.byID { assert IdNamed(w, i); }
    }
    forall x | x in w'.store.byState ensures IndexNamed(w', x) {
      if x in w.store.byState { assert IndexNamed(w, x); }
    }
    forall u | u in w'.threads ensures ThreadNamed(w', u) { assert ThreadNamed(w, u); }
    forall r | r in w'.hist ensures SessionNamed(w', r) { SessionAtInsert(w, t, r); }
  }

  lemma SessionAtInsert(w: World, t: Tid, r: Ref)
    requires Named(w) && t in w.threads && w.threads[t].Starting? && r in w.hist
    requires forall u, x :: WillIndex(Inserted(w, t), u, x) ==> WillIndex(w, u, x) && x != w.threads[t].state
    ensures SessionNamed(Inserted(w, t), r)
  {
    assert SessionNamed(w, r) && ThreadNamed(w, t);
  }

  lemma NewNamed(w: World, t: Tid, reading: int)
    requires Named(w) && t in w.threads && w.threads[t].Starting?
    ensures Named(DoNew(w, t, reading))
  {
    SweptAccounted(w);
    ForgetsNamed(w, Swept(w));
    var w1 := Swept(w).(now := reading);
    SameBooks(Swept(w), w1);
    ForgetsNamed(Swept(w), w1);
    InsertedNamed(w1, t);
    NewIsSweepTickInsert(w, t, reading);
  }

  lemma PollNamed(w: World, id: string, what: Observation)
    requires Named(w)
    ensures Named(DoPoll(w, id, what).0)
  {
    if id in w.store.byID { ExpiredNamed(w, w.store.byID[id]); }
  }

  lemma TickNamed(w: World, reading: int)
    requires Named(w)
    ensures Named(w.(now := reading))
  {
    SameBooks(w, w.(now := reading));
    ForgetsNamed(w, w.(now := reading));
  }

  lemma AdvanceNamed(w: World, t: Tid, input: Input)
    requires Named(w) && Enabled(w, Advance(t, input)) && FreshNames(w, Advance(t, input))
    ensures Named(DoAdvance(w, t, input).0)
  {
    match w.threads[t]
    case Starting(_, _, _, _, _, _) => NewNamed(w, t, input.reading);
    case Found(_, _) => ClaimNamed(w, t);
    case Driven(_, _, _, _, _) => ViewNamed(w, t);
    case Begun(_, _, _) => ReturnNamed(w, t);
    case Answered(_, _, _, _, _) => ReturnNamed(w, t);
    case _ => DriveNamed(w, t, input);
  }

  lemma StepNamed(w: World, a: Action)
    requires Named(w) && CanStep(w, a, H1_ONLY)
    ensures Named(Apply(w, a).0)
  {
    match a
    case Tick(reading) => TickNamed(w, reading);
    case Poll(id, what) => PollNamed(w, id, what);
    case Start(t, r, id, clientState, conformance, reply) => StartNamed(w, t, r, id, clientState, conformance, reply);
    case Callback(t, req) => LookupStepNamed(w, t, req);
    case Advance(t, input) => AdvanceNamed(w, t, input);
  }

  // --- The account of one state ----------------------------------------------------------------

  /** How many redirect resumes of the conversation brought `state`. */
  function Returns(calls: seq<Call>, state: string): nat {
    if calls == [] then 0
    else
      var last := calls[|calls| - 1];
      Returns(calls[..|calls| - 1], state) + (if last.RedirectCall? && last.state == state then 1 else 0)
  }

  lemma OneMoreCall(calls: seq<Call>, call: Call, state: string)
    ensures Returns(calls + [call], state) == Returns(calls, state) + (if call.RedirectCall? && call.state == state then 1 else 0)
  {
    assert (calls + [call])[..|calls|] == calls;
  }

  lemma {:induction false} NoReturns(issued: map<string, Ref>, r: Ref, calls: seq<Call>, state: string)
    requires CallsNamed(issued, r, calls) && state !in issued
    ensures Returns(calls, state) == 0
    decreases |calls|
  {
    if calls != [] {
      NoReturns(issued, r, calls[..|calls| - 1], state);
    }
  }

  ghost predicate Claimant(w: World, t: Tid, state: string) {
    t in w.threads && w.threads[t].Claimed? && w.threads[t].req.state == state
  }

  ghost function Told(w: World, state: string): nat {
    if state in w.issued && w.issued[state] in w.hist then Returns(w.hist[w.issued[state]].calls, state) else 0
  }

  /** Redirect resumes with the state that have been made, or are about to be. */
  ghost function Spent(w: World, state: string): nat {
    Told(w, state) + (if exists t :: Claimant(w, t, state) then 1 else 0)
  }

  ghost predicate WaitsFor(w: World, r: Ref, state: string) {
    r in w.store.heap && w.store.heap[r].oauthState == state != ""
  }

  /** The state may still be claimed by the callback it was meant for. */
  ghost predicate Unspent(w: World, state: string) {
    state !in w.issued || (exists t :: WillIndex(w, t, state)) || (exists r :: WaitsFor(w, r, state))
  }

  /** A claim is granted to a callback with `state` although its session does not wait for it. */
  ghost predicate StaleClaim(w: World, a: Action, state: string)
    requires Linked(w) && Enabled(w, a)
  {
    && a.Advance? && w.threads[a.t].Found? && w.threads[a.t].req.state == state
    && Consume(w.store, w.threads[a.t].r, w.now).1.Ok?
    && w.store.heap[w.threads[a.t].r].oauthState != state
  }

  /** At most one resume, plus one for each of the `n` stale claims so far. */
  ghost predicate Within(w: World, state: string, n: nat) {
    Spent(w, state) <= n + (if Unspent(w, state) then 0 else 1)
  }

  lemma UnissuedIsUnspent(w: World, state: string)
    requires Named(w) && state !in w.issued
    ensures Spent(w, state) == 0
  {
    forall t ensures !Claimant(w, t, state) {
      if t in w.threads { assert ThreadNamed(w, t); }
    }
  }

  /** A step on which no callback with the state moves, and that issues nothing. */
  lemma QuietWithin(w: World, w': World, state: string, n: nat)
    requires Named(w) && Within(w, state, n) && w'.issued == w.issued
    requires forall r | r in w.hist :: r in w'.hist && w'.hist[r].calls == w.hist[r].calls
    requires forall t :: Claimant(w', t, state) ==> Claimant(w, t, state)
    requires Unspent(w', state) ==> Unspent(w, state)
    ensures Within(w', state, n)
  {
    if state !in w.issued { UnissuedIsUnspent(w, state); } else {
      assert IssuedHome(w, state);
      var r := w.issued[state];
      assert r in w.hist;
      assert r in w'.hist && w'.hist[r].calls == w.hist[r].calls;
    }
  }

  // --- The account over one step -----------------------------------------------------------------

  ghost predicate Drives(w: World, w': World, t: Tid, input: Input) {
    && t in w.threads && PutsOnly(w.threads[t]) && InputFits(w.threads[t], input)
    && w.threads[t].r in w.store.heap && w.threads[t].r in w.hist && Advances(w, w', t, input)
    && ((w.threads[t].Claimed? || w.threads[t].Responded?) ==> FreshState(w, input.reply))
  }

  lemma DriveUnspent(w: World, w': World, t: Tid, input: Input, state: string)
    requires Named(w) && Drives(w, w', t, input) && Unspent(w', state) && state in w.issued
    ensures Unspent(w, state)
  {
    var th := w.threads[t];
    EmitGrows(w, th, input);
    NextStateIs(th, w.store.heap[th.r]);
    if u :| WillIndex(w', u, state) {
      if u == t { NextUnindexed(w, th, input, state); }
      assert WillIndex(w, u, state);
    } else if r :| WaitsFor(w', r, state) {
      assert WaitsFor(w, r, state) || WillIndex(w, t, state);
    }
  }

  lemma DriveTold(w: World, w': World, t: Tid, input: Input, state: string)
    requires Named(w) && Drives(w, w', t, input)
    ensures Told(w', state) == Told(w, state) + (if Claimant(w, t, state) then 1 else 0)
  {
    var th := w.threads[t];
    EmitGrows(w, th, input);
    assert ThreadNamed(w, t) && SessionNamed(w, th.r);
    if th.Claimed? {
      OneMoreCall(w.hist[th.r].calls, ReturnCall(th, input.reply), state);
    } else if th.Responded? {
      OneMoreCall(w.hist[th.r].calls, HttpCall(th.handle, th.status, th.body, input.reply), state);
    }
    if state !in w.issued && state in w'.issued {
      NoReturns(w.issued, th.r, w.hist[th.r].calls, state);
    }
  }

  lemma DriveWithin(w: World, t: Tid, input: Input, state: string, n: nat)
    requires Named(w) && Enabled(w, Advance(t, input)) && PutsOnly(w.threads[t]) && FreshNames(w, Advance(t, input))
    requires Within(w, state, n)
    ensures Within(DoAdvance(w, t, input).0, state, n)
  {
    AdvancePuts(w, t, input);
    WithinDrive(w, DoAdvance(w, t, input).0, t, input, state, n);
  }

  lemma WithinDrive(w: World, w': World, t: Tid, input: Input, state: string, n: nat)
    requires Named(w) && Drives(w, w', t, input) && Within(w, state, n)
    ensures Within(w', state, n)
  {
    DriveTold(w, w', t, input, state);
    DriveClaimants(w, w', t, input, state);
    if state !in w.issued {
      UnissuedIsUnspent(w, state);
    } else if Unspent(w', state) {
      DriveUnspent(w, w', t, input, state);
    }
  }

  /** The thread that tells the SDK is the only claimant of its state, and is one no more. */
  lemma DriveClaimants(w: World, w': World, t: Tid, input: Input, state: string)
    requires Named(w) && Drives(w, w', t, input)
    ensures && (forall u :: Claimant(w', u, state) ==> Claimant(w, u, state))
            && (Claimant(w, t, state) ==> forall u :: !Claimant(w', u, state))
  {
    var th := w.threads[t];
    assert !w'.threads[t].Claimed?;
    if Claimant(w, t, state) {
      assert ThreadNamed(w, t) && Balanced(w, th.r) && Holder(w, th.r, t);
      forall u | u != t ensures !Claimant(w', u, state) {
        if Claimant(w, u, state) {
          assert ThreadNamed(w, u);
          assert Holder(w, th.r, u);
        }
      }
    }
  }

  lemma ClaimWithin(w: World, t: Tid, state: string, n: nat)
    requires Named(w) && t in w.threads && w.threads[t].Found? && Within(w, state, n)
    ensures Within(DoClaim(w, t), state, n + (if StaleClaim(w, Advance(t, Idle), state) then 1 else 0))
  {
    if Consume(w.store, w.threads[t].r, w.now).1.Ok? {
      GrantedWithin(w, t, state, n);
    } else {
      RefusedWithin(w, t, state, n);
    }
  }

  lemma RefusedWithin(w: World, t: Tid, state: string, n: nat)
    requires Named(w) && t in w.threads && w.threads[t].Found? && Within(w, state, n)
    requires Consume(w.store, w.threads[t].r, w.now).1.Err?
    ensures Within(DoClaim(w, t), state, n)
  {
    var th, w' := w.threads[t], DoClaim(w, t);
    RefusedPuts(w, t);
    if Unspent(w', state) {
      ThreadUnspent(Expired(w, th.r), w', t, state);
      ExpiredUnspent(w, th.r, state);
    }
    QuietWithin(w, w', state, n);
  }

  lemma GrantedWithin(w: World, t: Tid, state: string, n: nat)
    requires Named(w) && t in w.threads && w.threads[t].Found? && Within(w, state, n)
    requires Consume(w.store, w.threads[t].r, w.now).1.Ok?
    ensures Within(DoClaim(w, t), state, n + (if StaleClaim(w, Advance(t, Idle), state) then 1 else 0))
  {
    var th, w' := w.threads[t], DoClaim(w, t);
    ClaimUnspent(w, t, state);
    GrantedSpent(w, t, state);
    if th.req.state == state {
      assert ThreadNamed(w, t);
      assert w.store.heap[th.r].oauthState == state ==> WaitsFor(w, th.r, state);
    }
  }

  /** A granted claim adds one resume to come to the account of its state, and none to any other. */
  lemma GrantedSpent(w: World, t: Tid, state: string)
    requires Named(w) && t in w.threads && w.threads[t].Found? && Consume(w.store, w.threads[t].r, w.now).1.Ok?
    ensures Spent(DoClaim(w, t), state) <= Spent(w, state) + (if w.threads[t].req.state == state then 1 else 0)
  {
    var w' := DoClaim(w, t);
    ClaimPuts(w, t);
    if state in w.issued { assert IssuedHome(w, state); }
    assert forall u | u != t :: Claimant(w', u, state) <==> Claimant(w, u, state);
  }

  /** A thread that will index nothing makes no state unspent. */
  lemma ThreadUnspent(w: World, w': World, t: Tid, state: string)
    requires w'.store == w.store && w'.issued == w.issued && w'.cfg == w.cfg
    requires forall u | u != t :: u in w'.threads ==> u in w.threads && w'.threads[u] == w.threads[u]
    requires t in w'.threads ==> Unindexed(w.cfg, w'.threads[t]) == None
    requires Unspent(w', state)
    ensures Unspent(w, state)
  {
    if u :| WillIndex(w', u, state) {
      assert WillIndex(w, u, state);
    } else if r :| WaitsFor(w', r, state) {
      assert WaitsFor(w, r, state);
    }
  }

  lemma ExpiredUnspent(w: World, r: Ref, state: string)
    requires r in w.store.heap && Unspent(Expired(w, r), state)
    ensures Unspent(w, state)
  {
    var w' := Expired(w, r);
    if u :| WillIndex(w', u, state) {
      assert WillIndex(w, u, state);
    } else if r' :| WaitsFor(w', r', state) {
      assert WaitsFor(w, r', state);
    }
  }

  /** A granted claim spends the state its session waited for. */
  lemma ClaimUnspent(w: World, t: Tid, state: string)
    requires Named(w) && t in w.threads && w.threads[t].Found? && Consume(w.store, w.threads[t].r, w.now).1.Ok?
    ensures Unspent(DoClaim(w, t), state) ==> Unspent(w, state) && (state != "" ==> w.store.heap[w.threads[t].r].oauthState != state)
  {
    var th, w' := w.threads[t], DoClaim(w, t);
    assert ThreadNamed(w, t) && SessionNamed(w, th.r);
    ClaimPuts(w, t);
    if u :| WillIndex(w', u, state) {
      assert WillIndex(w, u, state) && u != t;
    } else if r' :| WaitsFor(w', r', state) {
      assert WaitsFor(w, r', state) && r' != th.r;
      assert SessionNamed(w, r') && SessionNamed(w, th.r);
    }
  }

  lemma LookupWithin(w: World, t: Tid, req: Request, state: string, n: nat)
    requires Named(w) && t !in w.threads && Within(w, state, n)
    ensures Within(DoLookup(w, t, req).0, state, n)
  {
    var w', w1 := DoLookup(w, t, req).0, AfterLookup(w, req.state);
    if Valid(req) {
      if Unspent(w', state) {
        if GetByState(w.store, req.state, w.now).1.Some? {
          LookupTouches(w, t, req);
          ThreadUnspent(w1, w', t, state);
        }
        LookedUpUnspent(w, req.state, state);
      }
      LookupClaimants(w, t, req, state);
      QuietWithin(w, w', state, n);
    }
  }

  lemma LookupClaimants(w: World, t: Tid, req: Request, state: string)
    requires Linked(w) && t !in w.threads
    ensures forall u :: Claimant(DoLookup(w, t, req).0, u, state) ==> Claimant(w, u, state)
  {
  }

  lemma LookedUpUnspent(w: World, asked: string, state: string)
    requires Linked(w) && Unspent(AfterLookup(w, asked), state)
    ensures Unspent(w, state)
  {
    if asked in w.store.byState && w.store.byState[asked] != "" && w.store.byState[asked] in w.store.byID {
      ExpiredUnspent(w, w.store.byID[w.store.byState[asked]], state);
    }
  }

  lemma ViewWithin(w: World, t: Tid, state: string, n: nat)
    requires Named(w) && t in w.threads && w.threads[t].Driven? && Within(w, state, n)
    ensures Within(DoView(w, t), state, n)
  {
    var w' := DoView(w, t);
    ViewTouches(w, t);
    if Unspent(w', state) {
      ThreadUnspent(Viewed(w, t), w', t, state);
      var id := w.store.heap[w.threads[t].r].correlationID;
      if id in w.store.byID { ExpiredUnspent(w, w.store.byID[id], state); }
    }
    QuietWithin(w, w', state, n);
  }

  lemma ReturnWithin(w: World, t: Tid, state: string, n: nat)
    requires Named(w) && t in w.threads && (w.threads[t].Begun? || w.threads[t].Answered?) && Within(w, state, n)
    ensures Within(DoReturn(w, t).0, state, n)
  {
    ReturnTouches(w, t);
    if Unspent(DoReturn(w, t).0, state) { ThreadUnspent(w, DoReturn(w, t).0, t, state); }
    QuietWithin(w, DoReturn(w, t).0, state, n);
  }

  lemma NewWithin(w: World, t: Tid, reading: int, state: string, n: nat)
    requires Named(w) && t in w.threads && w.threads[t].Starting? && Within(w, state, n)
    ensures Within(DoNew(w, t, reading), state, n)
  {
    var w' := DoNew(w, t, reading);
    if Unspent(w', state) { NewUnspent(w, t, reading, state); }
    QuietWithin(w, w', state, n);
  }

  lemma NewUnspent(w: World, t: Tid, reading: int, state: string)
    requires Named(w) && t in w.threads && w.threads[t].Starting? && Unspent(DoNew(w, t, reading), state)
    ensures Unspent(w, state)
  {
    var w' := DoNew(w, t, reading);
    if u :| WillIndex(w', u, state) {
      assert WillIndex(w, u, state);
    } else if r :| WaitsFor(w', r, state) {
      assert WaitsFor(w, r, state) || WillIndex(w, t, state);
    }
  }

  lemma PollWithin(w: World, id: string, what: Observation, state: string, n: nat)
    requires Named(w) && Within(w, state, n)
    ensures Within(DoPoll(w, id, what).0, state, n)
  {
    var w' := DoPoll(w, id, what).0;
    if id in w.store.byID && Unspent(w', state) { ExpiredUnspent(w, w.store.byID[id], state); }
    assert forall u :: Claimant(w', u, state) ==> Claimant(w, u, state);
    QuietWithin(w, w', state, n);
  }

  lemma TickWithin(w: World, reading: int, state: string, n: nat)
    requires Named(w) && Within(w, state, n)
    ensures Within(w.(now := reading), state, n)
  {
    var w' := w.(now := reading);
    assert forall u :: Claimant(w', u, state) <==> Claimant(w, u, state);
    if u :| WillIndex(w', u, state) { assert WillIndex(w, u, state); }
    if r :| WaitsFor(w', r, state) { assert WaitsFor(w, r, state); }
  }

  lemma StartWithin(w: World, a: Action, state: string, n: nat)
    requires Named(w) && a.Start? && CanStep(w, a, H1_ONLY) && Within(w, state, n)
    ensures Within(Apply(w, a).0, state, n)
  {
    var w' := Apply(w, a).0;
    if Emits(w.cfg, a.reply).Some? {
      assert forall u :: Claimant(w', u, state) <==> Claimant(w, u, state);
      if state == Emits(w.cfg, a.reply).value {
        UnissuedIsUnspent(w, state);
        assert WillIndex(w', a.t, state);
        OneMoreCall([], BeginCall(a.reply), state);
        assert [] + [BeginCall(a.reply)] == [BeginCall(a.reply)];
      } else {
        StartUnspent(w, a, state);
      }
    }
  }

  lemma StartUnspent(w: World, a: Action, state: string)
    requires Named(w) && a.Start? && CanStep(w, a, H1_ONLY) && Emits(w.cfg, a.reply).Some? && state != Emits(w.cfg, a.reply).value
    ensures Unspent(Apply(w, a).0, state) ==> Unspent(w, state)
    ensures Told(Apply(w, a).0, state) == Told(w, state)
  {
    var w' := Apply(w, a).0;
    if u :| WillIndex(w', u, state) { assert WillIndex(w, u, state); }
    if r :| WaitsFor(w', r, state) { assert WaitsFor(w, r, state); }
    if state in w.issued { assert IssuedHome(w, state); }
  }

  lemma AdvanceWithin(w: World, t: Tid, input: Input, state: string, n: nat)
    requires Named(w) && Enabled(w, Advance(t, input)) && FreshNames(w, Advance(t, input)) && Within(w, state, n)
    ensures Within(DoAdvance(w, t, input).0, state, n + (if StaleClaim(w, Advance(t, input), state) then 1 else 0))
  {
    match w.threads[t]
    case Starting(_, _, _, _, _, _) => NewWithin(w, t, input.reading, state, n);
    case Found(_, _) => ClaimWithin(w, t, state, n);
    case Driven(_, _, _, _, _) => ViewWithin(w, t, state, n);
    case Begun(_, _, _) => ReturnWithin(w, t, state, n);
    case Answered(_, _, _, _, _) => ReturnWithin(w, t, state, n);
    case _ => DriveWithin(w, t, input, state, n);
  }

  lemma StepWithin(w: World, a: Action, state: string, n: nat)
    requires Named(w) && CanStep(w, a, H1_ONLY) && Within(w, state, n)
    ensures Within(Apply(w, a).0, state, n + (if StaleClaim(w, a, state) then 1 else 0))
  {
    match a
    case Tick(reading) => TickWithin(w, reading, state, n);
    case Poll(id, what) => PollWithin(w, id, what, state, n);
    case Start(_, _, _, _, _, _) => StartWithin(w, a, state, n);
    case Callback(t, req) => LookupWithin(w, t, req, state, n);
    case Advance(t, input) => AdvanceWithin(w, t, input, state, n);
  }

  // --- Main results ----------------------------------------------------------------------------------

  /** The stale claims with `state` along the run. */
  ghost function StaleClaims(w: World, run: seq<Action>, state: string, assumed: Assumed): nat
    requires Admissible(w, run, assumed)
    decreases |run|
  {
    if run == [] then 0
    else (if StaleClaim(w, run[0], state) then 1 else 0) + StaleClaims(Apply(w, run[0]).0, run[1..], state, assumed)
  }

  lemma {:induction false} RunWithin(w: World, run: seq<Action>, state: string, n: nat, assumed: Assumed)
    requires Named(w) && Admissible(w, run, assumed) && assumed.h1 && Within(w, state, n)
    ensures Within(Exec(w, run, assumed), state, n + StaleClaims(w, run, state, assumed))
    decreases |run|
  {
    if run != [] {
      var a := run[0];
      StepNamed(w, a);
      StepWithin(w, a, state, n);
      RunWithin(Apply(w, a).0, run[1..], state, n + (if StaleClaim(w, a, state) then 1 else 0), assumed);
    }
  }

  lemma {:induction false} RunNamed(w: World, run: seq<Action>, assumed: Assumed)
    requires Named(w) && Admissible(w, run, assumed) && assumed.h1
    ensures Named(Exec(w, run, assumed))
    decreases |run|
  {
    if run != [] {
      StepNamed(w, run[0]);
      RunNamed(Apply(w, run[0]).0, run[1..], assumed);
    }
  }

  lemma ReachedNamed(w: World, assumed: Assumed)
    requires Reached(w, assumed) && assumed.h1
    ensures Named(w)
  {
    var w0: World, run: seq<Action> :| LeadsFromStart(w0, run, w, assumed);
    RunNamed(w0, run, assumed);
  }

  ghost predicate IsReturnOf(w: World, r: Ref, i: int, state: string) {
    r in w.hist && 0 <= i < |w.hist[r].calls| && w.hist[r].calls[i].RedirectCall? && w.hist[r].calls[i].state == state
  }

  /** `Told` counts all of them: every redirect resume with the state, in whatever session, is in the
      conversation of the session it was issued to. */
  lemma AllAreTold(w: World, r: Ref, i: int, state: string)
    requires Named(w) && IsReturnOf(w, r, i, state)
    ensures IssuedTo(w.issued, state, r) && Told(w, state) == Returns(w.hist[r].calls, state)
  {
    assert SessionNamed(w, r);
  }

  /** How often a state reaches the SDK, under H1 alone, with any callbacks, any clock and any race: at
      most once, plus once for every claim the run grants to a callback with that state on a session that
      no longer waits for it. */
  lemma ReturnsAreAccounted(w0: World, run: seq<Action>, state: string, assumed: Assumed)
    requires Initial(w0) && Admissible(w0, run, assumed) && assumed.h1
    ensures Told(Exec(w0, run, assumed), state) <= 1 + StaleClaims(w0, run, state, assumed)
  {
    RunWithin(w0, run, state, 0, assumed);
  }

  lemma {:induction false} NoneStale(w: World, run: seq<Action>, state: string, assumed: Assumed)
    requires Admissible(w, run, assumed) && assumed.h4
    ensures StaleClaims(w, run, state, assumed) == 0
    decreases |run|
  {
    if run != [] {
      NoneStale(Apply(w, run[0]).0, run[1..], state, assumed);
    }
  }

  lemma {:induction false} AtLeastOne(calls: seq<Call>, state: string, i: int)
    requires 0 <= i < |calls| && calls[i].RedirectCall? && calls[i].state == state
    ensures Returns(calls, state) >= 1
    decreases |calls|
  {
    if i < |calls| - 1 { AtLeastOne(calls[..|calls| - 1], state, i); }
  }

  lemma {:induction false} AtLeastTwo(calls: seq<Call>, state: string, i: int, j: int)
    requires 0 <= i < j < |calls|
    requires calls[i].RedirectCall? && calls[i].state == state && calls[j].RedirectCall? && calls[j].state == state
    ensures Returns(calls, state) >= 2
    decreases |calls|
  {
    if j < |calls| - 1 {
      AtLeastTwo(calls[..|calls| - 1], state, i, j);
    } else {
      AtLeastOne(calls[..|calls| - 1], state, i);
    }
  }

  /** So each OAuth state reaches the SDK at most once, in any session, whatever callbacks arrive, if no
      claim is stale: under H1 and H4 alone. */
  lemma OneShot(w: World, state: string, r: Ref, i: int, r': Ref, i': int)
    requires Reached(w, H1_H4) && IsReturnOf(w, r, i, state) && IsReturnOf(w, r', i', state)
    ensures r == r' && i == i'
  {
    var w0: World, run: seq<Action> :| LeadsFromStart(w0, run, w, H1_H4);
    RunNamed(w0, run, H1_H4);
    AllAreTold(w, r, i, state);
    AllAreTold(w, r', i', state);
    ReturnsAreAccounted(w0, run, state, H1_H4);
    NoneStale(w0, run, state, H1_H4);
    if i < i' {
      AtLeastTwo(w.hist[r].calls, state, i, i');
    } else if i' < i {
      AtLeastTwo(w.hist[r].calls, state, i', i);
    }
  }
}
