/**
 Runs with one journey, told by what matters of the world: its record, its history, the threads and
 the states issued and handed out.
 */
module Scenes {
  import opened Basics
  import opened Steps
  import opened SessionStore
  import opened HttpApi
  import opened Protocol
  import opened Executions
  import opened Effects
  import opened Ledger
  import opened Custody

  datatype Scene = Scene(cfg: Config, now: int, rec: Record, threads: map<Tid, Thread>, h: Hist,
                         issued: map<string, Ref>, published: set<string>)

  ghost predicate Shows(w: World, s: Scene) {
    && Linked(w) && w.cfg == s.cfg && w.now == s.now && w.ids == map[s.h.id := 0]
    && w.store.heap == map[0 := s.rec] && w.store.byID == map[s.rec.correlationID := 0]
    && w.threads == s.threads && w.hist == map[0 := s.h] && w.issued == s.issued && w.published == s.published
  }

  ghost function Nothing(cfg: Config): World {
    World(cfg, 0, Store(map[], map[], map[]), map[], map[], map[], map[], {})
  }

  /** From an empty gateway the run leads to the scene, under the hypotheses assumed. */
  ghost predicate Stage(run: seq<Action>, s: Scene, assumed: Assumed) {
    exists w :: Leads(Nothing(s.cfg), run, w, assumed) && Shows(w, s)
  }

  lemma Plays(run: seq<Action>, w: World, a: Action, s: Scene, assumed: Assumed)
    requires Leads(Nothing(s.cfg), run, w, assumed) && CanStep(w, a, assumed) && Shows(Apply(w, a).0, s)
    ensures Stage(run + [a], s, assumed)
  {
    OneMore(Nothing(s.cfg), run, w, a, assumed);
  }

  lemma InOrder(cfg: Config, run: seq<Action>, w: World, assumed: Assumed)
    requires Leads(Nothing(cfg), run, w, assumed) && assumed.h1 && assumed.h2
    ensures Orderly(w)
  {
    assert LeadsFromStart(Nothing(cfg), run, w, assumed);
    ReachedCustody(w, assumed);
  }

  // --- A journey begins -------------------------------------------------------------------

  /** The journey is stored; its handle is still to be written. */
  ghost function Opened(cfg: Config, start: Action): Scene
    requires start.Start? && Emits(cfg, start.reply).Some?
  {
    var plan := Decide(cfg, start.reply.res);
    Scene(cfg, 0, Fresh(start.id, plan.state, start.clientState, start.conformance, 0, cfg.ttl),
          map[0 := Created(0, start.reply.res.handle, plan.url, plan.state)],
          Hist(start.id, [BeginCall(start.reply)], None, Some(0), 0, 0), map[plan.state := 0], {})
  }

  lemma Opens(cfg: Config, start: Action, assumed: Assumed)
    requires start.Start? && start.t == 0 && start.r == 0 && start.id != "" && Emits(cfg, start.reply).Some?
    ensures Stage([start] + [Advance(0, Clock(0))], Opened(cfg, start), assumed)
  {
    Asks(cfg, start, assumed);
    Asked(cfg, start);
    Stores([start], Apply(Nothing(cfg), start).0, Opened(cfg, start), assumed);
  }

  lemma Asks(cfg: Config, start: Action, assumed: Assumed)
    requires start.Start? && start.t == 0 && start.r == 0 && start.id != "" && Emits(cfg, start.reply).Some?
    ensures Leads(Nothing(cfg), [start], Apply(Nothing(cfg), start).0, assumed)
  {
    var w0 := Nothing(cfg);
    assert Leads(w0, [], w0, assumed);
    OneMore(w0, [], w0, start, assumed);
    assert [] + [start] == [start];
  }

  lemma Stores(run: seq<Action>, w: World, s: Scene, assumed: Assumed)
    requires Leads(Nothing(s.cfg), run, w, assumed) && Linked(w) && 0 in w.threads && w.threads[0].Starting? && w.now <= 0
    requires Shows(DoNew(w, 0, 0), s)
    ensures Stage(run + [Advance(0, Clock(0))], s, assumed)
  {
    Plays(run, w, Advance(0, Clock(0)), s, assumed);
  }

  /** After the SDK call of the start, and then after `New`. */
  lemma Asked(cfg: Config, start: Action)
    requires start.Start? && start.t == 0 && start.r == 0 && start.id != "" && Emits(cfg, start.reply).Some?
    ensures var w := Apply(Nothing(cfg), start).0;
            && Linked(w) && 0 in w.threads && w.threads[0].Starting? && w.now == 0
            && Shows(DoNew(w, 0, 0), Opened(cfg, start))
  {
    var w := Apply(Nothing(cfg), start).0;
    DecideIsSound(cfg, start.reply.res);
    NewShows(w, cfg, start);
  }

  lemma NewShows(w: World, cfg: Config, start: Action)
    requires start.Start? && start.t == 0 && start.r == 0 && Emits(cfg, start.reply).Some?
    requires var plan := Decide(cfg, start.reply.res);
             w == Nothing(cfg).(threads := map[0 := Starting(0, start.clientState, start.conformance, start.reply.res.handle, plan.url, plan.state)],
                                hist := map[0 := Hist(start.id, [BeginCall(start.reply)], None, Some(0), 0, 0)],
                                ids := map[start.id := 0], issued := map[plan.state := 0])
    ensures Shows(DoNew(w, 0, 0), Opened(cfg, start))
  {
    var w' := DoNew(w, 0, 0);
    assert w'.store.heap == map[0 := Opened(cfg, start).rec];
    assert w'.store.byID == map[start.id := 0];
    assert w'.threads == Opened(cfg, start).threads;
  }

  /** The end of a start hands its state out. */
  lemma Begins(run: seq<Action>, s: Scene, t: Tid, assumed: Assumed)
    requires Stage(run, s, assumed) && t in s.threads && s.threads[t].Begun? && s.threads[t].r == 0
    ensures Stage(run + [Advance(t, Idle)],
                  s.(threads := s.threads - {t}, h := s.h.(owner := None), published := s.published + {s.threads[t].state}), assumed)
  {
    var w :| Leads(Nothing(s.cfg), run, w, assumed) && Shows(w, s);
    var s' := s.(threads := s.threads - {t}, h := s.h.(owner := None), published := s.published + {s.threads[t].state});
    ReturnTouches(w, t);
    assert w.hist[0 := s.h.(owner := None)] == map[0 := s'.h];
    Plays(run, w, Advance(t, Idle), s', assumed);
  }

  // --- A call goes on ------------------------------------------------------------------

  /** The SDK's reply, if this is one, emits a state that is new. */
  ghost predicate NewState(s: Scene, input: Input) {
    input.Sdk? && Emits(s.cfg, input.reply).Some? ==> Emits(s.cfg, input.reply).value !in s.issued
  }

  ghost function IssuedAfter(s: Scene, th: Thread, input: Input): map<string, Ref>
    requires PutsOnly(th) && InputFits(th, input)
  {
    if (th.Claimed? || th.Responded?) && Emits(s.cfg, input.reply).Some? then s.issued[Emits(s.cfg, input.reply).value := th.r]
    else s.issued
  }

  ghost function GoneOn(s: Scene, t: Tid, input: Input): Scene
    requires t in s.threads && PutsOnly(s.threads[t]) && InputFits(s.threads[t], input)
  {
    var th := s.threads[t];
    s.(rec := NextRecord(th, s.rec), threads := s.threads[t := NextThread(s.cfg, th, input)], h := NextHist(th, s.h, input),
       issued := IssuedAfter(s, th, input))
  }

  lemma GoesOn(run: seq<Action>, s: Scene, t: Tid, input: Input, assumed: Assumed)
    requires Stage(run, s, assumed) && t in s.threads && s.threads[t].r == 0
    requires PutsOnly(s.threads[t]) && InputFits(s.threads[t], input) && NewState(s, input)
    ensures Stage(run + [Advance(t, input)], GoneOn(s, t, input), assumed)
  {
    var w :| Leads(Nothing(s.cfg), run, w, assumed) && Shows(w, s);
    WorldGoesOn(w, s, t, input);
    assert CanStep(w, Advance(t, input), assumed);
    Plays(run, w, Advance(t, input), GoneOn(s, t, input), assumed);
  }

  lemma WorldGoesOn(w: World, s: Scene, t: Tid, input: Input)
    requires Shows(w, s) && t in s.threads && s.threads[t].r == 0 && PutsOnly(s.threads[t]) && InputFits(s.threads[t], input)
    ensures Shows(DoAdvance(w, t, input).0, GoneOn(s, t, input))
  {
    AdvancePuts(w, t, input);
    SceneGoesOn(w, DoAdvance(w, t, input).0, s, t, input);
  }

  /** A step that needs nothing of the environment can always be taken. */
  lemma MayGoOn(w: World, s: Scene, t: Tid, assumed: Assumed)
    requires Shows(w, s) && t in s.threads && s.threads[t].r == 0 && PutsOnly(s.threads[t]) && InputFits(s.threads[t], Idle)
    ensures CanStep(w, Advance(t, Idle), assumed) && Shows(Apply(w, Advance(t, Idle)).0, GoneOn(s, t, Idle))
  {
    WorldGoesOn(w, s, t, Idle);
  }

  lemma SceneGoesOn(w: World, w': World, s: Scene, t: Tid, input: Input)
    requires Shows(w, s) && t in s.threads && s.threads[t].r == 0 && PutsOnly(s.threads[t]) && InputFits(s.threads[t], input)
    requires Advances(w, w', t, input)
    ensures Shows(w', GoneOn(s, t, input))
  {
    var th := s.threads[t];
    NextKeepsNames(s.cfg, th, s.rec, s.h, input);
    PutShows(w, w', s, t, NextThread(s.cfg, th, input), NextRecord(th, s.rec), NextHist(th, s.h, input));
    assert w'.issued == IssuedAfter(s, th, input);
  }

  lemma NextKeepsNames(cfg: Config, th: Thread, rec: Record, h: Hist, input: Input)
    requires PutsOnly(th) && InputFits(th, input)
    ensures NextThread(cfg, th, input).r == th.r && !NextThread(cfg, th, input).Starting?
    ensures NextRecord(th, rec).correlationID == rec.correlationID && NextHist(th, h, input).id == h.id
  {
  }

  lemma PutShows(w: World, w': World, s: Scene, t: Tid, th: Thread, rec: Record, h: Hist)
    requires Shows(w, s) && Puts(w, w', t, th, rec, h) && th.r == 0 && !th.Starting?
    requires rec.correlationID == s.rec.correlationID && h.id == s.h.id
    ensures Shows(w', s.(rec := rec, threads := s.threads[t := th], h := h, issued := w'.issued))
  {
    PutLinks(w, w', t, th, rec, h);
    assert w.store.heap[0 := rec] == map[0 := rec];
    assert w.hist[0 := h] == map[0 := h];
  }

  lemma PutLinks(w: World, w': World, t: Tid, th: Thread, rec: Record, h: Hist)
    requires Linked(w) && Puts(w, w', t, th, rec, h) && th.r in w.store.heap && th.r in w.hist && !th.Starting?
    ensures Linked(w')
  {
  }

  // --- Claims -----------------------------------------------------------------------------

  ghost function Taken(s: Scene, t: Tid): Scene
    requires t in s.threads && s.threads[t].Found?
  {
    s.(rec := s.rec.(resuming := true, oauthState := ""), threads := s.threads[t := Claimed(0, s.threads[t].req, s.rec.handle)],
       h := s.h.(owner := Some(t), claims := s.h.claims + 1))
  }

  lemma Takes(run: seq<Action>, s: Scene, t: Tid, assumed: Assumed)
    requires Stage(run, s, assumed) && t in s.threads && s.threads[t].Found? && s.threads[t].r == 0
    requires !s.rec.status.Terminal() && !s.rec.resuming && !PastDeadline(s.rec, s.now)
    requires assumed.h4 ==> s.rec.oauthState == s.threads[t].req.state
    ensures Stage(run + [Advance(t, Idle)], Taken(s, t), assumed)
  {
    var w :| Leads(Nothing(s.cfg), run, w, assumed) && Shows(w, s);
    WorldTakes(w, s, t);
    Plays(run, w, Advance(t, Idle), Taken(s, t), assumed);
  }

  lemma WorldTakes(w: World, s: Scene, t: Tid)
    requires Shows(w, s) && t in s.threads && s.threads[t].Found? && s.threads[t].r == 0
    requires !s.rec.status.Terminal() && !s.rec.resuming && !PastDeadline(s.rec, s.now)
    ensures Shows(DoClaim(w, t), Taken(s, t))
  {
    ClaimPuts(w, t);
    PutShows(w, DoClaim(w, t), s, t, Claimed(0, s.threads[t].req, s.rec.handle), s.rec.(resuming := true, oauthState := ""),
             s.h.(owner := Some(t), claims := s.h.claims + 1));
  }

  // --- Callbacks, polls, the clock, returns --------------------------------------------------

  lemma LookedUp(run: seq<Action>, s: Scene, t: Tid, req: Request, assumed: Assumed)
    requires Stage(run, s, assumed) && t !in s.threads && Valid(req) && s.rec.oauthState == req.state && !Due(s.rec, s.now)
    requires assumed.h1 && assumed.h2 && (assumed.h3 ==> req.state in s.published)
    ensures Stage(run + [Callback(t, req)], s.(threads := s.threads[t := Found(0, req)]), assumed)
  {
    var w :| Leads(Nothing(s.cfg), run, w, assumed) && Shows(w, s);
    OrderlyLooksUp(run, w, s, t, req, assumed);
    Plays(run, w, Callback(t, req), s.(threads := s.threads[t := Found(0, req)]), assumed);
  }

  /** The lookup of the state the journey waits for finds it. */
  lemma Finds(w: World, s: Scene, state: string)
    requires Shows(w, s) && Orderly(w) && s.rec.oauthState == state != "" && !Due(s.rec, s.now)
    ensures GetByState(w.store, state, w.now).1 == Some(0)
  {
    LookupIsScan(w.store, state, w.now, 0);
  }

  lemma WorldLooksUp(w: World, s: Scene, t: Tid, req: Request)
    requires Shows(w, s) && Orderly(w) && t !in s.threads && Valid(req) && s.rec.oauthState == req.state && !Due(s.rec, s.now)
    ensures Shows(DoLookup(w, t, req).0, s.(threads := s.threads[t := Found(0, req)])) && DoLookup(w, t, req).1 == None
  {
    Finds(w, s, req.state);
    LookupTouches(w, t, req);
  }

  lemma OrderlyLooksUp(run: seq<Action>, w: World, s: Scene, t: Tid, req: Request, assumed: Assumed)
    requires Leads(Nothing(s.cfg), run, w, assumed) && assumed.h1 && assumed.h2 && Shows(w, s)
    requires t !in s.threads && Valid(req) && s.rec.oauthState == req.state && !Due(s.rec, s.now)
    ensures Shows(DoLookup(w, t, req).0, s.(threads := s.threads[t := Found(0, req)])) && DoLookup(w, t, req).1 == None
  {
    InOrder(s.cfg, run, w, assumed);
    WorldLooksUp(w, s, t, req);
  }

  /** A lookup of a state the journey does not wait for, or no longer, is refused. */
  lemma Misses(run: seq<Action>, w: World, s: Scene, t: Tid, req: Request, assumed: Assumed)
    requires Leads(Nothing(s.cfg), run, w, assumed) && assumed.h1 && assumed.h2 && Shows(w, s)
    requires t !in s.threads && Valid(req) && (s.rec.oauthState != req.state || Due(s.rec, s.now))
    ensures DoLookup(w, t, req).1 == Some(UnknownState)
  {
    InOrder(s.cfg, run, w, assumed);
    MissesNow(w, s, req.state);
  }

  lemma MissesNow(w: World, s: Scene, state: string)
    requires Shows(w, s) && Orderly(w) && (s.rec.oauthState != state || Due(s.rec, s.now))
    ensures GetByState(w.store, state, w.now).1 == None
  {
    var found := GetByState(w.store, state, w.now).1;
    if found.Some? {
      LookupIsScan(w.store, state, w.now, found.value);
    }
  }

  ghost function LookedAt(s: Scene): Scene {
    s.(rec := if Due(s.rec, s.now) then Lapsed(s.rec) else s.rec)
  }

  /** A poll of the journey applies expiry. */
  lemma IsPolled(run: seq<Action>, s: Scene, what: Observation, assumed: Assumed)
    requires Stage(run, s, assumed)
    ensures Stage(run + [Poll(s.rec.correlationID, what)], LookedAt(s), assumed)
  {
    var w :| Leads(Nothing(s.cfg), run, w, assumed) && Shows(w, s);
    WorldIsPolled(w, s, what);
    Plays(run, w, Poll(s.rec.correlationID, what), LookedAt(s), assumed);
  }

  lemma WorldIsPolled(w: World, s: Scene, what: Observation)
    requires Shows(w, s)
    ensures Shows(DoPoll(w, s.rec.correlationID, what).0, LookedAt(s))
  {
    var w' := DoPoll(w, s.rec.correlationID, what).0;
    assert w' == Expired(w, 0);
    ExpiredShows(w, s);
  }

  lemma ExpiredShows(w: World, s: Scene)
    requires Shows(w, s)
    ensures Shows(Expired(w, 0), LookedAt(s))
  {
    assert Expired(w, 0).store.heap == map[0 := LookedAt(s).rec];
  }

  lemma Ticked(run: seq<Action>, s: Scene, reading: int, assumed: Assumed)
    requires Stage(run, s, assumed) && s.now <= reading
    ensures Stage(run + [Tick(reading)], s.(now := reading), assumed)
  {
    var w :| Leads(Nothing(s.cfg), run, w, assumed) && Shows(w, s);
    Plays(run, w, Tick(reading), s.(now := reading), assumed);
  }

  /** A run that meets more hypotheses meets fewer. */
  lemma StageUnderFewer(run: seq<Action>, s: Scene, more: Assumed, fewer: Assumed)
    requires Stage(run, s, more)
    requires (fewer.h1 ==> more.h1) && (fewer.h2 ==> more.h2) && (fewer.h3 ==> more.h3) && (fewer.h4 ==> more.h4)
    ensures Stage(run, s, fewer)
  {
    var w :| Leads(Nothing(s.cfg), run, w, more) && Shows(w, s);
    LeadsUnderFewer(Nothing(s.cfg), run, w, more, fewer);
  }
}
