/** A step that touches one session and one thread keeps every journey in its place. */
module Preservation {
  import opened Basics
  import opened Steps
  import opened SessionStore
  import opened HttpApi
  import opened Protocol
  import opened Effects
  import opened Ledger
  import opened Custody
  import opened Invariant

  /** Session `r` keeps what other threads rely on. */
  ghost predicate KeepsBasics(w: World, w': World, r: Ref)
    requires r in w.hist && r in w'.hist && r in w.store.heap && r in w'.store.heap
  {
    var rec, rec' := w.store.heap[r], w'.store.heap[r];
    && w'.hist[r].id == w.hist[r].id
    && rec'.correlationID == rec.correlationID && rec'.expiresAt == rec.expiresAt && rec'.clientState == rec.clientState
    && (w.hist[r].settled.Some? ==> w'.hist[r].settled == w.hist[r].settled)
  }

  /** The active call changes only from or to thread `t`. */
  ghost predicate OwnerMoves(w: World, w': World, r: Ref, t: Tid)
    requires r in w.hist && r in w'.hist
  {
    || w'.hist[r].owner == w.hist[r].owner
    || ((w.hist[r].owner == None || w.hist[r].owner == Some(t)) && (w'.hist[r].owner == None || w'.hist[r].owner == Some(t)))
  }

  lemma OtherSession(w: World, w': World, r: Ref, t: Tid, r': Ref)
    requires Journeys(w) && Local(w, w', r, t) && r' in w.hist && r' != r
    requires t in w.threads ==> w.threads[t].r == r
    ensures SessionAt(w', r') && OwnerLive(w', r')
  {
    assert SessionAt(w, r') && OwnerLive(w, r');
  }

  lemma OtherThread(w: World, w': World, r: Ref, t: Tid, t': Tid)
    requires Journeys(w) && Local(w, w', r, t) && Linked(w') && t' in w'.threads && t' != t
    requires r in w.hist && r in w.store.heap && KeepsBasics(w, w', r) && OwnerMoves(w, w', r, t)
    ensures ThreadAt(w', t')
  {
    assert ThreadAt(w, t');
  }

  /** The active call on the touched session is a live thread. */
  lemma OwnerStaysLive(w: World, w': World, r: Ref, t: Tid)
    requires Journeys(w) && Local(w, w', r, t)
    requires r in w.hist && OwnerMoves(w, w', r, t)
    requires w'.hist[r].owner == Some(t) <==> t in w'.threads && Owns(w'.threads[t])
    requires t in w'.threads ==> w'.threads[t].r == r
    ensures OwnerLive(w', r)
  {
    assert OwnerLive(w, r);
  }

  lemma LinksStay(w: World, w': World, r: Ref, t: Tid)
    requires Linked(w) && Local(w, w', r, t)
    requires r in w.hist && r in w.store.heap
    requires t in w'.threads ==> w'.threads[t].r == r && !w'.threads[t].Starting?
    ensures Linked(w')
  {
    forall u | u in w'.threads
      ensures w'.threads[u].r in w'.hist && (w'.threads[u].Starting? || w'.threads[u].r in w'.store.heap)
    {
      if u != t { assert w'.threads[u] == w.threads[u]; }
    }
  }

  /** A step that touches one session and one thread keeps the journeys if it keeps that one. */
  lemma LocalJourneys(w: World, w': World, r: Ref, t: Tid)
    requires Journeys(w) && Local(w, w', r, t)
    requires r in w.hist && r in w.store.heap && KeepsBasics(w, w', r) && OwnerMoves(w, w', r, t)
    requires t in w.threads ==> w.threads[t].r == r
    requires t in w'.threads ==> w'.threads[t].r == r && !w'.threads[t].Starting?
    requires w'.hist[r].owner == Some(t) <==> t in w'.threads && Owns(w'.threads[t])
    requires SessionAt(w', r)
    requires t in w'.threads ==> BystanderOk(w'.now, r, w'.store.heap[r], w'.hist[r], w'.threads[t], w'.published, w'.issued)
    ensures Journeys(w')
  {
    LinksStay(w, w', r, t);
    forall r' | r' in w'.hist ensures SessionAt(w', r') && OwnerLive(w', r') {
      if r' != r { OtherSession(w, w', r, t, r'); } else { OwnerStaysLive(w, w', r, t); }
    }
    forall t' | t' in w'.threads ensures ThreadAt(w', t') {
      if t' != t { OtherThread(w, w', r, t, t'); }
    }
  }

  /** A step of the active call on a session: only what it leaves of that session matters. */
  lemma PutJourneys(w: World, w': World, t: Tid, th: Thread, rec: Record, h: Hist)
    requires Journeys(w) && t in w.threads && th.r == w.threads[t].r && th.r in w.store.heap && th.r in w.hist
    requires Owns(w.threads[t]) && Owns(th) && !th.Starting?
    requires Puts(w, w', t, th, rec, h) && Grows(w.issued, w'.issued)
    requires h.id == w.hist[th.r].id && h.owner == w.hist[th.r].owner
    requires w.hist[th.r].settled.Some? ==> h.settled == w.hist[th.r].settled
    requires var was := w.store.heap[th.r];
             rec.correlationID == was.correlationID && rec.expiresAt == was.expiresAt && rec.clientState == was.clientState
    requires SessionOk(w.cfg, w.now, Stored(w.store, th.r), th.r, rec, h, Some(th), w.published, w'.issued)
    ensures Journeys(w')
  {
    assert ThreadAt(w, t);
    assert Stored(w'.store, th.r) == Stored(w.store, th.r);
    PutLocal(w, w', t, th, rec, h);
    LocalJourneys(w, w', th.r, t);
  }

  // --- Expiry ------------------------------------------------------------------

  /** Whatever the active call is doing, expiry leaves the session as the invariant describes it. */
  lemma LapseSession(cfg: Config, now: int, stored: bool, r: Ref, rec: Record, h: Hist, owner: Option<Thread>,
                     published: set<string>, issued: map<string, Ref>)
    requires SessionOk(cfg, now, stored, r, rec, h, owner, published, issued) && Due(rec, now)
    ensures SessionOk(cfg, now, stored, r, Lapsed(rec), h, owner, published, issued)
  {
  }

  /** Lazy expiry keeps the journeys wherever the active call is. */
  lemma ExpireJourneys(w: World, r: Ref)
    requires Journeys(w) && r in w.store.heap
    ensures Journeys(Expired(w, r))
  {
    var w' := Expired(w, r);
    if Due(w.store.heap[r], w.now) {
      forall r' | r' in w'.hist ensures SessionAt(w', r') && OwnerLive(w', r') {
        ExpireSession(w, r, r');
      }
      forall t | t in w'.threads ensures ThreadAt(w', t) {
        assert ThreadAt(w, t);
      }
    }
  }

  lemma ExpireSession(w: World, r: Ref, r': Ref)
    requires Journeys(w) && r in w.store.heap && Due(w.store.heap[r], w.now) && r' in w.hist
    ensures SessionAt(Expired(w, r), r') && OwnerLive(Expired(w, r), r')
  {
    assert SessionAt(w, r') && OwnerLive(w, r');
    if r' == r {
      LapseAt(w, r);
    } else {
      SameSession(w, Expired(w, r), r');
    }
  }

  lemma LapseAt(w: World, r: Ref)
    requires r in w.hist && r in w.store.heap && SessionAt(w, r) && Due(w.store.heap[r], w.now)
    ensures SessionAt(Expired(w, r), r)
  {
    assert Stored(Expired(w, r).store, r) == Stored(w.store, r);
    LapseSession(w.cfg, w.now, Stored(w.store, r), r, w.store.heap[r], w.hist[r], Owner(w, r), w.published, w.issued);
  }

  /** A session is as it was if nothing that is said of it has changed. */
  lemma SameSession(w: World, w': World, r: Ref)
    requires r in w.hist && SessionAt(w, r) && r in w'.hist && w'.hist[r] == w.hist[r] && Owner(w', r) == Owner(w, r)
    requires w'.cfg == w.cfg && w'.now == w.now && w'.published == w.published && w'.issued == w.issued
    requires r in w.store.heap <==> r in w'.store.heap
    requires r in w.store.heap ==> w'.store.heap[r] == w.store.heap[r] && Stored(w'.store, r) == Stored(w.store, r)
    ensures SessionAt(w', r)
  {
  }
}
