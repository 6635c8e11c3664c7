/** What one drain of a session may do to the job table and to the busy cache, and what that preserves. */
module DrainRules {
  import opened Types
  import opened JobRow
  import opened JobStore

  // A drain looks at this many pending jobs at a time.
  const WINDOW := 16

  function PendingSet(rows: Rows, s: SessionId): set<JobId> {
    set id | id in rows && rows[id].session == s && rows[id].status == Pending
  }

  function InFlightSerial(rows: Rows, s: SessionId): set<JobId> {
    set id | id in rows && rows[id].session == s && rows[id].mode == Serial && rows[id].status.InFlight()
  }

  predicate Precedes(rows: Rows, s: SessionId, a: JobId, b: JobId)
    requires a in rows && b in rows
  {
    Before(PendingOf(s), rows[a], rows[b])
  }

  /** The session's pending jobs strictly ahead of `id` in (priority, created_at) order. */
  function Ahead(rows: Rows, s: SessionId, id: JobId): set<JobId>
    requires id in rows
  {
    set k | k in rows && k in PendingSet(rows, s) && !Precedes(rows, s, id, k)
  }

  /** The session's pending serial jobs not behind `id`. */
  function SerialNotBehind(rows: Rows, s: SessionId, id: JobId): set<JobId>
    requires id in rows
  {
    set k | k in rows && k in PendingSet(rows, s) && rows[k].mode == Serial && Precedes(rows, s, k, id)
  }

  /** A drain may claim `id` now: the head of the queue when idle; when busy, the first
      fire-and-forget job, provided fewer than a window of jobs are ahead of it. */
  ghost predicate Choosable(rows: Rows, busy: bool, s: SessionId, id: JobId) {
    && id in PendingSet(rows, s)
    && if !busy then
         forall k :: k in PendingSet(rows, s) ==> Precedes(rows, s, id, k)
       else
         && rows[id].mode == FireAndForget
         && (forall k :: k in PendingSet(rows, s) && rows[k].mode == FireAndForget ==> Precedes(rows, s, id, k))
         && |Ahead(rows, s, id)| < WINDOW
  }

  /** Nothing more may be sent: an idle session has no pending job, and on a busy one every pending
      fire-and-forget job has a full window of serial jobs not behind it. */
  ghost predicate Settled(rows: Rows, busy: bool, s: SessionId) {
    if !busy then PendingSet(rows, s) == {}
    else forall f :: f in PendingSet(rows, s) && rows[f].mode == FireAndForget ==> |SerialNotBehind(rows, s, f)| >= WINDOW
  }

  /** The table after the jobs in `claims` were claimed at `now`. */
  function ClaimAll(rows: Rows, claims: seq<JobId>, now: Time): Rows {
    map id | id in rows :: if id in claims then Transitioned(rows[id], Dispatched, NO_PATCH, now) else rows[id]
  }

  predicate ClaimsSerial(rows: Rows, claims: seq<JobId>) {
    exists i :: 0 <= i < |claims| && claims[i] in rows && rows[claims[i]].mode == Serial
  }

  ghost predicate ChosenAt(rows: Rows, busy: bool, s: SessionId, claims: seq<JobId>, now: Time, i: nat)
    requires i < |claims|
  {
    Choosable(ClaimAll(rows, claims[..i], now), busy || ClaimsSerial(rows, claims[..i]), s, claims[i])
  }

  /** Each claim of the drain was choosable when it was made. */
  ghost predicate WellChosen(rows: Rows, busy: bool, s: SessionId, claims: seq<JobId>, now: Time) {
    forall i :: 0 <= i < |claims| ==> ChosenAt(rows, busy, s, claims, now, i)
  }

  function BusyAfter(rows: Rows, busy: set<SessionId>, s: SessionId, claims: seq<JobId>): set<SessionId> {
    if ClaimsSerial(rows, claims) then busy + {s} else busy
  }

  // ---- Single claims ----

  lemma ClaimOneMore(rows: Rows, claims: seq<JobId>, id: JobId, now: Time)
    requires id in rows && id !in claims
    ensures ClaimAll(rows, claims + [id], now) ==
            ClaimAll(rows, claims, now)[id := Transitioned(rows[id], Dispatched, NO_PATCH, now)]
  {
  }

  lemma ChooseOneMore(rows: Rows, busy: bool, s: SessionId, claims: seq<JobId>, id: JobId, now: Time)
    requires WellChosen(rows, busy, s, claims, now)
    requires Choosable(ClaimAll(rows, claims, now), busy || ClaimsSerial(rows, claims), s, id)
    ensures WellChosen(rows, busy, s, claims + [id], now)
    ensures id in rows && id !in claims
    ensures ClaimsSerial(rows, claims + [id]) <==> ClaimsSerial(rows, claims) || rows[id].mode == Serial
  {
    var more := claims + [id];
    forall i | 0 <= i < |more| ensures ChosenAt(rows, busy, s, more, now, i) {
      assert more[..i] == claims[..i];
      assert i < |claims| ==> ChosenAt(rows, busy, s, claims, now, i);
    }
    if ClaimsSerial(rows, claims) {
      var i :| 0 <= i < |claims| && claims[i] in rows && rows[claims[i]].mode == Serial;
      assert more[i] == claims[i];
    } else if rows[id].mode == Serial {
      assert more[|claims|] == id;
    }
  }

  /** A drain claims distinct pending jobs of its own session, at most one of them serial,
      and none if the session was busy. */
  lemma ClaimsAreSound(rows: Rows, busy: bool, s: SessionId, claims: seq<JobId>, now: Time)
    requires WellChosen(rows, busy, s, claims, now)
    ensures forall i :: 0 <= i < |claims| ==> claims[i] in rows && claims[i] in PendingSet(rows, s)
    ensures forall i, k :: 0 <= i < k < |claims| ==> claims[i] != claims[k]
    ensures forall i, k :: 0 <= i < k < |claims| ==> rows[claims[i]].mode == FireAndForget || rows[claims[k]].mode == FireAndForget
    ensures busy ==> forall i :: 0 <= i < |claims| ==> rows[claims[i]].mode == FireAndForget
  {
    forall k | 0 <= k < |claims| ensures
      && claims[k] in PendingSet(rows, s) && claims[k] !in claims[..k]
      && (busy || ClaimsSerial(rows, claims[..k]) ==> rows[claims[k]].mode == FireAndForget)
    {
      assert ChosenAt(rows, busy, s, claims, now, k);
    }
    forall i, k | 0 <= i < k < |claims|
      ensures claims[i] != claims[k]
      ensures rows[claims[i]].mode == FireAndForget || rows[claims[k]].mode == FireAndForget
    {
      assert claims[..k][i] == claims[i];
    }
  }

  // ---- From a page of the queue to a choice ----

  /** The scan stopped at `page[i]`: the head if idle, the first fire-and-forget job if busy. */
  lemma PickIsChoosable(rows: Rows, busy: bool, s: SessionId, page: seq<Job>, i: nat)
    requires Keyed(rows) && IsPage(page, rows, PendingOf(s), WINDOW) && i < |page|
    requires if busy then page[i].mode == FireAndForget else i == 0
    requires busy ==> forall k :: 0 <= k < i ==> page[k].mode == Serial
    ensures Choosable(rows, busy, s, page[i].id)
  {
    var id := page[i].id;
    if busy {
      var ahead := Ahead(rows, s, id);
      forall k | k in ahead ensures k in Ids(page[..i]) {
        assert rows[k] in page;
        var m :| 0 <= m < |page| && page[m] == rows[k];
        assert m < i;
        assert page[..i][m].id == k;
      }
      DistinctIds(page[..i]);
      SubsetSize(ahead, Ids(page[..i]));
      forall k | k in PendingSet(rows, s) && rows[k].mode == FireAndForget ensures Precedes(rows, s, id, k) {
        if rows[k] in page {
          var m :| 0 <= m < |page| && page[m] == rows[k];
          assert i <= m;
        }
      }
    } else {
      forall k | k in PendingSet(rows, s) ensures Precedes(rows, s, id, k) {
        if rows[k] in page {
          var m :| 0 <= m < |page| && page[m] == rows[k];
        }
      }
    }
  }

  /** The scan found nothing to send: the page is empty, or busy and all serial. */
  lemma NoPickSettles(rows: Rows, busy: bool, s: SessionId, page: seq<Job>)
    requires Keyed(rows) && IsPage(page, rows, PendingOf(s), WINDOW)
    requires page == [] || (busy && forall k :: 0 <= k < |page| ==> page[k].mode == Serial)
    ensures Settled(rows, busy, s)
  {
    forall f | f in PendingSet(rows, s)
      ensures busy && (rows[f].mode == FireAndForget ==> |SerialNotBehind(rows, s, f)| >= WINDOW)
    {
      assert Matches(PendingOf(s), rows[f]);
      assert page != [];
      if rows[f].mode == FireAndForget {
        assert rows[f] !in page;
        forall k | k in Ids(page) ensures k in SerialNotBehind(rows, s, f) {
          var m :| 0 <= m < |page| && page[m].id == k;
        }
        DistinctIds(page);
        SubsetSize(Ids(page), SerialNotBehind(rows, s, f));
      }
    }
  }

  // ---- Invariants of the table and the cache ----

  /** No phantom block: a session is marked busy only while one of its serial jobs is in flight. */
  ghost predicate NoPhantom(rows: Rows, busy: set<SessionId>) {
    forall s :: s in busy ==> InFlightSerial(rows, s) != {}
  }

  predicate AtMostOne(rows: Rows, s: SessionId) {
    forall a, b :: a in InFlightSerial(rows, s) && b in InFlightSerial(rows, s) ==> a == b
  }

  /** The cache is exact and serial jobs exclude each other. */
  ghost predicate SerialSync(rows: Rows, busy: set<SessionId>) {
    forall s :: (s in busy <==> InFlightSerial(rows, s) != {}) && AtMostOne(rows, s)
  }

  /** Work conservation over the sessions whose gate is open. */
  ghost predicate Conserved(rows: Rows, busy: set<SessionId>, open: set<SessionId>) {
    forall s :: s in open ==> Settled(rows, s in busy, s)
  }

  /** Same rows as far as session `s` is concerned. */
  ghost predicate SameFor(r0: Rows, r1: Rows, s: SessionId) {
    forall id :: (id in r0 && r0[id].session == s) || (id in r1 && r1[id].session == s) ==>
      id in r0 && id in r1 && SameQueueing(r0[id], r1[id])
  }

  /** The columns the dispatcher looks at agree. */
  predicate SameQueueing(a: Job, b: Job) {
    a.session == b.session && a.status == b.status && a.mode == b.mode && a.priority == b.priority && a.createdAt == b.createdAt
  }

  lemma SameForKeeps(r0: Rows, r1: Rows, s: SessionId)
    requires SameFor(r0, r1, s)
    ensures InFlightSerial(r0, s) == InFlightSerial(r1, s)
    ensures PendingSet(r0, s) == PendingSet(r1, s)
    ensures forall busy :: Settled(r0, busy, s) ==> Settled(r1, busy, s)
  {
    assert PendingSet(r0, s) == PendingSet(r1, s);
    forall f | f in PendingSet(r0, s) ensures SerialNotBehind(r0, s, f) == SerialNotBehind(r1, s, f) {
    }
  }

  lemma ClaimsTouchOneSession(rows: Rows, busy: bool, s: SessionId, claims: seq<JobId>, now: Time, other: SessionId)
    requires WellChosen(rows, busy, s, claims, now) && other != s
    ensures SameFor(rows, ClaimAll(rows, claims, now), other)
  {
    ClaimsAreSound(rows, busy, s, claims, now);
  }

  /** A drain never creates a phantom block. */
  lemma DrainKeepsNoPhantom(rows: Rows, busy: set<SessionId>, s: SessionId, claims: seq<JobId>, now: Time)
    requires NoPhantom(rows, busy) && WellChosen(rows, s in busy, s, claims, now)
    ensures NoPhantom(ClaimAll(rows, claims, now), BusyAfter(rows, busy, s, claims))
    ensures NoPhantom(ClaimAll(rows, claims, now), busy)
  {
    var after := ClaimAll(rows, claims, now);
    ClaimsAreSound(rows, s in busy, s, claims, now);
    forall t | t in BusyAfter(rows, busy, s, claims) ensures InFlightSerial(after, t) != {} {
      if t in busy {
        var k :| k in InFlightSerial(rows, t);
        assert k in InFlightSerial(after, t);
      } else {
        var i :| 0 <= i < |claims| && claims[i] in rows && rows[claims[i]].mode == Serial;
        assert claims[i] in InFlightSerial(after, s);
      }
    }
  }

  /** A drain that ran to its end leaves its own session settled and the others as they were. */
  lemma DrainConserves(rows: Rows, busy: set<SessionId>, s: SessionId, claims: seq<JobId>, now: Time, open: set<SessionId>)
    requires Conserved(rows, busy, open - {s}) && WellChosen(rows, s in busy, s, claims, now)
    requires s in open ==> Settled(ClaimAll(rows, claims, now), s in BusyAfter(rows, busy, s, claims), s)
    ensures Conserved(ClaimAll(rows, claims, now), BusyAfter(rows, busy, s, claims), open)
  {
    var after, busy' := ClaimAll(rows, claims, now), BusyAfter(rows, busy, s, claims);
    forall t | t in open ensures Settled(after, t in busy', t) {
      if t != s {
        ClaimsTouchOneSession(rows, s in busy, s, claims, now, t);
        SameForKeeps(rows, after, t);
      }
    }
  }

  /** The serial jobs in flight after a drain: those before it and the serial ones it claimed. */
  lemma InFlightGrows(rows: Rows, s: SessionId, claims: seq<JobId>, now: Time)
    requires forall i :: 0 <= i < |claims| ==> claims[i] in rows && claims[i] in PendingSet(rows, s)
    ensures forall k :: k in InFlightSerial(ClaimAll(rows, claims, now), s) <==>
              k in InFlightSerial(rows, s) || (k in claims && k in rows && rows[k].mode == Serial)
  {
    forall k | k in claims ensures k in rows && k in PendingSet(rows, s) {
      var i :| 0 <= i < |claims| && claims[i] == k;
    }
  }

  /** A drain adds a serial job in flight exactly if it claimed one, and it claims at most one. */
  lemma InFlightAfterDrain(rows: Rows, busy: bool, s: SessionId, claims: seq<JobId>, now: Time)
    requires WellChosen(rows, busy, s, claims, now)
    ensures InFlightSerial(rows, s) <= InFlightSerial(ClaimAll(rows, claims, now), s)
    ensures ClaimsSerial(rows, claims) <==> InFlightSerial(ClaimAll(rows, claims, now), s) != InFlightSerial(rows, s)
    ensures InFlightSerial(rows, s) == {} ==> AtMostOne(ClaimAll(rows, claims, now), s)
  {
    hide WellChosen, InFlightSerial, ClaimAll;
    ClaimsAreSound(rows, busy, s, claims, now);
    InFlightGrows(rows, s, claims, now);
    if ClaimsSerial(rows, claims) {
      var i :| 0 <= i < |claims| && claims[i] in rows && rows[claims[i]].mode == Serial;
      PendingIsNotInFlight(rows, s, claims[i]);
    }
  }

  lemma PendingIsNotInFlight(rows: Rows, s: SessionId, id: JobId)
    requires id in PendingSet(rows, s)
    ensures id !in InFlightSerial(rows, s)
  {
  }

  /** A drain keeps the cache exact and serial jobs exclusive. */
  lemma DrainKeepsSync(rows: Rows, busy: set<SessionId>, s: SessionId, claims: seq<JobId>, now: Time)
    requires SerialSync(rows, busy) && WellChosen(rows, s in busy, s, claims, now)
    ensures SerialSync(ClaimAll(rows, claims, now), BusyAfter(rows, busy, s, claims))
  {
    var after, busy' := ClaimAll(rows, claims, now), BusyAfter(rows, busy, s, claims);
    InFlightAfterDrain(rows, s in busy, s, claims, now);
    forall t ensures (t in busy' <==> InFlightSerial(after, t) != {}) && AtMostOne(after, t) {
      if t != s {
        ClaimsTouchOneSession(rows, s in busy, s, claims, now, t);
        SameForKeeps(rows, after, t);
        assert AtMostOne(rows, t);
      } else if s in busy {
        ClaimsAreSound(rows, true, s, claims, now);
        assert AtMostOne(rows, s);
      }
    }
  }

  // ---- Ending a job, then draining ----

  /** The table right after job `id` was moved to a terminal state. */
  ghost predicate Ends(r0: Rows, r1: Rows, id: JobId) {
    && id in r0 && !r0[id].status.Terminal()
    && r1.Keys == r0.Keys
    && r1[id].status.Terminal()
    && r1[id].session == r0[id].session && r1[id].mode == r0[id].mode
    && forall k :: k in r0 && k != id ==> r1[k] == r0[k]
  }

  lemma EndingFreesOthers(r0: Rows, r1: Rows, id: JobId, t: SessionId)
    requires Ends(r0, r1, id)
    ensures InFlightSerial(r1, t) == InFlightSerial(r0, t) - {id}
    ensures PendingSet(r1, t) == PendingSet(r0, t) - {id}
    ensures t != r0[id].session ==> SameFor(r0, r1, t)
  {
    assert forall k :: k in InFlightSerial(r1, t) ==> k in r0;
  }

  lemma EndingKeepsNoPhantom(r0: Rows, r1: Rows, busy: set<SessionId>, id: JobId)
    requires Ends(r0, r1, id) && NoPhantom(r0, busy)
    ensures NoPhantom(r1, busy - {r0[id].session})
  {
    forall t | t in busy - {r0[id].session} ensures InFlightSerial(r1, t) != {} {
      EndingFreesOthers(r0, r1, id, t);
      SameForKeeps(r0, r1, t);
    }
  }

  lemma EndingKeepsOthersSettled(r0: Rows, r1: Rows, busy: set<SessionId>, id: JobId, open: set<SessionId>)
    requires Ends(r0, r1, id) && Conserved(r0, busy, open)
    ensures Conserved(r1, busy - {r0[id].session}, open - {r0[id].session})
  {
    forall t | t in open - {r0[id].session} ensures Settled(r1, t in busy - {r0[id].session}, t) {
      EndingFreesOthers(r0, r1, id, t);
      SameForKeeps(r0, r1, t);
    }
  }

  /** Serial exclusion, exactly. notifyDone clears the busy mark without looking at which job ended,
      so after a job of session `s` ends and `s` is drained, the cache is exact and exclusive again
      if and only if no other serial job of `s` was in flight. */
  lemma SyncSurvivesEndingExactly(r0: Rows, r1: Rows, busy: set<SessionId>, id: JobId, claims: seq<JobId>, now: Time)
    requires SerialSync(r0, busy) && Ends(r0, r1, id)
    requires WellChosen(r1, false, r0[id].session, claims, now)
    ensures var s := r0[id].session;
            SerialSync(ClaimAll(r1, claims, now), BusyAfter(r1, busy - {s}, s, claims))
            <==> InFlightSerial(r0, s) <= {id}
  {
    var s := r0[id].session;
    var after, busy' := ClaimAll(r1, claims, now), BusyAfter(r1, busy - {s}, s, claims);
    EndingFreesOthers(r0, r1, id, s);
    if InFlightSerial(r0, s) <= {id} {
      forall t ensures (t in busy - {s} <==> InFlightSerial(r1, t) != {}) && AtMostOne(r1, t) {
        EndingFreesOthers(r0, r1, id, t);
        assert t != s ==> id !in InFlightSerial(r0, t);
        assert AtMostOne(r0, t);
      }
      assert SerialSync(r1, busy - {s});
      DrainKeepsSync(r1, busy - {s}, s, claims, now);
    } else {
      var k :| k in InFlightSerial(r0, s) && k != id;
      InFlightAfterDrain(r1, false, s, claims, now);
      assert k in InFlightSerial(after, s);
      if ClaimsSerial(r1, claims) {
        var q :| q in InFlightSerial(after, s) && q !in InFlightSerial(r1, s);
        assert !AtMostOne(after, s);
      } else {
        assert s !in busy';
      }
    }
  }
}
