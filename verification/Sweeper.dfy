/** The periodic sweep: evict silent sessions, expire a batch, orphan a batch (sweeper.ts). */
module Sweeper {
  import opened Types
  import opened JobRow
  import opened JobStore
  import opened DrainRules
  import opened DrainOutcome
  import opened SessionRegistry
  import opened Routing
  import opened SocketServer
  import opened Dispatcher
  import opened JobService
  import opened SweepRules
  import opened Deeds

  // How long an in-flight job has been out; created_at stands in for a missing dispatched_at.
  function OutSince(j: Job): Time {
    if j.dispatchedAt.Some? then j.dispatchedAt.value else j.createdAt
  }

  ghost predicate AllEndedAs(rows: Rows, ids: set<JobId>, to: Status, now: Time) {
    forall id :: id in ids ==> id in rows && rows[id].status == to && rows[id].completedAt == Some(now)
  }

  lemma EndedStaysEnded(r0: Rows, r1: Rows, ids: set<JobId>, to: Status, now: Time)
    requires AllEndedAs(r0, ids, to, now) && Evolves(r0, r1) && to.Terminal()
    ensures AllEndedAs(r1, ids, to, now)
  {
    forall id | id in ids ensures id in r1 && r1[id].status == to && r1[id].completedAt == Some(now) {
      assert RowEvolves(r0[id], r1[id]);
    }
  }

  /** Ending one job and then claiming others ends exactly that job: claims never end anything. */
  lemma EndThenClaims(rows: Rows, id: JobId, row: Job, busy: bool, s: SessionId, claims: seq<JobId>, now: Time)
    requires id in rows && row.status.Terminal() && WellChosen(rows[id := row], busy, s, claims, now)
    ensures ClaimAll(rows[id := row], [], now) == rows[id := row]
    ensures var after := ClaimAll(rows[id := row], claims, now);
            && after[id] == row
            && forall k :: k in rows ==> (after[k].status.Terminal() <==> rows[k].status.Terminal() || k == id)
  {
    ClaimsAreSound(rows[id := row], busy, s, claims, now);
  }

  /** One mark: exactly that job ends, whatever its drain claims; a closed gate claims nothing. */
  lemma MarkEndsOne(w0: World, w1: World, log0: seq<Event>, log1: seq<Event>, open: bool,
                    id: JobId, to: Status, patch: Patch, claims: seq<JobId>, now: Time)
    requires EndOutcome(w0, w1, log0, log1, open, id, to, patch, claims, now) && CanEnd(w0.rows, id)
    requires to.Terminal() && w1.rows.Keys == w0.rows.Keys && Evolves(w0.rows, w1.rows)
    ensures EndsExactly(w0.rows, w1.rows, {id}) && AllEndedAs(w1.rows, {id}, to, now)
    ensures !open ==> w1.rows == w0.rows[id := Transitioned(w0.rows[id], to, patch, now)]
  {
    hide Evolves, Settled, ClaimAll, BusyAfter, Wrote, Messages, RouteOf;
    var row, s := Transitioned(w0.rows[id], to, patch, now), w0.rows[id].session;
    EndThenClaims(w0.rows, id, row, s in w0.busy - {s}, s, claims, now);
  }

  /** The invariant of both marking loops: since `w0`, exactly `ids` were ended, as `to`, at `now`. */
  ghost predicate Marking(w0: World, w: World, ids: set<JobId>, to: Status, open: set<SessionId>, now: Time) {
    && Safe(w, now)
    && EndsExactly(w0.rows, w.rows, ids)
    && AllEndedAs(w.rows, ids, to, now)
    && (Orderly(w0, open) ==> Orderly(w, open))
  }

  lemma NothingMarked(w: World, to: Status, open: set<SessionId>, before: Time, now: Time)
    requires Safe(w, before) && before <= now
    ensures Marking(w, w, {}, to, open, now)
  {
  }

  lemma MarkableStill(w0: World, w: World, ids: set<JobId>, id: JobId, to: Status, open: set<SessionId>, now: Time)
    requires Marking(w0, w, ids, to, open, now) && to in {Expired, Orphaned}
    requires Markable(w0.rows, id, to, now) && id !in ids
    ensures CanEnd(w.rows, id) && w.rows[id].session == w0.rows[id].session && Edge(w.rows[id].status, to)
    ensures to == Expired ==> w.rows[id].expiresAt <= now
  {
    assert RowEvolves(w0.rows[id], w.rows[id]);
  }

  // A job its phase may end: due, or in flight.
  predicate Markable(rows: Rows, id: JobId, to: Status, now: Time) {
    id in rows && !rows[id].status.Terminal() && if to == Expired then rows[id].expiresAt <= now else rows[id].status.InFlight()
  }

  lemma MarkOneRow(w0: World, w: World, w1: World, log0: seq<Event>, log1: seq<Event>, ids: set<JobId>, id: JobId,
                   to: Status, patch: Patch, open: set<SessionId>, claims: seq<JobId>, now: Time)
    requires Marking(w0, w, ids, to, open, now) && to in {Expired, Orphaned}
    requires Markable(w0.rows, id, to, now) && id !in ids
    requires EndOutcome(w, w1, log0, log1, id in w.rows && w.rows[id].session in open, id, to, patch, claims, now)
    ensures Safe(w1, now) && EndsExactly(w0.rows, w1.rows, ids + {id}) && AllEndedAs(w1.rows, ids + {id}, to, now)
    ensures id in w.rows && w.rows[id].session == w0.rows[id].session
    ensures w0.rows[id].session !in open ==> w1.rows == w.rows[id := Transitioned(w.rows[id], to, patch, now)]
  {
    hide Safe, Orderly, Evolves, Edge, EndOutcome, Transitioned, EndsExactly;
    MarkableStill(w0, w, ids, id, to, open, now);
    var gate := w.rows[id].session in open;
    EndOutcomeIsSafe(w, w1, log0, log1, gate, id, to, patch, claims, now, now);
    MarkEndsOne(w, w1, log0, log1, gate, id, to, patch, claims, now);
    EndsExactlyThen(w0.rows, w.rows, w1.rows, ids, {id});
    EndedStaysEnded(w.rows, w1.rows, ids, to, now);
  }

  lemma MarkOne(w0: World, w: World, w1: World, log0: seq<Event>, log1: seq<Event>, ids: set<JobId>, id: JobId,
                to: Status, patch: Patch, open: set<SessionId>, claims: seq<JobId>, now: Time)
    requires Marking(w0, w, ids, to, open, now) && to in {Expired, Orphaned}
    requires Markable(w0.rows, id, to, now) && id !in ids
    requires EndOutcome(w, w1, log0, log1, id in w.rows && w.rows[id].session in open, id, to, patch, claims, now)
    ensures Marking(w0, w1, ids + {id}, to, open, now)
    ensures w0.rows[id].session !in open ==> KeptBut(w0.rows, w.rows, w1.rows, id)
  {
    hide Safe, Orderly, EndsExactly, AllEndedAs, EndOutcome;
    MarkOneRow(w0, w, w1, log0, log1, ids, id, to, patch, open, claims, now);
    if Orderly(w, open) {
      EndOutcomeIsOrderly(w, w1, log0, log1, open, id, to, patch, claims, now);
    }
    KeysStay(w0, w, ids, to, open, now);
  }

  lemma KeysStay(w0: World, w: World, ids: set<JobId>, to: Status, open: set<SessionId>, now: Time)
    requires Marking(w0, w, ids, to, open, now)
    ensures w.rows.Keys == w0.rows.Keys && Safe(w, now)
  {
  }

  /** What one sweep does to the table; `mid` is the table between expiring and orphaning. */
  ghost predicate SweptTable(r0: Rows, mid: Rows, r1: Rows, expired: seq<Job>, orphaned: set<JobId>,
                             open: set<SessionId>, batch: nat, grace: int, now: Time)
  {
    // Exactly the first batch of due jobs expires, and exactly `orphaned` are orphaned.
    && IsPage(expired, r0, DueBy(now), batch)
    && EndsExactly(r0, mid, Ids(expired)) && EndsExactly(mid, r1, orphaned)
    && AllEndedAs(r1, Ids(expired), Expired, now) && AllEndedAs(r1, orphaned, Orphaned, now)
    // None of them early or on an attached session; created_at is never the reference.
    && (forall id :: id in orphaned ==>
          id in r1 && r1[id].session !in open && r1[id].dispatchedAt.Some? && now - r1[id].dispatchedAt.value >= grace)
    // And no such job is left behind when the list of jobs in flight was not cut short.
    && (|InFlightIds(mid)| <= ListLimit(batch) ==>
          forall id :: id in r1 && r1[id].status.InFlight() && r1[id].session !in open ==>
            r1[id].dispatchedAt.Some? && now - r1[id].dispatchedAt.value < grace)
  }

  /** A sweep leaves at most the excess over one batch due, and brings every due job nearer to its end. */
  lemma SweepShrinksDue(r0: Rows, mid: Rows, r1: Rows, expired: seq<Job>, orphaned: set<JobId>,
                        open: set<SessionId>, batch: nat, grace: int, now: Time)
    requires Keyed(r0) && SweptTable(r0, mid, r1, expired, orphaned, open, batch, grace, now)
    ensures |Due(r1, now)| <= if |Due(r0, now)| > batch then |Due(r0, now)| - batch else 0
    ensures SweepStep(r0, r1, now, batch)
  {
    EndsExactlyThen(r0, mid, r1, Ids(expired), orphaned);
    SweepMakesProgress(r0, r1, expired, batch, now, Ids(expired) + orphaned);
    BatchReducesDue(r0, mid, expired, batch, now);
    forall id | id in mid ensures r1[id].expiresAt == mid[id].expiresAt {
      assert RowEvolves(mid[id], r1[id]);
    }
    SubsetSize(Due(r1, now), Due(mid, now));
  }

  predicate Unreachable(j: Job, open: set<SessionId>, grace: int, now: Time) {
    j.status.InFlight() && j.session !in open && now - OutSince(j) >= grace
  }

  /** Only unreachable jobs were orphaned, nothing else changed, and all of them were if the list was not cut short. */
  ghost predicate OrphansExactly(r0: Rows, r1: Rows, orphaned: set<JobId>, open: set<SessionId>, limit: nat, grace: int, now: Time) {
    && (forall id :: id in orphaned ==> id in r0 && Unreachable(r0[id], open, grace, now))
    && (forall id :: id in r0 && id !in orphaned ==> id in r1 && r1[id] == r0[id])
    && (|InFlightIds(r0)| <= limit ==> forall id :: id in r0 && Unreachable(r0[id], open, grace, now) ==> id in orphaned)
  }

  /** The orphaning loop after `k` of the listed jobs. */
  ghost predicate Orphaning(r0: Rows, r: Rows, listed: seq<Job>, k: nat, orphaned: set<JobId>,
                            open: set<SessionId>, grace: int, now: Time)
  {
    && k <= |listed|
    && (forall id :: id in orphaned ==> id in Ids(listed[..k]) && id in r0 && Unreachable(r0[id], open, grace, now))
    && (forall id :: id in r0 && id !in orphaned ==> id in r && r[id] == r0[id])
    && (forall m :: 0 <= m < k && Unreachable(listed[m], open, grace, now) ==> listed[m].id in orphaned)
  }

  ghost predicate KeptBut(r0: Rows, r: Rows, r': Rows, id: JobId) {
    forall k :: k in r0 && k != id && k in r ==> k in r' && r'[k] == r[k]
  }

  lemma OrphaningStarts(rows: Rows, listed: seq<Job>, open: set<SessionId>, grace: int, now: Time)
    ensures Orphaning(rows, rows, listed, 0, {}, open, grace, now)
  {
  }

  lemma ListedIsMarkable(r0: Rows, r: Rows, listed: seq<Job>, limit: nat, k: nat, orphaned: set<JobId>,
                         open: set<SessionId>, grace: int, now: Time)
    requires IsPage(listed, r0, InFlightJobs, limit) && k < |listed|
    requires Orphaning(r0, r, listed, k, orphaned, open, grace, now)
    ensures Markable(r0, listed[k].id, Orphaned, now) && r0[listed[k].id] == listed[k] && listed[k].id !in orphaned
  {
    IdsOneMore(listed, k);
  }

  function WithOrphan(job: Job, ids: set<JobId>, open: set<SessionId>, grace: int, now: Time): set<JobId> {
    if Unreachable(job, open, grace, now) then ids + {job.id} else ids
  }

  lemma PageIdsGrow(page: seq<Job>, rows: Rows, q: Query, limit: nat, k: nat)
    requires IsPage(page, rows, q, limit) && k < |page|
    ensures Ids(page[..k + 1]) == Ids(page[..k]) + {page[k].id}
    ensures page[k].id in rows && rows[page[k].id] == page[k]
  {
    IdsOneMore(page, k);
  }

  lemma OrphaningGoesOn(r0: Rows, r: Rows, r': Rows, listed: seq<Job>, limit: nat, k: nat, ids: set<JobId>,
                        open: set<SessionId>, grace: int, now: Time)
    requires IsPage(listed, r0, InFlightJobs, limit) && k < |listed|
    requires Orphaning(r0, r, listed, k, ids, open, grace, now)
    requires if Unreachable(listed[k], open, grace, now) then KeptBut(r0, r, r', listed[k].id) else r' == r
    ensures Orphaning(r0, r', listed, k + 1, WithOrphan(listed[k], ids, open, grace, now), open, grace, now)
  {
    hide IsPage, Unreachable, Ids;
    PageIdsGrow(listed, r0, InFlightJobs, limit, k);
    if Unreachable(listed[k], open, grace, now) {
      OrphaningAdds(r0, r, r', listed, k, ids, open, grace, now);
    }
  }

  lemma OrphaningAdds(r0: Rows, r: Rows, r': Rows, listed: seq<Job>, k: nat, ids: set<JobId>, open: set<SessionId>, grace: int, now: Time)
    requires k < |listed| && Orphaning(r0, r, listed, k, ids, open, grace, now)
    requires Ids(listed[..k + 1]) == Ids(listed[..k]) + {listed[k].id}
    requires listed[k].id in r0 && r0[listed[k].id] == listed[k] && Unreachable(listed[k], open, grace, now)
    requires KeptBut(r0, r, r', listed[k].id)
    ensures Orphaning(r0, r', listed, k + 1, ids + {listed[k].id}, open, grace, now)
  {
    hide Unreachable, Ids;
  }

  lemma OrphaningEnds(r0: Rows, r: Rows, listed: seq<Job>, limit: nat, orphaned: set<JobId>,
                      open: set<SessionId>, grace: int, now: Time)
    requires Keyed(r0) && IsPage(listed, r0, InFlightJobs, limit)
    requires Orphaning(r0, r, listed, |listed|, orphaned, open, grace, now)
    ensures OrphansExactly(r0, r, orphaned, open, limit, grace, now)
  {
    if |InFlightIds(r0)| <= limit {
      ShortListIsComplete(r0, listed, limit);
      forall id | id in r0 && Unreachable(r0[id], open, grace, now) ensures id in orphaned {
        var m :| 0 <= m < |listed| && listed[m] == r0[id];
        assert Unreachable(listed[m], open, grace, now) && listed[m].id == id;
      }
    }
  }

  lemma BothPhases(w0: World, w1: World, w2: World, expired: seq<Job>, orphaned: set<JobId>,
                   open: set<SessionId>, batch: nat, grace: int, now: Time)
    requires IsPage(expired, w0.rows, DueBy(now), batch)
    requires Marking(w0, w1, Ids(expired), Expired, open, now) && Marking(w1, w2, orphaned, Orphaned, open, now)
    requires OrphansExactly(w1.rows, w2.rows, orphaned, open, ListLimit(batch), grace, now)
    ensures SweptTable(w0.rows, w1.rows, w2.rows, expired, orphaned, open, batch, grace, now)
    ensures Safe(w2, now) && (Orderly(w0, open) ==> Orderly(w2, open))
  {
    hide Orderly, UniqueRefs, NoPhantom, Evolves, RowEvolves, Faithful, IsPage;
    forall id | id in w1.rows && w1.rows[id].status.InFlight() ensures w1.rows[id].dispatchedAt.Some? {
      HistoryIsShort(w1.rows[id], now);
    }
    EndedStaysEnded(w1.rows, w2.rows, Ids(expired), Expired, now);
    OrphansOnTime(w1.rows, w2.rows, orphaned, open, ListLimit(batch), grace, now);
  }

  lemma OrphansOnTime(r1: Rows, r2: Rows, orphaned: set<JobId>, open: set<SessionId>, limit: nat, grace: int, now: Time)
    requires EndsExactly(r1, r2, orphaned) && OrphansExactly(r1, r2, orphaned, open, limit, grace, now)
    requires forall id :: id in r1 && r1[id].status.InFlight() ==> r1[id].dispatchedAt.Some?
    ensures forall id :: id in orphaned ==>
              id in r2 && r2[id].session !in open && r2[id].dispatchedAt.Some? && now - r2[id].dispatchedAt.value >= grace
    ensures |InFlightIds(r1)| <= limit ==>
              forall id :: id in r2 && r2[id].status.InFlight() && r2[id].session !in open ==>
                r2[id].dispatchedAt.Some? && now - r2[id].dispatchedAt.value < grace
  {
    hide Evolves, RowEvolves;
    forall id | id in orphaned
      ensures id in r2 && r2[id].session == r1[id].session && r2[id].dispatchedAt == r1[id].dispatchedAt
    {
      OneRow(r1, r2, id);
    }
    forall id | id in r2 && r2[id].status.InFlight() ensures id !in orphaned && r2[id] == r1[id] {
    }
  }

  lemma OneRow(r0: Rows, r1: Rows, id: JobId)
    requires Evolves(r0, r1) && id in r0
    ensures id in r1 && r1[id].session == r0[id].session
    ensures r0[id].dispatchedAt.Some? ==> r1[id].dispatchedAt == r0[id].dispatchedAt
  {
    assert RowEvolves(r0[id], r1[id]);
  }

  // ---- The marks as deeds ----

  predicate MarkTurn(t: Turn, to: Status, patch: Patch, open: set<SessionId>, now: Time) {
    t.deed.Finish? && t.deed.to == to && t.deed.patch == patch && t.open == open && t.now == now
  }

  function MarkedIds(turns: seq<Turn>): set<JobId> {
    set i | 0 <= i < |turns| && turns[i].deed.Finish? :: turns[i].deed.id
  }

  /** One mark for each of `ids` and nothing else. */
  predicate AllMarks(turns: seq<Turn>, ids: set<JobId>, to: Status, patch: Patch, open: set<SessionId>, now: Time) {
    |turns| == |ids| && MarkedIds(turns) == ids && forall i :: 0 <= i < |turns| ==> MarkTurn(turns[i], to, patch, open, now)
  }

  /** Since `w0` the broker did exactly one mark for each of `ids`, and published exactly their events. */
  ghost predicate MarkRun(w0: World, w: World, log0: seq<Event>, log: seq<Event>, turns: seq<Turn>, ids: set<JobId>,
                          to: Status, patch: Patch, open: set<SessionId>, now: Time)
  {
    Acted(w0, w, log0, log, turns) && AllMarks(turns, ids, to, patch, open, now)
  }

  lemma MarkRunStarts(w: World, log: seq<Event>, to: Status, patch: Patch, open: set<SessionId>, now: Time)
    ensures MarkRun(w, w, log, log, [], {}, to, patch, open, now)
  {
    NothingActed(w, log);
  }

  lemma MarkRunNext(w0: World, w: World, w1: World, log0: seq<Event>, log: seq<Event>, log1: seq<Event>, turns: seq<Turn>,
                    ids: set<JobId>, id: JobId, to: Status, patch: Patch, open: set<SessionId>, claims: seq<JobId>, now: Time)
    requires MarkRun(w0, w, log0, log, turns, ids, to, patch, open, now) && id !in ids
    requires CanEnd(w.rows, id) && to.Terminal()
    requires EndOutcome(w, w1, log, log1, id in w.rows && w.rows[id].session in open, id, to, patch, claims, now)
    ensures MarkRun(w0, w1, log0, log1, turns + [Turn(Finish(id, to, patch, claims), open, now, w1)], ids + {id}, to, patch, open, now)
  {
    hide Acted, EndOutcome;
    EndingIsDeed(w, w1, log, log1, open, id, to, patch, claims, now);
    var last := Turn(Finish(id, to, patch, claims), open, now, w1);
    ActedThen(w0, w, w1, log0, log, log1, turns, [last]);
    OneMoreMark(turns, last);
  }

  lemma OneMoreMark(turns: seq<Turn>, last: Turn)
    requires last.deed.Finish?
    ensures MarkedIds(turns + [last]) == MarkedIds(turns) + {last.deed.id}
  {
    var more := turns + [last];
    assert more[|turns|] == last;
    forall id | id in MarkedIds(turns) ensures id in MarkedIds(more) {
      var i :| 0 <= i < |turns| && turns[i].deed.Finish? && turns[i].deed.id == id;
      assert more[i] == turns[i];
    }
  }

  /** A sweep is a run of marks: one for each job of the batch, then one for each orphan. */
  ghost predicate SweepRun(w0: World, w1: World, log0: seq<Event>, log1: seq<Event>, turns: seq<Turn>, expired: seq<Job>,
                           orphaned: set<JobId>, open: set<SessionId>, now: Time)
  {
    && Acted(w0, w1, log0, log1, turns) && |expired| <= |turns|
    && AllMarks(turns[..|expired|], Ids(expired), Expired, TTL_ELAPSED, open, now)
    && AllMarks(turns[|expired|..], orphaned, Orphaned, UNREACHABLE, open, now)
  }

  lemma TwoMarkRuns(w0: World, w1: World, w2: World, log0: seq<Event>, log1: seq<Event>, log2: seq<Event>, a: seq<Turn>, b: seq<Turn>,
                    expired: seq<Job>, orphaned: set<JobId>, open: set<SessionId>, now: Time)
    requires |Ids(expired)| == |expired|
    requires MarkRun(w0, w1, log0, log1, a, Ids(expired), Expired, TTL_ELAPSED, open, now)
    requires MarkRun(w1, w2, log1, log2, b, orphaned, Orphaned, UNREACHABLE, open, now)
    ensures SweepRun(w0, w2, log0, log2, a + b, expired, orphaned, open, now)
  {
    hide Acted, Ids;
    ActedThen(w0, w1, w2, log0, log1, log2, a, b);
    assert (a + b)[..|a|] == a && (a + b)[|a|..] == b;
  }

  /** Marks disturb no route, so a sweep that finds its open sessions routed meets no failing send. */
  lemma {:induction false} MarksStayRouted(w: World, turns: seq<Turn>, open: set<SessionId>)
    requires Run(w, turns) && OpenIsRouted(open, w.routes)
    requires forall i :: 0 <= i < |turns| ==> turns[i].deed.Finish? && turns[i].open == open
    ensures Routed(w, turns)
    decreases |turns|
  {
    hide Drained;
    if turns != [] {
      var t := turns[0];
      DrainKeepsRoutes(Ended(w, t.deed.id, t.deed.to, t.deed.patch, t.now), t.after, w.rows[t.deed.id].session in open,
                       w.rows[t.deed.id].session, t.deed.claims, t.now);
      forall s | s in open ensures RouteOf(t.after.routes, s).Some? {
        assert RouteOf(w.routes, s).Some?;
      }
      MarksStayRouted(t.after, turns[1..], open);
    }
  }

  lemma SweepIsRun(w0: World, w1: World, log0: seq<Event>, log1: seq<Event>, turns: seq<Turn>, expired: seq<Job>,
                   orphaned: set<JobId>, open: set<SessionId>, now: Time)
    requires SweepRun(w0, w1, log0, log1, turns, expired, orphaned, open, now)
    ensures Run(w0, turns)
  {
    hide AllMarks, Run, Published;
  }

  lemma SweepStaysRouted(w0: World, w1: World, log0: seq<Event>, log1: seq<Event>, turns: seq<Turn>, expired: seq<Job>,
                         orphaned: set<JobId>, open: set<SessionId>, now: Time)
    requires SweepRun(w0, w1, log0, log1, turns, expired, orphaned, open, now) && OpenIsRouted(open, w0.routes)
    ensures Routed(w0, turns)
  {
    hide OpenIsRouted, Run, Published, Routed;
    forall i | 0 <= i < |turns| ensures turns[i].deed.Finish? && turns[i].open == open {
      if i < |expired| {
        assert turns[..|expired|][i] == turns[i];
      } else {
        assert turns[|expired|..][i - |expired|] == turns[i];
      }
    }
    MarksStayRouted(w0, turns, open);
  }

  class Sweeper {
    const store: JobStore
    const service: JobService
    const sessions: SessionRegistry
    const heartbeatTimeoutMs: int
    const orphanGraceMs: int
    const batchSize: nat

    constructor (store: JobStore, service: JobService, sessions: SessionRegistry,
                 heartbeatTimeoutMs: int, orphanGraceMs: int, batchSize: nat)
      ensures this.store == store && this.service == service && this.sessions == sessions
      ensures this.heartbeatTimeoutMs == heartbeatTimeoutMs && this.orphanGraceMs == orphanGraceMs
      ensures this.batchSize == batchSize
    {
      this.store, this.service, this.sessions := store, service, sessions;
      this.heartbeatTimeoutMs, this.orphanGraceMs, this.batchSize := heartbeatTimeoutMs, orphanGraceMs, batchSize;
    }

    ghost predicate Wired()
      reads service, service.store, service.dispatcher, service.dispatcher.sink, sessions
    {
      && service.store == store && service.sessions == sessions && service.Wired() && sessions.Valid()
      && service.dispatcher.running
    }

    function W(): World
      reads service, service.store, service.dispatcher, service.dispatcher.store, service.dispatcher.sink
    {
      service.W()
    }

    /** Phase 2: end every job of the batch as expired, although each mark drains its session. */
    method ExpireBatch(now: Time, ghost before: Time) returns (ghost expired: seq<Job>, ghost turns: seq<Turn>)
      requires Wired() && Safe(W(), before) && before <= now
      modifies store, service.dispatcher`busy, service.dispatcher.sink, service.bus
      ensures Wired()
      ensures IsPage(expired, old(store.rows), DueBy(now), batchSize)
      ensures Marking(old(W()), W(), Ids(expired), Expired, sessions.Open(), now)
      ensures MarkRun(old(W()), W(), old(service.bus.log), service.bus.log, turns, Ids(expired), Expired, TTL_ELAPSED, sessions.Open(), now)
    {
      var batch := store.FindExpired(now, batchSize);
      expired := batch;
      turns := [];
      ghost var w0, log0 := W(), service.bus.log;
      hide Marking, MarkRun, Safe, IsPage, Ids;
      BatchIsMarkable(store.rows, batch, batchSize, now);
      NothingMarked(w0, Expired, sessions.Open(), before, now);
      MarkRunStarts(w0, log0, Expired, TTL_ELAPSED, sessions.Open(), now);
      for k := 0 to |batch|
        invariant Wired()
        invariant Marking(w0, W(), Ids(batch[..k]), Expired, sessions.Open(), now)
        invariant MarkRun(w0, W(), log0, service.bus.log, turns, Ids(batch[..k]), Expired, TTL_ELAPSED, sessions.Open(), now)
      {
        turns := ExpireNext(batch[k].id, now, w0, log0, turns, Ids(batch[..k]));
      }
      assert batch[..|batch|] == batch;
    }

    method ExpireNext(id: JobId, now: Time, ghost w0: World, ghost log0: seq<Event>, ghost turns: seq<Turn>, ghost ids: set<JobId>)
      returns (ghost turns': seq<Turn>)
      requires Wired() && Marking(w0, W(), ids, Expired, sessions.Open(), now)
      requires MarkRun(w0, W(), log0, service.bus.log, turns, ids, Expired, TTL_ELAPSED, sessions.Open(), now)
      requires id !in ids && Markable(w0.rows, id, Expired, now)
      modifies store, service.dispatcher`busy, service.dispatcher.sink, service.bus
      ensures Wired()
      ensures Marking(w0, W(), ids + {id}, Expired, sessions.Open(), now)
      ensures MarkRun(w0, W(), log0, service.bus.log, turns', ids + {id}, Expired, TTL_ELAPSED, sessions.Open(), now)
    {
      hide Marking, MarkRun, EndOutcome;
      ghost var w, log := W(), service.bus.log;
      MarkableStill(w0, w, ids, id, Expired, sessions.Open(), now);
      ghost var claims := service.MarkExpired(id, now);
      MarkRunNext(w0, w, W(), log0, log, service.bus.log, turns, ids, id, Expired, TTL_ELAPSED, sessions.Open(), claims, now);
      turns' := turns + [Turn(Finish(id, Expired, TTL_ELAPSED, claims), sessions.Open(), now, W())];
      MarkOne(w0, w, W(), log, service.bus.log, ids, id, Expired, TTL_ELAPSED, sessions.Open(), claims, now);
    }

    // Phase 3 after `k` of the listed jobs.
    ghost predicate Midway(w0: World, log0: seq<Event>, turns: seq<Turn>, listed: seq<Job>, k: nat, orphaned: set<JobId>, now: Time)
      reads service, service.store, service.dispatcher, service.dispatcher.store, service.dispatcher.sink, service.bus, sessions
    {
      && Wired()
      && Marking(w0, W(), orphaned, Orphaned, sessions.Open(), now)
      && MarkRun(w0, W(), log0, service.bus.log, turns, orphaned, Orphaned, UNREACHABLE, sessions.Open(), now)
      && Keyed(w0.rows) && IsPage(listed, w0.rows, InFlightJobs, ListLimit(batchSize))
      && Orphaning(w0.rows, W().rows, listed, k, orphaned, sessions.Open(), orphanGraceMs, now)
    }

    /** Phase 3: orphan the listed in-flight jobs whose session is missing or detached past the grace. */
    method OrphanBatch(now: Time) returns (ghost orphaned: set<JobId>, ghost turns: seq<Turn>)
      requires Wired() && Safe(W(), now)
      modifies store, service.dispatcher`busy, service.dispatcher.sink, service.bus
      ensures Wired() && Marking(old(W()), W(), orphaned, Orphaned, sessions.Open(), now)
      ensures OrphansExactly(old(W()).rows, W().rows, orphaned, sessions.Open(), ListLimit(batchSize), orphanGraceMs, now)
      ensures MarkRun(old(W()), W(), old(service.bus.log), service.bus.log, turns, orphaned, Orphaned, UNREACHABLE, sessions.Open(), now)
    {
      hide Midway, Marking, MarkRun, Safe, OrphansExactly;
      var inflight := store.ListInFlight(batchSize);
      ghost var w0, log0 := W(), service.bus.log;
      orphaned, turns := {}, [];
      OrphanReady(inflight, now);
      for k := 0 to |inflight|
        invariant Midway(w0, log0, turns, inflight, k, orphaned, now)
      {
        orphaned, turns := OrphanNext(inflight, k, now, w0, log0, turns, orphaned);
      }
      OrphanDone(inflight, now, w0, log0, turns, orphaned);
    }

    /** One turn of the loop: only a job whose session is missing or detached past the grace is marked. */
    method OrphanNext(inflight: seq<Job>, k: nat, now: Time, ghost w0: World, ghost log0: seq<Event>, ghost turns: seq<Turn>,
                      ghost ids: set<JobId>)
      returns (ghost ids': set<JobId>, ghost turns': seq<Turn>)
      requires k < |inflight| && Midway(w0, log0, turns, inflight, k, ids, now)
      modifies store, service.dispatcher`busy, service.dispatcher.sink, service.bus
      ensures Midway(w0, log0, turns', inflight, k + 1, ids', now)
    {
      hide Marking, MarkRun, EndOutcome, KeptBut, Orphaning, IsPage;
      var job := inflight[k];
      ghost var w, log := W(), service.bus.log;
      ListedIsMarkable(w0.rows, w.rows, inflight, ListLimit(batchSize), k, ids, sessions.Open(), orphanGraceMs, now);
      ids', turns' := ids, turns;
      if !sessions.IsAttached(job.session) {
        if now - OutSince(job) >= orphanGraceMs {
          MarkableStill(w0, w, ids, job.id, Orphaned, sessions.Open(), now);
          ghost var claims := service.MarkOrphaned(job.id, now);
          MarkRunNext(w0, w, W(), log0, log, service.bus.log, turns, ids, job.id, Orphaned, UNREACHABLE, sessions.Open(), claims, now);
          MarkOne(w0, w, W(), log, service.bus.log, ids, job.id, Orphaned, UNREACHABLE, sessions.Open(), claims, now);
          ids' := ids + {job.id};
          turns' := turns + [Turn(Finish(job.id, Orphaned, UNREACHABLE, claims), sessions.Open(), now, W())];
        }
      }
      OrphaningGoesOn(w0.rows, w.rows, W().rows, inflight, ListLimit(batchSize), k, ids, sessions.Open(), orphanGraceMs, now);
    }

    lemma OrphanReady(inflight: seq<Job>, now: Time)
      requires Wired() && Safe(W(), now) && IsPage(inflight, store.rows, InFlightJobs, ListLimit(batchSize))
      ensures Midway(W(), service.bus.log, [], inflight, 0, {}, now)
    {
      hide Marking, MarkRun, Safe, IsPage, Orphaning;
      OrphaningStarts(W().rows, inflight, sessions.Open(), orphanGraceMs, now);
      NothingMarked(W(), Orphaned, sessions.Open(), now, now);
      MarkRunStarts(W(), service.bus.log, Orphaned, UNREACHABLE, sessions.Open(), now);
    }

    lemma OrphanDone(inflight: seq<Job>, now: Time, w0: World, log0: seq<Event>, turns: seq<Turn>, ids: set<JobId>)
      requires Midway(w0, log0, turns, inflight, |inflight|, ids, now)
      ensures Wired() && Marking(w0, W(), ids, Orphaned, sessions.Open(), now)
      ensures MarkRun(w0, W(), log0, service.bus.log, turns, ids, Orphaned, UNREACHABLE, sessions.Open(), now)
      ensures OrphansExactly(w0.rows, W().rows, ids, sessions.Open(), ListLimit(batchSize), orphanGraceMs, now)
    {
      hide Marking, MarkRun, IsPage, Orphaning, OrphansExactly;
      OrphaningEnds(w0.rows, W().rows, inflight, ListLimit(batchSize), ids, sessions.Open(), orphanGraceMs, now);
    }

    /** One sweep at `now`. */
    method Tick(now: Time, ghost before: Time)
      returns (ghost expired: seq<Job>, ghost mid: Rows, ghost orphaned: set<JobId>, ghost turns: seq<Turn>)
      requires Wired() && Safe(W(), before) && before <= now
      modifies sessions, store, service.dispatcher`busy, service.dispatcher.sink, service.bus
      ensures Wired()
      ensures sessions.sessions == Swept(old(sessions.sessions), heartbeatTimeoutMs, now)
      ensures SilentEvicted(old(sessions.sessions), sessions.sessions, heartbeatTimeoutMs, now)
      ensures SweptTable(old(store.rows), mid, store.rows, expired, orphaned, sessions.Open(), batchSize, orphanGraceMs, now)
      ensures SweepRun(old(W()), W(), old(service.bus.log), service.bus.log, turns, expired, orphaned, sessions.Open(), now)
      ensures Safe(W(), now) && sessions.Open() <= old(sessions.Open())
      ensures Orderly(old(W()), old(sessions.Open())) ==> Orderly(W(), sessions.Open())
    {
      hide Safe, Orderly, Marking, MarkRun, SweepRun, SweptTable, OrphansExactly, IsPage, Swept, SilentEvicted;
      var evicted := sessions.EvictStale(heartbeatTimeoutMs, now);
      ghost var w0, open, log0 := W(), sessions.Open(), service.bus.log;
      expired, turns := ExpireBatch(now, before);
      ghost var w1, log1 := W(), service.bus.log;
      mid := w1.rows;
      MarkedIsSafe(w0, w1, Ids(expired), Expired, open, now);
      ghost var orphanings;
      orphaned, orphanings := OrphanBatch(now);
      BothPhases(w0, w1, W(), expired, orphaned, open, batchSize, orphanGraceMs, now);
      BatchIsDistinct(w0.rows, expired, batchSize, now);
      TwoMarkRuns(w0, w1, W(), log0, log1, service.bus.log, turns, orphanings, expired, orphaned, open, now);
      turns := turns + orphanings;
      FewerOpen(w0, old(sessions.Open()), open);
    }
  }

  lemma BatchIsDistinct(rows: Rows, batch: seq<Job>, limit: nat, now: Time)
    requires IsPage(batch, rows, DueBy(now), limit)
    ensures |Ids(batch)| == |batch|
  {
    DistinctIds(batch);
  }

  lemma MarkedIsSafe(w0: World, w: World, ids: set<JobId>, to: Status, open: set<SessionId>, now: Time)
    requires Marking(w0, w, ids, to, open, now)
    ensures Safe(w, now)
  {
  }

  lemma BatchIsMarkable(rows: Rows, batch: seq<Job>, limit: nat, now: Time)
    requires IsPage(batch, rows, DueBy(now), limit)
    ensures Ids(batch[..0]) == {}
    ensures forall k {:trigger batch[k]} :: 0 <= k < |batch| ==>
              && Markable(rows, batch[k].id, Expired, now)
              && batch[k].id !in Ids(batch[..k]) && Ids(batch[..k + 1]) == Ids(batch[..k]) + {batch[k].id}
  {
    forall k | 0 <= k < |batch|
      ensures batch[k].id !in Ids(batch[..k]) && Ids(batch[..k + 1]) == Ids(batch[..k]) + {batch[k].id}
    {
      IdsOneMore(batch, k);
    }
  }

  lemma IdsOneMore(page: seq<Job>, k: nat)
    requires k < |page| && forall i, m :: 0 <= i < m < |page| ==> page[i].id != page[m].id
    ensures Ids(page[..k + 1]) == Ids(page[..k]) + {page[k].id} && page[k].id !in Ids(page[..k])
  {
    assert page[..k + 1] == page[..k] + [page[k]];
    forall id | id in Ids(page[..k + 1]) ensures id in Ids(page[..k]) + {page[k].id} {
      var i :| 0 <= i < k + 1 && page[..k + 1][i].id == id;
      assert i < k ==> page[..k][i].id == id;
    }
    forall id | id in Ids(page[..k]) ensures id in Ids(page[..k + 1]) {
      var i :| 0 <= i < k && page[..k][i].id == id;
      assert page[..k + 1][i].id == id;
    }
    assert page[..k + 1][k].id == page[k].id;
  }
}
