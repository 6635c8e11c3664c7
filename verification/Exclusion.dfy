/** One serial job in flight per session (README.md:408): over whole runs, exactly when it holds. */
module Exclusion {
  import opened Types
  import opened JobRow
  import opened JobStore
  import opened DrainRules
  import opened DrainOutcome
  import opened Routing
  import opened JobService
  import opened Deeds

  // ---- At most one serial job in flight per session ----

  ghost predicate OneEach(rows: Rows) {
    forall s :: AtMostOne(rows, s)
  }

  /** At most one serial job per session in flight, now and after every deed. */
  ghost predicate AlwaysOneEach(w: World, turns: seq<Turn>)
    decreases |turns|
  {
    OneEach(w.rows) && (turns == [] || AlwaysOneEach(turns[0].after, turns[1..]))
  }

  /** The session a deed drains, and the world that drain meets. */
  function Meets(w: World, t: Turn): (SessionId, World)
    requires Drains(w, t.deed)
  {
    match t.deed
    case Queue(n, _) => (n.session, w.(rows := w.rows[n.id := FreshRow(n)]))
    case Attach(s, _) => (s, w)
    case Finish(id, to, p, _) => (w.rows[id].session, Ended(w, id, to, p, t.now))
  }

  predicate Drains(w: World, d: Deed) {
    d.Queue? || d.Attach? || (d.Finish? && d.id in w.rows)
  }

  /** The deed's drain lets a serial job out beside another. */
  predicate Crowds(w: World, t: Turn) {
    Drains(w, t.deed) && var (s, met) := Meets(w, t); LetsOut(met, s in t.open, s, t.deed.claims)
  }

  ghost predicate NeverCrowds(w: World, turns: seq<Turn>)
    decreases |turns|
  {
    turns == [] || (!Crowds(w, turns[0]) && NeverCrowds(turns[0].after, turns[1..]))
  }

  lemma DeedKeepsOneEachExactly(w: World, t: Turn)
    requires Did(w, t) && OneEach(w.rows)
    ensures OneEach(t.after.rows) <==> !Crowds(w, t)
  {
    hide RowEvolves, Drained, LetsOut;
    match t.deed {
      case Queue(n, claims) =>
        var met := w.(rows := w.rows[n.id := FreshRow(n)]);
        PendingChangesNoFlight(w.rows, met.rows, n.id);
        DrainedOneEach(met, t.after, n.session in t.open, n.session, claims, t.now);
      case Attach(s, claims) => DrainedOneEach(w, t.after, s in t.open, s, claims, t.now);
      case Finish(id, to, p, claims) =>
        var s, met := w.rows[id].session, Ended(w, id, to, p, t.now);
        EndingKeepsOneEach(w.rows, met.rows, id);
        DrainedOneEach(met, t.after, s in t.open, s, claims, t.now);
      case Amend(id, row, _) => AmendKeepsOneEach(w.rows, id, row);
      case Rewire =>
    }
  }

  lemma DrainedOneEach(w0: World, w1: World, open: bool, s: SessionId, claims: seq<JobId>, now: Time)
    requires Drained(w0, w1, open, s, claims, now) && OneEach(w0.rows)
    ensures OneEach(w1.rows) <==> !LetsOut(w0, open, s, claims)
  {
    hide Drained, LetsOut, InFlightSerial;
    assert AtMostOne(w0.rows, s);
    DrainKeepsOneExactly(w0, w1, open, s, claims, now);
    forall t | t != s ensures AtMostOne(w1.rows, t) {
      assert AtMostOne(w0.rows, t);
    }
  }

  lemma PendingChangesNoFlight(r0: Rows, r1: Rows, id: JobId)
    requires id !in r0 && id in r1 && r1 == r0[id := r1[id]] && r1[id].status == Pending
    ensures forall t :: InFlightSerial(r1, t) == InFlightSerial(r0, t)
    ensures OneEach(r0) ==> OneEach(r1)
  {
    forall t ensures InFlightSerial(r1, t) == InFlightSerial(r0, t) {
    }
    hide InFlightSerial;
    if OneEach(r0) {
      forall t ensures AtMostOne(r1, t) {
        assert AtMostOne(r0, t);
      }
    }
  }

  lemma EndingKeepsOneEach(r0: Rows, r1: Rows, id: JobId)
    requires Ends(r0, r1, id) && OneEach(r0)
    ensures OneEach(r1)
  {
    hide InFlightSerial, PendingSet;
    forall t ensures AtMostOne(r1, t) {
      EndingFreesOthers(r0, r1, id, t);
      assert AtMostOne(r0, t);
    }
  }

  lemma AmendKeepsOneEach(rows: Rows, id: JobId, row: Job)
    requires OneEach(rows) && id in rows && RowEvolves(rows[id], row) && SamePlace(rows[id].status, row.status)
    ensures OneEach(rows[id := row])
  {
    QuietQueues(rows, id, row);
    hide RowEvolves, Settled;
    var r1 := rows[id := row];
    forall t ensures AtMostOne(r1, t) {
      assert AtMostOne(rows, t);
    }
  }

  /** The promise over whole runs, exactly, whatever the marks say and whether or not sends succeed: at most
      one serial job per session is in flight at every point if and only if no drain met an open, unmarked
      session with one serial job in flight and another next. */
  lemma {:induction false} OneEachExactlyWhenNeverCrowded(w: World, turns: seq<Turn>)
    requires Run(w, turns) && OneEach(w.rows)
    ensures AlwaysOneEach(w, turns) <==> NeverCrowds(w, turns)
    decreases |turns|
  {
    hide OneEach, Did, Crowds;
    if turns != [] {
      DeedKeepsOneEachExactly(w, turns[0]);
      if !Crowds(w, turns[0]) {
        OneEachExactlyWhenNeverCrowded(turns[0].after, turns[1..]);
      }
    }
  }

  // ---- The same for each kind of deed, in terms of the world before it ----

  /** Ending job `id` of an open, routed session keeps at most one serial job in flight if and only if no
      other was in flight or no other was waiting. */
  lemma ExclusionSurvivesEndingExactly(w: World, t: Turn)
    requires Did(w, t) && t.deed.Finish? && OneEach(w.rows)
    requires w.rows[t.deed.id].session in t.open && RouteOf(w.routes, w.rows[t.deed.id].session).Some?
    ensures var s, id := w.rows[t.deed.id].session, t.deed.id;
            OneEach(t.after.rows) <==>
            InFlightSerial(w.rows, s) <= {id} || (forall p :: p in PendingSet(w.rows, s) && w.rows[p].mode == Serial ==> p == id)
  {
    var s, id := w.rows[t.deed.id].session, t.deed.id;
    var met := Ended(w, id, t.deed.to, t.deed.patch, t.now);
    DeedKeepsOneEachExactly(w, t);
    EndingFreesOthers(w.rows, met.rows, id, s);
    hide OneEach, Drained, InFlightSerial, PendingSet;
    assert InFlightSerial(w.rows, s) <= {id} <==> InFlightSerial(w.rows, s) - {id} == {};
    forall p | p in PendingSet(w.rows, s) && p != id ensures p in met.rows && met.rows[p] == w.rows[p] && p in PendingSet(met.rows, s) {
      PendingIsStored(w.rows, s, p);
    }
    forall p | p in met.rows && p in PendingSet(met.rows, s) ensures p != id && met.rows[p] == w.rows[p] && p in PendingSet(w.rows, s) {
    }
  }

  lemma PendingIsStored(rows: Rows, s: SessionId, id: JobId)
    requires id in PendingSet(rows, s)
    ensures id in rows
  {
  }

  /** A submission to an open, routed session keeps it if and only if the session is marked, or has no serial
      job in flight, or neither the new job nor any waiting one is serial. */
  lemma ExclusionSurvivesSubmissionExactly(w: World, t: Turn)
    requires Did(w, t) && t.deed.Queue? && OneEach(w.rows)
    requires t.deed.job.session in t.open && RouteOf(w.routes, t.deed.job.session).Some?
    ensures var n := t.deed.job;
            OneEach(t.after.rows) <==>
            n.session in w.busy || InFlightSerial(w.rows, n.session) == {} || !(n.mode == Serial || SerialWaits(w.rows, n.session))
  {
    var n := t.deed.job;
    var rows := w.rows[n.id := FreshRow(n)];
    DeedKeepsOneEachExactly(w, t);
    PendingChangesNoFlight(w.rows, rows, n.id);
    assert PendingSet(rows, n.session) == PendingSet(w.rows, n.session) + {n.id};
    hide OneEach, Drained, InFlightSerial, PendingSet;
    if n.mode == Serial {
      assert n.id in rows && n.id in PendingSet(rows, n.session) && rows[n.id].mode == Serial;
    }
    if SerialWaits(w.rows, n.session) {
      var p :| p in w.rows && p in PendingSet(w.rows, n.session) && w.rows[p].mode == Serial;
      assert p in rows && p in PendingSet(rows, n.session) && rows[p].mode == Serial;
    }
    if SerialWaits(rows, n.session) && n.mode != Serial {
      var p :| p in rows && p in PendingSet(rows, n.session) && rows[p].mode == Serial;
      assert p in w.rows && p in PendingSet(w.rows, n.session) && w.rows[p].mode == Serial;
    }
  }

  // ---- Exact marks ----

  /** The marks are exact and serial jobs exclude each other, now and after every deed. */
  ghost predicate AlwaysInSync(w: World, turns: seq<Turn>)
    decreases |turns|
  {
    SerialSync(w.rows, w.busy) && (turns == [] || AlwaysInSync(turns[0].after, turns[1..]))
  }

  /** Every job ends while no other serial job of its session is in flight. */
  ghost predicate EndsAlone(w: World, turns: seq<Turn>)
    decreases |turns|
  {
    turns == [] || (Alone(w, turns[0].deed) && EndsAlone(turns[0].after, turns[1..]))
  }

  predicate Alone(w: World, d: Deed) {
    d.Finish? && d.id in w.rows ==> InFlightSerial(w.rows, w.rows[d.id].session) <= {d.id}
  }

  lemma DeedKeepsSyncExactly(w: World, t: Turn)
    requires Did(w, t) && OpenIsRouted(t.open, w.routes) && SerialSync(w.rows, w.busy)
    ensures SerialSync(t.after.rows, t.after.busy) <==> Alone(w, t.deed)
  {
    hide SerialSync, RowEvolves, WellChosen;
    match t.deed {
      case Queue(n, claims) =>
        SubmitKeepsSync(w, t.after, n.session in t.open, FreshRow(n), claims, t.now);
      case Attach(s, claims) =>
        assert ClaimAll(w.rows, [], t.now) == w.rows;
        DrainKeepsSync(w.rows, w.busy, s, claims, t.now);
      case Finish(id, to, p, claims) =>
        EndOutcomeKeepsSyncExactly(w, t.after, [], [Event(EndedEvent(to), Transitioned(w.rows[id], to, p, t.now))],
                                   w.rows[id].session in t.open, id, to, p, claims, t.now);
      case Amend(id, row, _) => QuietKeepsSync(w.rows, w.busy, id, row);
      case Rewire =>
    }
  }

  /** Exact marks over whole runs, exactly: while every open session is routed, each session is marked just
      when it has a serial job in flight, and never has two, at every point of a run, if and only if every
      job ended while no other serial job of its session was in flight. */
  lemma {:induction false} InSyncExactlyWhenEndingAlone(w: World, turns: seq<Turn>)
    requires Run(w, turns) && Routed(w, turns) && SerialSync(w.rows, w.busy)
    ensures AlwaysInSync(w, turns) <==> EndsAlone(w, turns)
    decreases |turns|
  {
    hide SerialSync, Did, Alone, OpenIsRouted;
    if turns != [] {
      DeedKeepsSyncExactly(w, turns[0]);
      if Alone(w, turns[0].deed) {
        InSyncExactlyWhenEndingAlone(turns[0].after, turns[1..]);
      }
    }
  }

  // ---- The promise is not unconditional ----

  predicate SerialJob(j: Job, s: SessionId, status: Status) {
    j.session == s && j.mode == Serial && j.status == status
  }

  ghost predicate OneRunsTwoWait(rows: Rows, a: Job, b: Job, c: Job, s: SessionId) {
    && a.id != b.id && b.id != c.id && a.id != c.id && rows == map[a.id := a, b.id := b, c.id := c]
    && SerialJob(a, s, Dispatched) && SerialJob(b, s, Pending) && SerialJob(c, s, Pending)
  }

  lemma OneRunsIsExclusive(rows: Rows, a: Job, b: Job, c: Job, s: SessionId)
    requires OneRunsTwoWait(rows, a, b, c, s)
    ensures SerialSync(rows, {s}) && Settled(rows, true, s)
  {
    OnlyOneRuns(rows, a, b, c, s);
    hide InFlightSerial, OneRunsTwoWait;
    forall t ensures (t in {s} <==> InFlightSerial(rows, t) != {}) && AtMostOne(rows, t) {
      assert InFlightSerial(rows, t) == if t == s then {a.id} else {};
    }
  }

  lemma OnlyOneRuns(rows: Rows, a: Job, b: Job, c: Job, s: SessionId)
    requires OneRunsTwoWait(rows, a, b, c, s)
    ensures forall t :: InFlightSerial(rows, t) == if t == s then {a.id} else {}
    ensures Settled(rows, true, s)
  {
    forall t ensures InFlightSerial(rows, t) == if t == s then {a.id} else {} {
    }
    forall f | f in PendingSet(rows, s) ensures f in rows && rows[f].mode == Serial {
    }
  }

  /** While `a` runs and `c` waits, cancelling the queued `b` clears the mark and lets `c` out beside `a`. */
  lemma CancelLetsNextOut(rows: Rows, a: Job, b: Job, c: Job, s: SessionId, now: Time)
    requires OneRunsTwoWait(rows, a, b, c, s)
    ensures var ended := rows[b.id := Transitioned(b, Cancelled, NO_PATCH, now)];
            && WellChosen(ended, false, s, [c.id], now) && ClaimsSerial(ended, [c.id])
            && Settled(ClaimAll(ended, [c.id], now), true, s)
            && InFlightSerial(ClaimAll(ended, [c.id], now), s) == {a.id, c.id}
  {
    var ended := rows[b.id := Transitioned(b, Cancelled, NO_PATCH, now)];
    OnlyOneWaits(ended, a, ended[b.id], c, s, now);
  }

  lemma OnlyOneWaits(rows: Rows, a: Job, b: Job, c: Job, s: SessionId, now: Time)
    requires a.id != b.id && b.id != c.id && a.id != c.id && rows == map[a.id := a, b.id := b, c.id := c]
    requires SerialJob(a, s, Dispatched) && b.status == Cancelled && SerialJob(c, s, Pending)
    ensures WellChosen(rows, false, s, [c.id], now) && ClaimsSerial(rows, [c.id])
    ensures Settled(ClaimAll(rows, [c.id], now), true, s)
    ensures InFlightSerial(ClaimAll(rows, [c.id], now), s) == {a.id, c.id}
  {
    var claims := [c.id];
    assert PendingSet(rows, s) == {c.id};
    assert claims[..0] == [] && ClaimAll(rows, [], now) == rows;
    assert ChosenAt(rows, false, s, claims, now, 0);
    assert claims[0] == c.id;
    var after := ClaimAll(rows, claims, now);
    assert PendingSet(after, s) == {};
  }

  function SampleJob(name: string, s: SessionId, at: Time): Job {
    FreshRow(NewJob(JobId(name), s, "work", map[], Normal, Serial, 60, None, at, at + 60000))
  }

  lemma SampleIsFaithful(name: string, s: SessionId, at: Time, now: Time)
    requires at <= now
    ensures Faithful(SampleJob(name, s, at), now)
    ensures Faithful(Transitioned(SampleJob(name, s, at), Dispatched, NO_PATCH, now), now)
  {
    TransitionKeepsFaith(SampleJob(name, s, at), Dispatched, NO_PATCH, now, now);
  }

  function SampleRoutes(s: SessionId): Routes {
    Routes(map[1 := Connection(Some(s), "", [Registered(s)], false)], {1}, map[s := 1])
  }

  lemma SampleIsOrderly(r: Routes, s: SessionId)
    requires r == SampleRoutes(s)
    ensures Bijective(r) && AllGreeted(r) && OpenIsRouted({s}, r) && RouteOf(r, s) == Some(1)
  {
    assert r.conns[1].out[0].Registered?;
  }

  /** A sound, orderly, exclusive broker, and a cancellation after which two serial jobs are in flight. */
  lemma {:induction false} CancelBreaksExclusion() returns (w0: World, w1: World, s: SessionId, id: JobId, claims: seq<JobId>, log: seq<Event>)
    ensures Safe(w0, 4) && Orderly(w0, {s}) && SerialSync(w0.rows, w0.busy)
    ensures id in w0.rows && w0.rows[id].status == Pending
    ensures EndOutcome(w0, w1, [], log, true, id, Cancelled, NO_PATCH, claims, 4)
    ensures |InFlightSerial(w1.rows, s)| == 2
  {
    hide Faithful, SerialSync, WellChosen, Settled, ClaimAll, Bijective, AllGreeted, OpenIsRouted, ClaimsSerial, Wrote;
    s := SessionId("s");
    var a := Transitioned(SampleJob("a", s, 1), Dispatched, NO_PATCH, 4);
    var b, c := SampleJob("b", s, 2), SampleJob("c", s, 3);
    SampleIsFaithful("a", s, 1, 4);
    SampleIsFaithful("b", s, 2, 4);
    SampleIsFaithful("c", s, 3, 4);
    var rows, routes := map[a.id := a, b.id := b, c.id := c], SampleRoutes(s);
    OneRunsIsExclusive(rows, a, b, c, s);
    SampleIsOrderly(routes, s);
    w0, id, claims := World(rows, {s}, routes), b.id, [c.id];
    log := [Event(EndedEvent(Cancelled), Transitioned(b, Cancelled, NO_PATCH, 4))];
    var ended := rows[b.id := Transitioned(b, Cancelled, NO_PATCH, 4)];
    w1 := World(ClaimAll(ended, claims, 4), {s}, Wrote(routes, 1, Messages(ended, claims)));
    CancelLetsNextOut(rows, a, b, c, s, 4);
    assert |{a.id, c.id}| == 2;
    SyncMeansNoPhantom(rows, {s});
  }

  lemma SyncMeansNoPhantom(rows: Rows, busy: set<SessionId>)
    requires SerialSync(rows, busy)
    ensures NoPhantom(rows, busy)
  {
  }
}
