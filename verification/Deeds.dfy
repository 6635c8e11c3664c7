/** The history of the table, the marks and the events as a run of deeds: every stimulus of the broker is one. */
module Deeds {
  import opened Types
  import opened JobRow
  import opened JobStore
  import opened DrainRules
  import opened DrainOutcome
  import opened Routing
  import opened JobService

  // What can happen to the table and the marks.
  datatype Deed =
    | Queue(job: NewJob, claims: seq<JobId>)                                // submit
    | Attach(session: SessionId, claims: seq<JobId>)                        // a session attached
    | Finish(id: JobId, to: Status, patch: Patch, claims: seq<JobId>)       // cancel, complete, fail, expire, orphan
    | Amend(id: JobId, row: Job, kind: EventKind)                           // a note, a comment, an acknowledgement
    | Rewire                                                                // connections come, speak and go

  // One deed, the sessions whose gate was open, the time, and the world it left.
  datatype Turn = Turn(deed: Deed, open: set<SessionId>, now: Time, after: World)

  ghost predicate Did(w: World, t: Turn) {
    match t.deed
    case Queue(n, claims) =>
      n.id !in w.rows
      && Drained(w.(rows := w.rows[n.id := FreshRow(n)]), t.after, n.session in t.open, n.session, claims, t.now)
    case Attach(s, claims) => Drained(w, t.after, s in t.open, s, claims, t.now)
    case Finish(id, to, p, claims) =>
      CanEnd(w.rows, id) && to.Terminal()
      && Drained(Ended(w, id, to, p, t.now), t.after, w.rows[id].session in t.open, w.rows[id].session, claims, t.now)
    case Amend(id, row, kind) =>
      id in w.rows && RowEvolves(w.rows[id], row) && SamePlace(w.rows[id].status, row.status) && !kind.EndedEvent?
      && t.after == w.(rows := w.rows[id := row])
    case Rewire => t.after == w.(routes := t.after.routes)
  }

  /** The events a deed publishes. */
  function EventsOf(w: World, t: Turn): seq<Event> {
    match t.deed
    case Queue(n, _) => [Event(CreatedEvent, FreshRow(n))]
    case Finish(id, to, p, _) => if id in w.rows then [Event(EndedEvent(to), Transitioned(w.rows[id], to, p, t.now))] else []
    case Amend(_, row, kind) => [Event(kind, row)]
    case _ => []
  }

  ghost predicate Run(w: World, turns: seq<Turn>)
    decreases |turns|
  {
    turns == [] || (Did(w, turns[0]) && Run(turns[0].after, turns[1..]))
  }

  function After(w: World, turns: seq<Turn>): World {
    if turns == [] then w else turns[|turns| - 1].after
  }

  function Published(w: World, turns: seq<Turn>): seq<Event>
    decreases |turns|
  {
    if turns == [] then [] else EventsOf(w, turns[0]) + Published(turns[0].after, turns[1..])
  }

  /** No send of the run can fail: each deed found its open sessions routed. */
  ghost predicate Routed(w: World, turns: seq<Turn>)
    decreases |turns|
  {
    turns == [] || (OpenIsRouted(turns[0].open, w.routes) && Routed(turns[0].after, turns[1..]))
  }

  /** From `w0` to `w1` the broker did exactly `turns`, and published exactly their events. */
  ghost predicate Acted(w0: World, w1: World, log0: seq<Event>, log1: seq<Event>, turns: seq<Turn>) {
    Run(w0, turns) && After(w0, turns) == w1 && log1 == log0 + Published(w0, turns)
  }

  lemma NothingActed(w: World, log: seq<Event>)
    ensures Acted(w, w, log, log, []) && Routed(w, [])
  {
    assert log + [] == log;
  }

  /** Two stretches of work make one. */
  lemma {:induction false} ActedThen(w0: World, w1: World, w2: World, log0: seq<Event>, log1: seq<Event>, log2: seq<Event>,
                                     a: seq<Turn>, b: seq<Turn>)
    requires Acted(w0, w1, log0, log1, a) && Acted(w1, w2, log1, log2, b)
    ensures Acted(w0, w2, log0, log2, a + b)
    ensures Routed(w0, a + b) <==> Routed(w0, a) && Routed(w1, b)
  {
    hide Did, OpenIsRouted, EventsOf;
    RunsJoin(w0, a, b);
    Regroup(log0, Published(w0, a), Published(w1, b));
  }

  lemma Regroup<T>(a: seq<T>, b: seq<T>, c: seq<T>)
    ensures a + (b + c) == a + b + c
  {
  }

  lemma {:induction false} RunsJoin(w: World, a: seq<Turn>, b: seq<Turn>)
    requires Run(w, a) && Run(After(w, a), b)
    ensures Run(w, a + b) && After(w, a + b) == After(After(w, a), b)
    ensures Published(w, a + b) == Published(w, a) + Published(After(w, a), b)
    ensures Routed(w, a + b) <==> Routed(w, a) && Routed(After(w, a), b)
    decreases |a|
  {
    hide Did, OpenIsRouted, EventsOf;
    if a == [] {
      assert a + b == b;
    } else {
      var v := a[0].after;
      RunsJoin(v, a[1..], b);
      assert (a + b)[0] == a[0] && (a + b)[1..] == a[1..] + b;
      assert After(v, a[1..]) == After(w, a);
      Regroup(EventsOf(w, a[0]), Published(v, a[1..]), Published(After(w, a), b));
    }
  }

  lemma OneTurn(w: World, t: Turn, log: seq<Event>)
    requires Did(w, t)
    ensures Acted(w, t.after, log, log + EventsOf(w, t), [t])
    ensures Routed(w, [t]) <==> OpenIsRouted(t.open, w.routes)
  {
    hide Did, OpenIsRouted, EventsOf;
    var one := [t];
    assert one[0] == t && one[1..] == [];
    assert Run(t.after, []) && Routed(t.after, []) && Published(t.after, []) == [];
    assert Published(w, one) == EventsOf(w, t) + [];
    assert EventsOf(w, t) + [] == EventsOf(w, t);
  }

  // ---- What the broker's operations do, as deeds ----

  lemma SubmissionIsDeed(w0: World, w1: World, log0: seq<Event>, log1: seq<Event>, open: set<SessionId>,
                         n: NewJob, row: Job, claims: seq<JobId>, now: Time)
    requires WasQueued(w0, w1, log0, log1, n.session in open, n, row, claims, now)
    ensures Acted(w0, w1, log0, log1, [Turn(Queue(n, claims), open, now, w1)])
    ensures Routed(w0, [Turn(Queue(n, claims), open, now, w1)]) <==> OpenIsRouted(open, w0.routes)
  {
    hide Drained, Run, Published, Routed, Acted;
    OneTurn(w0, Turn(Queue(n, claims), open, now, w1), log0);
  }

  /** The turns of trying to end a job: one if it could end, otherwise none. */
  function EndingTurns(w0: World, w1: World, open: set<SessionId>, id: JobId, to: Status, patch: Patch, claims: seq<JobId>,
                       now: Time): seq<Turn>
  {
    if CanEnd(w0.rows, id) then [Turn(Finish(id, to, patch, claims), open, now, w1)] else []
  }

  lemma EndingIsDeed(w0: World, w1: World, log0: seq<Event>, log1: seq<Event>, open: set<SessionId>,
                     id: JobId, to: Status, patch: Patch, claims: seq<JobId>, now: Time)
    requires EndOutcome(w0, w1, log0, log1, id in w0.rows && w0.rows[id].session in open, id, to, patch, claims, now)
    requires to.Terminal()
    ensures Acted(w0, w1, log0, log1, EndingTurns(w0, w1, open, id, to, patch, claims, now))
    ensures OpenIsRouted(open, w0.routes) ==> Routed(w0, EndingTurns(w0, w1, open, id, to, patch, claims, now))
  {
    hide Drained, Run, Published, Routed, Acted, OpenIsRouted;
    if CanEnd(w0.rows, id) {
      OneTurn(w0, Turn(Finish(id, to, patch, claims), open, now, w1), log0);
    } else {
      NothingActed(w0, log0);
    }
  }

  /** The turns of replacing row `id` by a later version in its place, if it has changed. */
  function AmendTurns(w0: World, rows: Rows, id: JobId, kind: EventKind, changed: bool, now: Time): seq<Turn> {
    if changed && id in rows then [Turn(Amend(id, rows[id], kind), {}, now, w0.(rows := rows))] else []
  }

  lemma AmendingIsDeed(w0: World, rows: Rows, id: JobId, kind: EventKind, changed: bool, now: Time, log0: seq<Event>, log1: seq<Event>)
    requires if changed then
               && id in w0.rows && id in rows && RowEvolves(w0.rows[id], rows[id])
               && SamePlace(w0.rows[id].status, rows[id].status) && !kind.EndedEvent?
               && rows == w0.rows[id := rows[id]] && log1 == log0 + [Event(kind, rows[id])]
             else rows == w0.rows && log1 == log0
    ensures Acted(w0, w0.(rows := rows), log0, log1, AmendTurns(w0, rows, id, kind, changed, now))
    ensures Routed(w0, AmendTurns(w0, rows, id, kind, changed, now))
  {
    hide RowEvolves, Run, Published, Routed, Acted;
    if changed {
      OneTurn(w0, Turn(Amend(id, rows[id], kind), {}, now, w0.(rows := rows)), log0);
    } else {
      NothingActed(w0, log0);
    }
  }

  lemma RewiringIsDeed(w0: World, w1: World, log: seq<Event>, now: Time)
    requires w1 == w0.(routes := w1.routes)
    ensures Acted(w0, w1, log, log, [Turn(Rewire, {}, now, w1)]) && Routed(w0, [Turn(Rewire, {}, now, w1)])
  {
    hide Run, Published, Routed, Acted;
    OneTurn(w0, Turn(Rewire, {}, now, w1), log);
    assert log + [] == log;
  }

  /** A handshake is two: the connection is bound, then the session it attached is drained. */
  function AttachTurns(w1: World, w2: World, open: set<SessionId>, s: SessionId, claims: seq<JobId>, now: Time): seq<Turn> {
    [Turn(Rewire, {}, now, w1)] + [Turn(Attach(s, claims), open, now, w2)]
  }

  lemma AttachingIsDeed(w0: World, w1: World, w2: World, open: set<SessionId>, s: SessionId, claims: seq<JobId>, now: Time, log: seq<Event>)
    requires w1 == w0.(routes := w1.routes) && Drained(w1, w2, s in open, s, claims, now)
    ensures Acted(w0, w2, log, log, AttachTurns(w1, w2, open, s, claims, now))
    ensures Routed(w0, AttachTurns(w1, w2, open, s, claims, now)) <==> OpenIsRouted(open, w1.routes)
  {
    hide Drained, Run, Published, Routed, Acted, OpenIsRouted;
    RewiringIsDeed(w0, w1, log, now);
    OneTurn(w1, Turn(Attach(s, claims), open, now, w2), log);
    assert log + [] == log;
    ActedThen(w0, w1, w2, log, log, log, [Turn(Rewire, {}, now, w1)], [Turn(Attach(s, claims), open, now, w2)]);
  }

  // ---- Drains disturb no route ----

  lemma DrainKeepsRoutes(w0: World, w1: World, open: bool, s: SessionId, claims: seq<JobId>, now: Time)
    requires Drained(w0, w1, open, s, claims, now)
    ensures forall t :: RouteOf(w1.routes, t) == RouteOf(w0.routes, t)
  {
    hide WellChosen, Settled;
  }
}
