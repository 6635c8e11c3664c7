/** What one stored row may look like, and how a row or the whole table may change over time. */
module JobRow {
  import opened Types

  function FreshRow(n: NewJob): Job {
    Job(n.id, n.session, Pending, n.priority, n.mode, n.content, n.meta, n.ttlSec, n.clientRef,
        Null, None, [], [HistoryEntry(n.createdAt, None, Pending)],
        n.createdAt, None, None, n.expiresAt)
  }

  function Patched(j: Job, p: Patch): Job {
    j.(result := if p.result.Some? then p.result.value else j.result,
       error := if p.error.Some? then p.error else j.error,
       notes := if p.notes.Some? then p.notes.value else j.notes)
  }

  /** The row after a successful status change at time `at`. */
  function Transitioned(j: Job, to: Status, p: Patch, at: Time): Job {
    Patched(j, p).(
      status := to,
      history := j.history + [HistoryEntry(at, Some(j.status), to)],
      dispatchedAt := if to == Dispatched then Some(at) else j.dispatchedAt,
      completedAt := if to.Terminal() then Some(at) else j.completedAt)
  }

  /** The columns a job keeps for life. */
  predicate SameJob(a: Job, b: Job) {
    && b.id == a.id && b.session == a.session && b.priority == a.priority && b.mode == a.mode
    && b.content == a.content && b.meta == a.meta && b.ttlSec == a.ttlSec && b.clientRef == a.clientRef
    && b.createdAt == a.createdAt && b.expiresAt == a.expiresAt
  }

  /** Column by column: `b` is `a` after its status became `to` at time `at`, with these contents. */
  predicate MovesTo(a: Job, b: Job, to: Status, result: Json, error: Option<string>, notes: seq<Note>, at: Time) {
    && SameJob(a, b)
    && b.status == to && b.result == result && b.error == error && b.notes == notes
    && b.history == a.history + [HistoryEntry(at, Some(a.status), to)]
    && b.dispatchedAt == (if to == Dispatched then Some(at) else a.dispatchedAt)
    && b.completedAt == (if to in {Completed, Failed, Cancelled, Expired, Orphaned} then Some(at) else a.completedAt)
  }

  // A patched column: the new value if there is one.
  function OrKept<T>(given: Option<T>, kept: T): T {
    match given
    case Some(v) => v
    case None => kept
  }

  /** The status changes the service, the dispatcher and the sweeper ever attempt. */
  predicate Edge(from: Status, to: Status) {
    match from
    case Pending => to == Dispatched || (to.Terminal() && to != Orphaned)
    case Dispatched => to == InProgress || to.Terminal()
    case InProgress => to.Terminal()
    case _ => false
  }

  /** The time of the last entry into `dispatched`, if the history holds one. */
  function LastDispatch(h: seq<HistoryEntry>): (t: Option<Time>)
    ensures t.Some? <==> exists i :: 0 <= i < |h| && h[i].to == Dispatched
    ensures t.Some? ==> exists i :: 0 <= i < |h| && h[i].to == Dispatched && h[i].at == t.value
  {
    if h == [] then None
    else if h[|h| - 1].to == Dispatched then Some(h[|h| - 1].at)
    else LastDispatch(h[..|h| - 1])
  }

  /** Entry `i` continues entry `i - 1` by a legal transition, no earlier. */
  predicate Linked(h: seq<HistoryEntry>, i: nat)
    requires 0 < i < |h|
  {
    h[i].from == Some(h[i - 1].to) && Edge(h[i - 1].to, h[i].to) && h[i - 1].at <= h[i].at
  }

  /** The history of `j` is a legal run up to its present status, and the timestamps agree with it. */
  ghost predicate Faithful(j: Job, now: Time) {
    var h := j.history;
    && |h| > 0
    && h[0] == HistoryEntry(j.createdAt, None, Pending)
    && h[|h| - 1].to == j.status
    && h[|h| - 1].at <= now
    && (forall i :: 0 < i < |h| ==> Linked(h, i))
    && j.dispatchedAt == LastDispatch(h)
    && j.completedAt == (if j.status.Terminal() then Some(h[|h| - 1].at) else None)
    && (j.status == Expired ==> j.expiresAt <= h[|h| - 1].at)
  }

  /** Every row is stored under its own id and is faithful at `now`. */
  ghost predicate Sound(rows: Rows, now: Time) {
    forall id :: id in rows ==> rows[id].id == id && Faithful(rows[id], now)
  }

  /** The partial unique index on (session_id, client_ref). */
  ghost predicate UniqueRefs(rows: Rows) {
    forall a, b :: a in rows && b in rows && a != b && rows[a].clientRef.Some? && rows[a].session == rows[b].session
      ==> rows[a].clientRef != rows[b].clientRef
  }

  /** `b` is a later version of row `a`: identity and submitted data stay, history only grows, the
      life cycle only advances, and once terminal nothing but progress notes may differ. */
  ghost predicate RowEvolves(a: Job, b: Job) {
    && SameJob(a, b)
    && a.history <= b.history
    && a.status.Rank() <= b.status.Rank()
    && (a.status == b.status ==> b == a.(notes := b.notes))
    && (a.status.Terminal() ==> b == a.(notes := b.notes))
    && (a.dispatchedAt.Some? ==> b.dispatchedAt == a.dispatchedAt)
  }

  ghost predicate Evolves(r0: Rows, r1: Rows) {
    r0.Keys <= r1.Keys && forall id :: id in r0 ==> RowEvolves(r0[id], r1[id])
  }

  lemma EvolvesTransitive(r0: Rows, r1: Rows, r2: Rows)
    requires Evolves(r0, r1) && Evolves(r1, r2)
    ensures Evolves(r0, r2)
  {
    forall id | id in r0 ensures RowEvolves(r0[id], r2[id]) {
      RowEvolvesTransitive(r0[id], r1[id], r2[id]);
    }
  }

  lemma RowEvolvesTransitive(a: Job, b: Job, c: Job)
    requires RowEvolves(a, b) && RowEvolves(b, c)
    ensures RowEvolves(a, c)
  {
  }

  lemma PendingNotDispatched(j: Job, now: Time)
    requires Faithful(j, now) && j.status == Pending
    ensures |j.history| == 1 && j.dispatchedAt.None?
  {
    var h := j.history;
    assert |h| > 1 ==> Linked(h, |h| - 1);
  }

  /** A legal transition at a later time keeps the row's history a run. */
  lemma TransitionKeepsFaith(j: Job, to: Status, p: Patch, now: Time, at: Time)
    requires Faithful(j, now) && now <= at && Edge(j.status, to)
    requires to == Expired ==> j.expiresAt <= at
    ensures Faithful(Transitioned(j, to, p, at), at)
    ensures RowEvolves(j, Transitioned(j, to, p, at))
  {
    var k := Transitioned(j, to, p, at);
    assert k.history[..|k.history| - 1] == j.history;
    forall i | 0 < i < |k.history| ensures Linked(k.history, i) {
      assert i < |j.history| ==> Linked(j.history, i);
    }
    if to == Dispatched {
      PendingNotDispatched(j, now);
    }
  }

  lemma PatchKeepsFaith(j: Job, p: Patch, before: Time, now: Time)
    requires Faithful(j, before) && before <= now && p.result.None? && p.error.None?
    ensures Faithful(Patched(j, p), now) && RowEvolves(j, Patched(j, p))
  {
  }

  lemma LaterIsSound(rows: Rows, before: Time, now: Time)
    requires Sound(rows, before) && before <= now
    ensures Sound(rows, now)
  {
  }

  /** Replacing one row by a faithful later version keeps the table sound. */
  lemma ReplaceRow(rows: Rows, id: JobId, row: Job, before: Time, now: Time)
    requires Sound(rows, before) && UniqueRefs(rows) && before <= now && id in rows
    requires Faithful(row, now) && RowEvolves(rows[id], row)
    ensures Sound(rows[id := row], now) && UniqueRefs(rows[id := row]) && Evolves(rows, rows[id := row])
  {
  }

  /** Adding a fresh row under an unused id, with an unused client_ref, keeps the table sound. */
  lemma InsertRow(rows: Rows, n: NewJob, before: Time, now: Time)
    requires Sound(rows, before) && UniqueRefs(rows) && before <= now && n.createdAt <= now && n.id !in rows
    requires n.clientRef.Some? ==> forall id :: id in rows && rows[id].session == n.session ==> rows[id].clientRef != n.clientRef
    ensures var r := rows[n.id := FreshRow(n)];
            Sound(r, now) && UniqueRefs(r) && Evolves(rows, r)
  {
    FreshIsFaithful(n, now);
    LaterIsSound(rows, before, now);
    hide Faithful;
  }

  lemma FreshIsFaithful(n: NewJob, now: Time)
    requires n.createdAt <= now
    ensures Faithful(FreshRow(n), now)
  {
  }

  /** Along a faithful history the life cycle strictly climbs. */
  lemma {:induction false} HistoryClimbs(j: Job, now: Time, i: nat, k: nat)
    requires Faithful(j, now) && i < k < |j.history|
    ensures j.history[i].to.Rank() + (k - i) <= j.history[k].to.Rank()
    ensures j.history[i].at <= j.history[k].at
    decreases k
  {
    assert Linked(j.history, k);
    if i < k - 1 {
      HistoryClimbs(j, now, i, k - 1);
    }
  }

  /** So no row ever changes status more than three times, and only an in-flight row is orphaned. */
  lemma HistoryIsShort(j: Job, now: Time)
    requires Faithful(j, now)
    ensures |j.history| <= 4
    ensures j.createdAt <= now
    ensures j.status == Orphaned ==> j.dispatchedAt.Some?
    ensures j.status.InFlight() ==> j.dispatchedAt.Some? && j.createdAt <= j.dispatchedAt.value <= now
  {
    var h := j.history;
    var n := |h|;
    if n > 1 {
      HistoryClimbs(j, now, 0, n - 1);
      assert Linked(h, 1);
      if n > 2 {
        HistoryClimbs(j, now, 1, n - 1);
      }
      assert h[1].to == Dispatched || n == 2;
    }
  }
}
