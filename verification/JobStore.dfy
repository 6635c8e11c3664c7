/** The job table and its compare-and-set writes and ordered, bounded reads (sqlite.ts). */
module JobStore {
  import opened Types
  import opened JobRow

  // The WHERE and ORDER BY clauses of the table's bounded queries.
  datatype Query =
    | PendingOf(session: SessionId)
    | DueBy(now: Time)
    | InFlightJobs
    | RefSince(session: SessionId, ref: string, since: Time)

  predicate Matches(q: Query, j: Job) {
    match q
    case PendingOf(s) => j.session == s && j.status == Pending
    case DueBy(now) => j.expiresAt <= now && !j.status.Terminal()
    case InFlightJobs => j.status.InFlight()
    case RefSince(s, ref, since) => j.session == s && j.clientRef == Some(ref) && j.createdAt >= since
  }

  function SortKey(q: Query, j: Job): Key {
    match q
    case PendingOf(_) => (j.priority.Order(), j.createdAt)
    case DueBy(_) => (j.expiresAt, 0)
    case InFlightJobs => (-j.createdAt, 0)
    case RefSince(_, _, _) => (-j.createdAt, 0)
  }

  predicate Before(q: Query, a: Job, b: Job) {
    KeyLe(SortKey(q, a), SortKey(q, b))
  }

  /** `page` is a possible answer to `q` with LIMIT `limit`: rows that tie in the order may come in any order. */
  ghost predicate IsPage(page: seq<Job>, rows: Rows, q: Query, limit: nat) {
    && |page| <= limit
    && (forall i :: 0 <= i < |page| ==>
          page[i].id in rows && rows[page[i].id] == page[i] && Matches(q, page[i]))
    && (forall i, k :: 0 <= i < k < |page| ==> page[i].id != page[k].id && Before(q, page[i], page[k]))
    && (forall id :: id in rows && Matches(q, rows[id]) ==>
          rows[id] in page ||
          (|page| == limit && forall i :: 0 <= i < |page| ==> Before(q, page[i], rows[id])))
  }

  ghost predicate Keyed(rows: Rows) {
    forall id :: id in rows ==> rows[id].id == id
  }

  lemma FirstExists(rows: Rows, q: Query, rest: set<JobId>)
    requires rest != {} && rest <= rows.Keys
    ensures exists m :: m in rest && forall k :: k in rest ==> Before(q, rows[m], rows[k])
    decreases rest
  {
    var m :| m in rest;
    if rest != {m} {
      FirstExists(rows, q, rest - {m});
      var n :| n in rest - {m} && forall k :: k in rest - {m} ==> Before(q, rows[n], rows[k]);
      var best := if Before(q, rows[m], rows[n]) then m else n;
      assert forall k :: k in rest ==> k == m || k in rest - {m};
      assert best in rest && forall k :: k in rest ==> Before(q, rows[best], rows[k]);
    }
  }

  function Ids(page: seq<Job>): set<JobId> {
    set i | 0 <= i < |page| :: page[i].id
  }

  lemma {:induction false} DistinctIds(page: seq<Job>)
    requires forall i, k :: 0 <= i < k < |page| ==> page[i].id != page[k].id
    ensures |Ids(page)| == |page|
  {
    if page != [] {
      var n := |page| - 1;
      DistinctIds(page[..n]);
      assert Ids(page) == Ids(page[..n]) + {page[n].id};
    }
  }

  lemma SubsetSize<T>(a: set<T>, b: set<T>)
    requires a <= b
    ensures |a| <= |b|
  {
    assert b == a + (b - a);
  }

  /** What an answer to a bounded query says, in terms of ids. */
  lemma PageFacts(page: seq<Job>, rows: Rows, q: Query, limit: nat)
    requires Keyed(rows) && IsPage(page, rows, q, limit)
    ensures |Ids(page)| == |page|
    ensures forall k :: k in Ids(page) ==> k in rows && Matches(q, rows[k])
    ensures forall id :: id in rows && Matches(q, rows[id]) && id !in Ids(page) ==>
              |page| == limit && forall k :: k in Ids(page) ==> Before(q, rows[k], rows[id])
  {
    DistinctIds(page);
    forall id | id in rows && Matches(q, rows[id]) && id !in Ids(page)
      ensures |page| == limit && forall k :: k in Ids(page) ==> Before(q, rows[k], rows[id])
    {
      assert rows[id] !in page;
    }
  }

  /** `page` holds the first matching rows in order, and `rest` the ids of the others. */
  ghost predicate Selected(page: seq<Job>, rows: Rows, q: Query, rest: set<JobId>) {
    && (forall id :: id in rest ==> id in rows && Matches(q, rows[id]))
    && (forall i :: 0 <= i < |page| ==>
          page[i].id in rows && rows[page[i].id] == page[i] && Matches(q, page[i]) && page[i].id !in rest)
    && (forall i, k :: 0 <= i < k < |page| ==> page[i].id != page[k].id && Before(q, page[i], page[k]))
    && (forall i, id :: 0 <= i < |page| && id in rest ==> Before(q, page[i], rows[id]))
    && (forall id :: id in rows && Matches(q, rows[id]) ==> id in rest || rows[id] in page)
  }

  lemma SelectNext(page: seq<Job>, rows: Rows, q: Query, rest: set<JobId>, m: JobId)
    requires Keyed(rows) && Selected(page, rows, q, rest)
    requires m in rest && forall k :: k in rest ==> k in rows && Before(q, rows[m], rows[k])
    ensures Selected(page + [rows[m]], rows, q, rest - {m})
  {
    hide Matches, Before;
    var more := page + [rows[m]];
    assert more[|page|] == rows[m];
    forall id | id in rows && Matches(q, rows[id]) ensures id in rest - {m} || rows[id] in more {
      assert id in rest || rows[id] in page;
    }
  }

  datatype StoreError = DuplicateId | DuplicateRef | NoSuchJob

  predicate RefTaken(rows: Rows, s: SessionId, ref: Option<string>) {
    ref.Some? && exists id :: id in rows && rows[id].session == s && rows[id].clientRef == ref
  }

  class JobStore {
    var rows: Rows

    constructor (persisted: Rows)
      ensures rows == persisted
    {
      rows := persisted;
    }

    method Insert(n: NewJob) returns (r: Result<Job, StoreError>)
      modifies this
      ensures r.Err? <==>
                (n.id in old(rows)
                 || (n.clientRef.Some?
                     && exists k :: k in old(rows) && old(rows)[k].session == n.session && old(rows)[k].clientRef == n.clientRef))
      ensures r.Err? ==> rows == old(rows) && r.error == if n.id in rows then DuplicateId else DuplicateRef
      ensures n.id in old(rows) || RefTaken(old(rows), n.session, n.clientRef) ==>
                r.Err? && rows == old(rows)
      ensures n.id !in old(rows) && !RefTaken(old(rows), n.session, n.clientRef) ==>
                r == Ok(FreshRow(n)) && rows == old(rows)[n.id := FreshRow(n)]
    {
      if n.id in rows {
        return Err(DuplicateId);
      }
      if RefTaken(rows, n.session, n.clientRef) {
        return Err(DuplicateRef);
      }
      var history := [HistoryEntry(n.createdAt, None, Pending)];
      var row := Job(n.id, n.session, Pending, n.priority, n.mode, n.content, n.meta, n.ttlSec, n.clientRef,
                     Null, None, [], history, n.createdAt, None, None, n.expiresAt);
      rows := rows[n.id := row];
      return Ok(row);
    }

    /** The compare-and-set every status change goes through. */
    method TransitionStatus(id: JobId, expected: Status, to: Status, patch: Patch, at: Time)
      returns (r: Option<Job>)
      modifies this
      ensures id in old(rows) && old(rows)[id].status == expected ==>
                r == Some(Transitioned(old(rows)[id], to, patch, at)) && rows == old(rows)[id := r.value]
      ensures id in old(rows) && old(rows)[id].status == expected ==>
                var was := old(rows)[id];
                r.Some? && MovesTo(was, r.value, to, OrKept(patch.result, was.result),
                                   if patch.error.Some? then patch.error else was.error, OrKept(patch.notes, was.notes), at)
      ensures !(id in old(rows) && old(rows)[id].status == expected) ==> r == None && rows == old(rows)
    {
      if id !in rows || rows[id].status != expected {
        return None;
      }
      var row := rows[id];
      row := row.(status := to, history := row.history + [HistoryEntry(at, Some(row.status), to)]);
      if patch.result.Some? {
        row := row.(result := patch.result.value);
      }
      if patch.error.Some? {
        row := row.(error := patch.error);
      }
      if patch.notes.Some? {
        row := row.(notes := patch.notes.value);
      }
      if to == Dispatched {
        row := row.(dispatchedAt := Some(at));
      }
      if to == Completed || to == Failed || to == Cancelled || to == Expired || to == Orphaned {
        row := row.(completedAt := Some(at));
      }
      rows := rows[id := row];
      return Some(row);
    }

    method PatchRow(id: JobId, patch: Patch) returns (r: Result<Job, StoreError>)
      modifies this
      ensures id in old(rows) ==>
                r == Ok(Patched(old(rows)[id], patch)) && rows == old(rows)[id := r.value]
      ensures id in old(rows) ==>
                var was := old(rows)[id];
                r.Ok? && r.value == was.(result := OrKept(patch.result, was.result), notes := OrKept(patch.notes, was.notes),
                                         error := if patch.error.Some? then patch.error else was.error)
      ensures id !in old(rows) ==> r == Err(NoSuchJob) && rows == old(rows)
    {
      if id !in rows {
        return Err(NoSuchJob);
      }
      var row := rows[id];
      if patch.result.Some? {
        row := row.(result := patch.result.value);
      }
      if patch.error.Some? {
        row := row.(error := patch.error);
      }
      if patch.notes.Some? {
        row := row.(notes := patch.notes.value);
      }
      rows := rows[id := row];
      return Ok(row);
    }

    method Get(id: JobId) returns (r: Option<Job>)
      ensures r == if id in rows then Some(rows[id]) else None
    {
      r := if id in rows then Some(rows[id]) else None;
    }

    /** SELECT ... WHERE ... ORDER BY ... LIMIT, ties broken arbitrarily. */
    method Select(q: Query, limit: nat) returns (page: seq<Job>)
      requires Keyed(rows)
      ensures IsPage(page, rows, q, limit)
    {
      page := [];
      var rest := set id | id in rows && Matches(q, rows[id]);
      while |page| < limit && rest != {}
        invariant |page| <= limit && rest <= rows.Keys
        invariant Selected(page, rows, q, rest)
        decreases rest
      {
        FirstExists(rows, q, rest);
        var m :| m in rest && forall k :: k in rest ==> Before(q, rows[m], rows[k]);
        SelectNext(page, rows, q, rest, m);
        page := page + [rows[m]];
        rest := rest - {m};
      }
    }

    method FindPending(s: SessionId, limit: nat) returns (page: seq<Job>)
      requires Keyed(rows)
      ensures IsPage(page, rows, PendingOf(s), limit)
      ensures |page| <= limit && forall i :: 0 <= i < |page| ==> Waiting(rows, s, page[i].id) && rows[page[i].id] == page[i]
      ensures forall i, k :: 0 <= i < k < |page| ==> ComesFirst(page[i], page[k])
      ensures forall id :: Waiting(rows, s, id) && rows[id] !in page ==>
                |page| == limit && forall i :: 0 <= i < |page| ==> ComesFirst(page[i], rows[id])
    {
      page := Select(PendingOf(s), limit);
      QueueOrder(s);
    }

    method FindExpired(now: Time, limit: nat) returns (page: seq<Job>)
      requires Keyed(rows)
      ensures IsPage(page, rows, DueBy(now), limit)
      ensures |page| <= limit && forall i :: 0 <= i < |page| ==> Overdue(rows, now, page[i].id) && rows[page[i].id] == page[i]
      ensures forall i, k :: 0 <= i < k < |page| ==> page[i].expiresAt <= page[k].expiresAt
      ensures forall id :: Overdue(rows, now, id) && rows[id] !in page ==>
                |page| == limit && forall i :: 0 <= i < |page| ==> page[i].expiresAt <= rows[id].expiresAt
    {
      page := Select(DueBy(now), limit);
    }

    /** list({ status: ['dispatched', 'in_progress'], limit }): newest first, never more than 500 rows. */
    method ListInFlight(limit: nat) returns (page: seq<Job>)
      requires Keyed(rows)
      ensures IsPage(page, rows, InFlightJobs, ListLimit(limit))
      ensures |page| <= limit && |page| <= 500
      ensures forall i :: 0 <= i < |page| ==> Out(rows, page[i].id) && rows[page[i].id] == page[i]
      ensures forall i, k :: 0 <= i < k < |page| ==> page[i].createdAt >= page[k].createdAt
      ensures forall id :: Out(rows, id) && rows[id] !in page ==>
                (|page| == limit || |page| == 500) && forall i :: 0 <= i < |page| ==> page[i].createdAt >= rows[id].createdAt
    {
      page := Select(InFlightJobs, if limit < 500 then limit else 500);
    }

    method FindByClientRef(s: SessionId, ref: string, withinMs: int, now: Time) returns (r: Option<Job>)
      requires Keyed(rows)
      ensures r.Some? ==> Recent(rows, s, ref, withinMs, now, r.value.id) && rows[r.value.id] == r.value
      ensures r.None? ==> forall id :: !Recent(rows, s, ref, withinMs, now, id)
      ensures r.Some? ==> forall id :: Recent(rows, s, ref, withinMs, now, id) ==> rows[id].createdAt <= r.value.createdAt
    {
      var page := Select(RefSince(s, ref, now - withinMs), 1);
      r := if page == [] then None else Some(page[0]);
    }
  }

  // ---- The queries in terms of columns ----

  predicate Waiting(rows: Rows, s: SessionId, id: JobId) {
    id in rows && rows[id].session == s && rows[id].status == Pending
  }

  predicate Overdue(rows: Rows, now: Time, id: JobId) {
    id in rows && rows[id].expiresAt <= now
    && (rows[id].status == Pending || rows[id].status == Dispatched || rows[id].status == InProgress)
  }

  predicate Out(rows: Rows, id: JobId) {
    id in rows && (rows[id].status == Dispatched || rows[id].status == InProgress)
  }

  predicate Recent(rows: Rows, s: SessionId, ref: string, withinMs: int, now: Time, id: JobId) {
    id in rows && rows[id].session == s && rows[id].clientRef == Some(ref) && rows[id].createdAt >= now - withinMs
  }

  /** Higher priority first, and among equals the older job. */
  predicate ComesFirst(a: Job, b: Job) {
    !MoreUrgent(b.priority, a.priority) && (a.priority == b.priority ==> a.createdAt <= b.createdAt)
  }

  /** The queue's sort key means just that. */
  lemma QueueOrder(s: SessionId)
    ensures forall a, b :: Before(PendingOf(s), a, b) <==> ComesFirst(a, b)
  {
  }

  const LIST_CAP := 500

  function ListLimit(limit: nat): nat {
    if limit < LIST_CAP then limit else LIST_CAP
  }
}
