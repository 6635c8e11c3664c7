/** The job record, its states, and the read-only queries' ordering (ports/types.ts). */
module Types {
  datatype Option<+T> = None | Some(value: T)

  datatype Result<+T, +E> = Ok(value: T) | Err(error: E)

  // Random identifiers, compared only for equality.
  datatype JobId = JobId(text: string)
  datatype SessionId = SessionId(text: string)

  // Milliseconds since the epoch.
  type Time = int

  // A stored JSON value; only the distinction between null and the rest matters here.
  datatype Json = Null | Value(text: string)

  datatype Status =
    | Pending | Dispatched | InProgress
    | Completed | Failed | Cancelled | Expired | Orphaned
  {
    predicate Terminal() {
      this in {Completed, Failed, Cancelled, Expired, Orphaned}
    }

    predicate InFlight() {
      this == Dispatched || this == InProgress
    }

    /** Position in the life cycle: every legal transition climbs. */
    function Rank(): nat {
      match this
      case Pending => 0
      case Dispatched => 1
      case InProgress => 2
      case _ => 3
    }
  }

  datatype Priority = High | Normal | Low {
    function Order(): int {
      match this
      case High => 0
      case Normal => 1
      case Low => 2
    }
  }

  /** `a` is served before `b` whatever their age. */
  predicate MoreUrgent(a: Priority, b: Priority) {
    (a == High && (b == Normal || b == Low)) || (a == Normal && b == Low)
  }

  datatype Mode = Serial | FireAndForget

  datatype Note = Note(at: Time, text: string)

  datatype HistoryEntry = HistoryEntry(at: Time, from: Option<Status>, to: Status)

  datatype Job = Job(
    id: JobId, session: SessionId, status: Status, priority: Priority, mode: Mode,
    content: string, meta: map<string, string>, ttlSec: int, clientRef: Option<string>,
    result: Json, error: Option<string>, notes: seq<Note>, history: seq<HistoryEntry>,
    createdAt: Time, dispatchedAt: Option<Time>, completedAt: Option<Time>, expiresAt: Time)

  datatype NewJob = NewJob(
    id: JobId, session: SessionId, content: string, meta: map<string, string>,
    priority: Priority, mode: Mode, ttlSec: int, clientRef: Option<string>,
    createdAt: Time, expiresAt: Time)

  // The jobs table, by primary key.
  type Rows = map<JobId, Job>

  // The columns the service ever patches; an absent field is left as it is.
  datatype Patch = Patch(result: Option<Json>, error: Option<string>, notes: Option<seq<Note>>)

  const NO_PATCH := Patch(None, None, None)

  datatype EventKind = CreatedEvent | ProgressEvent | CommentedEvent | EndedEvent(to: Status)

  datatype Event = Event(kind: EventKind, row: Job)

  // Lexicographic ORDER BY keys.
  type Key = (int, int)

  predicate KeyLe(a: Key, b: Key) {
    a.0 < b.0 || (a.0 == b.0 && a.1 <= b.1)
  }
}
