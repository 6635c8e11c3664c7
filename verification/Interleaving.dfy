/** The job engine cut at every await: operations keep their stale snapshots between steps, and any
    other operation may run in between. Only the store's compare-and-set resolves the races. */
module Interleaving {
  import opened Types
  import opened JobRow
  import opened JobStore
  import opened DrainRules

  // The five ways a job can be made terminal.
  datatype Finish = CancelIt | CompleteIt(result: Option<Json>) | FailIt(error: Option<string>) | ExpireIt | OrphanIt {
    function Target(): Status {
      match this
      case CancelIt => Cancelled
      case CompleteIt(_) => Completed
      case FailIt(_) => Failed
      case ExpireIt => Expired
      case OrphanIt => Orphaned
    }

    function Change(): Patch {
      match this
      case CancelIt => NO_PATCH
      case CompleteIt(r) => Patch(r, None, None)
      case FailIt(e) => Patch(None, e, None)
      case ExpireIt => Patch(None, Some("ttl_elapsed"), None)
      case OrphanIt => Patch(None, Some("session_unreachable"), None)
    }
  }

  // What a published event is followed by: nothing, notifyPending or notifyDone.
  datatype Wake = Nobody | ForPending | ForDone

  // A service call between two awaits, with its snapshot.
  datatype Proc =
    | Listed(job: JobId, fin: Finish)                  // in a sweeper batch, not read yet
    | Deciding(job: JobId, seen: Status, fin: Finish)  // read, before the compare-and-set
    | Noting(job: JobId, next: seq<Note>)              // seen dispatched, before the compare-and-set
    | Patching(job: JobId, next: seq<Note>, kind: EventKind)
    | Acking(job: JobId)
    | Announcing(kind: EventKind, row: Job, wake: Wake)

  // drainOnce between two awaits.
  datatype Drain = Scanning | Holding(page: seq<Job>) | Claimed(row: Job) | Failing(row: Job)

  datatype State = State(
    rows: Rows, now: Time, busy: set<SessionId>,
    procs: map<nat, Proc>,
    queued: multiset<SessionId>,        // drains waiting on their session's chain
    drains: map<SessionId, Drain>,      // the one running drain of a session
    // what happened so far
    endings: seq<Event>,                // the published terminal events
    dones: seq<JobId>,                  // the notifyDone calls
    claims: seq<JobId>, wire: seq<(SessionId, JobId)>, failed: seq<JobId>,
    serialClaims: multiset<SessionId>, clears: multiset<SessionId>)

  datatype Action =
    | Advance(ms: nat)
    | Insert(pid: nat, job: NewJob)
    | Read(pid: nat, id: JobId, fin: Finish)
    | List(pid: nat, id: JobId, fin: Finish)
    | ReadListed(pid: nat)
    | Decide(pid: nat)
    | NoteRead(pid: nat, id: JobId, note: string)
    | NoteDecide(pid: nat)
    | CommentRead(pid: nat, id: JobId, note: string)
    | WriteNotes(pid: nat)
    | AckRead(pid: nat, id: JobId)
    | AckDecide(pid: nat)
    | Publish(pid: nat)
    | SessionAttached(session: SessionId)
    | StartDrain(session: SessionId, open: bool)
    | Scan(session: SessionId, page: seq<Job>)
    | Choose(session: SessionId)
    | Send(session: SessionId, ok: bool)
    | GiveUp(session: SessionId)

  predicate Live(b: State, id: JobId) {
    id in b.rows && !b.rows[id].status.Terminal()
  }

  /** The loop over a page: the head unless busy, else the first fire-and-forget job. */
  function FirstSendable(page: seq<Job>, busy: bool): (r: Option<Job>)
    ensures r.Some? ==> r.value in page && (r.value.mode == Serial ==> !busy)
  {
    if page == [] then None
    else if page[0].mode == FireAndForget || !busy then Some(page[0])
    else FirstSendable(page[1..], busy)
  }

  predicate Blocked(page: seq<Job>, busy: bool, n: nat)
    requires n <= |page|
  {
    forall k :: 0 <= k < n ==> busy && page[k].mode == Serial
  }

  /** It passes over serial jobs of a busy session and nothing else. */
  lemma {:induction false} FirstSendableIsFirst(page: seq<Job>, busy: bool) returns (i: nat)
    ensures i <= |page| && Blocked(page, busy, i)
    ensures FirstSendable(page, busy) == if i < |page| then Some(page[i]) else None
    ensures i < |page| ==> page[i].mode == FireAndForget || !busy
  {
    if page == [] || page[0].mode == FireAndForget || !busy {
      i := 0;
    } else {
      i := FirstSendableIsFirst(page[1..], busy);
      i := i + 1;
      forall k | 0 <= k < i ensures busy && page[k].mode == Serial {
        assert k > 0 ==> page[1..][k - 1] == page[k];
      }
    }
  }

  ghost predicate Enabled(b: State, a: Action) {
    match a
    case Advance(_) => true
    case Insert(pid, n) =>
      pid !in b.procs && n.createdAt <= b.now && n.id !in b.rows && !RefTaken(b.rows, n.session, n.clientRef)
    case Read(pid, id, fin) => pid !in b.procs && Live(b, id) && fin !in {ExpireIt, OrphanIt}
    case List(pid, id, fin) =>
      pid !in b.procs && Live(b, id) &&
      ((fin == ExpireIt && b.rows[id].expiresAt <= b.now) || (fin == OrphanIt && b.rows[id].status.InFlight()))
    case ReadListed(pid) => pid in b.procs && b.procs[pid].Listed?
    case Decide(pid) => pid in b.procs && b.procs[pid].Deciding?
    case NoteRead(pid, id, _) => pid !in b.procs && Live(b, id)
    case NoteDecide(pid) => pid in b.procs && b.procs[pid].Noting?
    case CommentRead(pid, id, _) => pid !in b.procs && Live(b, id)
    case WriteNotes(pid) => pid in b.procs && b.procs[pid].Patching? && b.procs[pid].job in b.rows
    case AckRead(pid, id) => pid !in b.procs && id in b.rows && b.rows[id].status == Dispatched
    case AckDecide(pid) => pid in b.procs && b.procs[pid].Acking?
    case Publish(pid) => pid in b.procs && b.procs[pid].Announcing?
    case SessionAttached(_) => true
    case StartDrain(s, _) => s in b.queued && s !in b.drains
    case Scan(s, page) => s in b.drains && b.drains[s].Scanning? && IsPage(page, b.rows, PendingOf(s), WINDOW)
    case Choose(s) => s in b.drains && b.drains[s].Holding?
    case Send(s, _) => s in b.drains && b.drains[s].Claimed?
    case GiveUp(s) => s in b.drains && b.drains[s].Failing?
  }

  function Without<K, V>(m: map<K, V>, k: K): map<K, V> {
    map x | x in m && x != k :: m[x]
  }

  /** Compare-and-set by process `pid`: on success the row changes and the event is due. */
  function CasBy(b: State, pid: nat, id: JobId, expected: Status, to: Status, p: Patch, kind: EventKind, wake: Wake,
                 lost: map<nat, Proc>): (c: State)
    ensures c == b.(rows := c.rows, procs := c.procs)
  {
    if id in b.rows && b.rows[id].status == expected then
      var row := Transitioned(b.rows[id], to, p, b.now);
      b.(rows := b.rows[id := row], procs := b.procs[pid := Announcing(kind, row, wake)])
    else b.(procs := lost)
  }

  function DoReadListed(b: State, pid: nat): (c: State)
    requires pid in b.procs && b.procs[pid].Listed?
    ensures c == b.(procs := c.procs)
  {
    var p := b.procs[pid];
    b.(procs := if Live(b, p.job) then b.procs[pid := Deciding(p.job, b.rows[p.job].status, p.fin)] else Without(b.procs, pid))
  }

  function DoDecide(b: State, pid: nat): (c: State)
    requires pid in b.procs && b.procs[pid].Deciding?
    ensures c == b.(rows := c.rows, procs := c.procs)
  {
    var p := b.procs[pid];
    CasBy(b, pid, p.job, p.seen, p.fin.Target(), p.fin.Change(), EndedEvent(p.fin.Target()), ForDone,
          Without(b.procs, pid))
  }

  function DoNoteRead(b: State, pid: nat, id: JobId, note: string): (c: State)
    requires id in b.rows
    ensures c == b.(procs := c.procs)
  {
    var next := b.rows[id].notes + [Note(b.now, note)];
    b.(procs := b.procs[pid := if b.rows[id].status == Dispatched then Noting(id, next) else Patching(id, next, ProgressEvent)])
  }

  function DoNoteDecide(b: State, pid: nat): (c: State)
    requires pid in b.procs && b.procs[pid].Noting?
    ensures c == b.(rows := c.rows, procs := c.procs)
  {
    var p := b.procs[pid];
    CasBy(b, pid, p.job, Dispatched, InProgress, NO_PATCH.(notes := Some(p.next)), ProgressEvent, Nobody,
          b.procs[pid := Patching(p.job, p.next, ProgressEvent)])
  }

  function DoWriteNotes(b: State, pid: nat): (c: State)
    requires pid in b.procs && b.procs[pid].Patching? && b.procs[pid].job in b.rows
    ensures c == b.(rows := c.rows, procs := c.procs)
  {
    var p := b.procs[pid];
    var row := Patched(b.rows[p.job], NO_PATCH.(notes := Some(p.next)));
    b.(rows := b.rows[p.job := row], procs := b.procs[pid := Announcing(p.kind, row, Nobody)])
  }

  function DoAckDecide(b: State, pid: nat): (c: State)
    requires pid in b.procs && b.procs[pid].Acking?
    ensures c == b.(rows := c.rows, procs := c.procs)
  {
    CasBy(b, pid, b.procs[pid].job, Dispatched, InProgress, NO_PATCH, ProgressEvent, Nobody,
          Without(b.procs, pid))
  }

  /** Publish, and in the same step the synchronous part of notifyPending or notifyDone. */
  function DoPublish(b: State, pid: nat): (c: State)
    requires pid in b.procs && b.procs[pid].Announcing?
    ensures c == b.(endings := c.endings, procs := c.procs, queued := c.queued, dones := c.dones, busy := c.busy, clears := c.clears)
  {
    var p := b.procs[pid];
    var s := p.row.session;
    var told := b.(endings := if p.kind.EndedEvent? then b.endings + [Event(p.kind, p.row)] else b.endings,
                   procs := Without(b.procs, pid));
    match p.wake
    case Nobody => told
    case ForPending => told.(queued := b.queued + multiset{s})
    case ForDone =>
      told.(queued := b.queued + multiset{s}, dones := b.dones + [p.row.id], busy := b.busy - {s},
            clears := if s in b.busy then b.clears + multiset{s} else b.clears)
  }

  function DoChoose(b: State, s: SessionId): (c: State)
    requires s in b.drains && b.drains[s].Holding?
    ensures c == b.(rows := c.rows, drains := c.drains, claims := c.claims, serialClaims := c.serialClaims)
  {
    var pick := FirstSendable(b.drains[s].page, s in b.busy);
    if pick.None? then b.(drains := Without(b.drains, s))
    else
      var id := pick.value.id;
      if id in b.rows && b.rows[id].status == Pending then
        var row := Transitioned(b.rows[id], Dispatched, NO_PATCH, b.now);
        b.(rows := b.rows[id := row], drains := b.drains[s := Claimed(row)], claims := b.claims + [id],
           serialClaims := if row.mode == Serial then b.serialClaims + multiset{s} else b.serialClaims)
      else b.(drains := b.drains[s := Scanning])
  }

  /** Mark the session and send; a send that throws is caught in a step of its own. */
  function DoSend(b: State, s: SessionId, ok: bool): (c: State)
    requires s in b.drains && b.drains[s].Claimed?
    ensures c == b.(busy := c.busy, wire := c.wire, drains := c.drains, failed := c.failed)
  {
    var row := b.drains[s].row;
    var marked := b.(busy := if row.mode == Serial then b.busy + {s} else b.busy);
    if ok then marked.(wire := b.wire + [(s, row.id)], drains := b.drains[s := Scanning])
    else marked.(failed := b.failed + [row.id], drains := b.drains[s := Failing(row)])
  }

  /** The catch branch: the mark goes, if it is still there, and so does the drain. */
  function DoGiveUp(b: State, s: SessionId): (c: State)
    requires s in b.drains && b.drains[s].Failing?
    ensures c == b.(busy := c.busy, drains := c.drains, clears := c.clears)
  {
    var serial := b.drains[s].row.mode == Serial;
    b.(busy := if serial then b.busy - {s} else b.busy,
       clears := if serial && s in b.busy then b.clears + multiset{s} else b.clears,
       drains := Without(b.drains, s))
  }

  ghost function Apply(b: State, a: Action): State
    requires Enabled(b, a)
  {
    match a
    case Advance(ms) => b.(now := b.now + ms)
    case Insert(pid, n) =>
      b.(rows := b.rows[n.id := FreshRow(n)], procs := b.procs[pid := Announcing(CreatedEvent, FreshRow(n), ForPending)])
    case Read(pid, id, fin) => b.(procs := b.procs[pid := Deciding(id, b.rows[id].status, fin)])
    case List(pid, id, fin) => b.(procs := b.procs[pid := Listed(id, fin)])
    case ReadListed(pid) => DoReadListed(b, pid)
    case Decide(pid) => DoDecide(b, pid)
    case NoteRead(pid, id, note) => DoNoteRead(b, pid, id, note)
    case NoteDecide(pid) => DoNoteDecide(b, pid)
    case CommentRead(pid, id, note) =>
      b.(procs := b.procs[pid := Patching(id, b.rows[id].notes + [Note(b.now, "[comment] " + note)], CommentedEvent)])
    case WriteNotes(pid) => DoWriteNotes(b, pid)
    case AckRead(pid, id) => b.(procs := b.procs[pid := Acking(id)])
    case AckDecide(pid) => DoAckDecide(b, pid)
    case Publish(pid) => DoPublish(b, pid)
    case SessionAttached(s) => b.(queued := b.queued + multiset{s})
    case StartDrain(s, open) =>
      b.(queued := b.queued - multiset{s}, drains := if open then b.drains[s := Scanning] else b.drains)
    case Scan(s, page) => b.(drains := if page == [] then Without(b.drains, s) else b.drains[s := Holding(page)])
    case Choose(s) => DoChoose(b, s)
    case Send(s, ok) => DoSend(b, s, ok)
    case GiveUp(s) => DoGiveUp(b, s)
  }

  /** A disabled action changes nothing. */
  ghost function Step(b: State, a: Action): State {
    if Enabled(b, a) then Apply(b, a) else b
  }

  /** The state after any sequence of actions at all. */
  ghost function Exec(b: State, run: seq<Action>): State {
    if run == [] then b else Step(Exec(b, run[..|run| - 1]), run[|run| - 1])
  }

  /** A fresh broker over any sound persisted table. */
  ghost predicate Initial(b: State) {
    && Sound(b.rows, b.now) && UniqueRefs(b.rows)
    && b.procs == map[] && b.drains == map[] && b.endings == [] && b.dones == []
    && b.claims == [] && b.wire == [] && b.failed == []
    && b.serialClaims == multiset{} && b.clears == multiset{}
  }

  // ---- The table ----

  ghost predicate ProcOk(b: State, p: Proc) {
    match p
    case Listed(id, fin) => id in b.rows && FinOk(b, id, fin, b.rows[id].status)
    case Deciding(id, seen, fin) => id in b.rows && !seen.Terminal() && FinOk(b, id, fin, seen)
    case Announcing(kind, row, wake) =>
      && row.id in b.rows && row.session == b.rows[row.id].session
      && (wake == ForDone <==> kind.EndedEvent?)
    case Patching(id, _, kind) => id in b.rows && !kind.EndedEvent?
    case _ => p.job in b.rows
  }

  // An expiry is due, and an orphan was seen in flight.
  predicate FinOk(b: State, id: JobId, fin: Finish, seen: Status)
    requires id in b.rows
  {
    (fin == ExpireIt ==> b.rows[id].expiresAt <= b.now) && (fin == OrphanIt ==> seen != Pending)
  }

  ghost predicate DrainOk(b: State, s: SessionId, d: Drain) {
    match d
    case Scanning => true
    case Holding(page) => forall i :: 0 <= i < |page| ==> JobOk(b, s, page[i])
    case Claimed(row) => JobOk(b, s, row) && b.rows[row.id].status != Pending
    case Failing(_) => true
  }

  predicate JobOk(b: State, s: SessionId, j: Job) {
    j.id in b.rows && b.rows[j.id].session == s && b.rows[j.id].mode == j.mode
  }

  /** Every row's history is a legal run, and every snapshot belongs to a row. */
  ghost predicate TableOk(b: State) {
    && Sound(b.rows, b.now) && UniqueRefs(b.rows)
    && (forall pid :: pid in b.procs ==> ProcOk(b, b.procs[pid]))
    && (forall s :: s in b.drains ==> DrainOk(b, s, b.drains[s]))
  }

  /** No step ever breaks a history or rewrites a row that has ended. */
  lemma StepEvolves(b: State, a: Action)
    requires TableOk(b) && Enabled(b, a)
    ensures var c := Apply(b, a);
            Sound(c.rows, c.now) && UniqueRefs(c.rows) && Evolves(b.rows, c.rows) && b.now <= c.now
  {
    hide Sound, UniqueRefs, Evolves, Faithful, RowEvolves, IsPage, DrainOk, FirstSendable, Transitioned, Patched, DoReadListed, DoNoteRead,
         DoPublish, DoSend, DoGiveUp;
    LaterIsSound(b.rows, b.now, Apply(b, a).now);
    SameRowsEvolve(b.rows);
    match a {
      case Insert(_, n) => InsertRow(b.rows, n, b.now, b.now);
      case Decide(pid) =>
        var p := b.procs[pid];
        assert ProcOk(b, p);
        CasMoves(b, p.job, p.seen, p.fin.Target(), p.fin.Change());
      case NoteDecide(pid) => CasMoves(b, b.procs[pid].job, Dispatched, InProgress, NO_PATCH.(notes := Some(b.procs[pid].next)));
      case AckDecide(pid) => CasMoves(b, b.procs[pid].job, Dispatched, InProgress, NO_PATCH);
      case WriteNotes(pid) => NotesMove(b, b.procs[pid].job, b.procs[pid].next);
      case Choose(s) =>
        var pick := FirstSendable(b.drains[s].page, s in b.busy);
        if pick.Some? {
          CasMoves(b, pick.value.id, Pending, Dispatched, NO_PATCH);
        }
      case _ =>
    }
  }

  lemma SameRowsEvolve(rows: Rows)
    ensures Evolves(rows, rows)
  {
  }

  lemma NotesMove(b: State, id: JobId, next: seq<Note>)
    requires Sound(b.rows, b.now) && UniqueRefs(b.rows) && id in b.rows
    ensures var rows := b.rows[id := Patched(b.rows[id], NO_PATCH.(notes := Some(next)))];
            Sound(rows, b.now) && UniqueRefs(rows) && Evolves(b.rows, rows)
  {
    var change := NO_PATCH.(notes := Some(next));
    PatchKeepsFaith(b.rows[id], change, b.now, b.now);
    ReplaceRow(b.rows, id, Patched(b.rows[id], change), b.now, b.now);
  }

  lemma CasMoves(b: State, id: JobId, expected: Status, to: Status, p: Patch)
    requires Sound(b.rows, b.now) && UniqueRefs(b.rows) && Edge(expected, to)
    requires to == Expired && id in b.rows ==> b.rows[id].expiresAt <= b.now
    ensures id in b.rows && b.rows[id].status == expected ==>
              var rows := b.rows[id := Transitioned(b.rows[id], to, p, b.now)];
              Sound(rows, b.now) && UniqueRefs(rows) && Evolves(b.rows, rows)
  {
    if id in b.rows && b.rows[id].status == expected {
      TransitionKeepsFaith(b.rows[id], to, p, b.now, b.now);
      ReplaceRow(b.rows, id, Transitioned(b.rows[id], to, p, b.now), b.now, b.now);
    }
  }

  lemma ProcSurvives(b: State, c: State, p: Proc)
    requires Evolves(b.rows, c.rows) && b.now <= c.now && ProcOk(b, p)
    ensures ProcOk(c, p)
  {
    var id := if p.Announcing? then p.row.id else p.job;
    assert RowEvolves(b.rows[id], c.rows[id]);
  }

  lemma JobSurvives(b: State, c: State, s: SessionId, j: Job)
    requires Evolves(b.rows, c.rows) && JobOk(b, s, j)
    ensures JobOk(c, s, j) && (b.rows[j.id].status != Pending ==> c.rows[j.id].status != Pending)
  {
    assert RowEvolves(b.rows[j.id], c.rows[j.id]);
  }

  lemma DrainSurvives(b: State, c: State, s: SessionId, d: Drain)
    requires Evolves(b.rows, c.rows) && DrainOk(b, s, d)
    ensures DrainOk(c, s, d)
  {
    if d.Holding? {
      forall i | 0 <= i < |d.page| ensures JobOk(c, s, d.page[i]) {
        JobSurvives(b, c, s, d.page[i]);
      }
    } else if d.Claimed? {
      JobSurvives(b, c, s, d.row);
    }
  }

  lemma StepKeepsTable(b: State, a: Action)
    requires TableOk(b) && Enabled(b, a)
    ensures TableOk(Apply(b, a))
  {
    hide Sound, UniqueRefs, Evolves, Enabled, Apply, ProcOk, DrainOk;
    var c := Apply(b, a);
    StepEvolves(b, a);
    forall pid | pid in c.procs ensures ProcOk(c, c.procs[pid]) {
      if pid in b.procs && c.procs[pid] == b.procs[pid] {
        ProcSurvives(b, c, c.procs[pid]);
      } else {
        NewProcOk(b, a, pid);
      }
    }
    forall s | s in c.drains ensures DrainOk(c, s, c.drains[s]) {
      if s in b.drains && c.drains[s] == b.drains[s] {
        DrainSurvives(b, c, s, c.drains[s]);
      } else {
        NewDrainOk(b, a, s);
      }
    }
  }

  /** A snapshot taken by this very step describes a row of the table it leaves. */
  lemma NewProcOk(b: State, a: Action, pid: nat)
    requires TableOk(b) && Enabled(b, a) && pid in Apply(b, a).procs
    requires pid in b.procs ==> Apply(b, a).procs[pid] != b.procs[pid]
    ensures ProcOk(Apply(b, a), Apply(b, a).procs[pid])
  {
    hide TableOk, ProcOk, IsPage, DrainOk, DoReadListed, DoNoteRead, DoChoose, DoSend, DoWriteNotes, DoDecide, DoNoteDecide, DoAckDecide, RefTaken;
    match a {
      case Decide(_) => NewCasProcOk(b, a, pid);
      case NoteDecide(_) => NewCasProcOk(b, a, pid);
      case AckDecide(_) => NewCasProcOk(b, a, pid);
      case WriteNotes(_) => NewCasProcOk(b, a, pid);
      case Insert(_, _) => NewReadProcOk(b, a, pid);
      case Read(_, _, _) => NewReadProcOk(b, a, pid);
      case List(_, _, _) => NewReadProcOk(b, a, pid);
      case ReadListed(_) => NewReadProcOk(b, a, pid);
      case NoteRead(_, _, _) => NewReadProcOk(b, a, pid);
      case CommentRead(_, _, _) => NewReadProcOk(b, a, pid);
      case AckRead(_, _) => NewReadProcOk(b, a, pid);
      case _ =>
    }
  }

  lemma NewReadProcOk(b: State, a: Action, pid: nat)
    requires TableOk(b) && Enabled(b, a) && pid in Apply(b, a).procs
    requires pid in b.procs ==> Apply(b, a).procs[pid] != b.procs[pid]
    requires a.Insert? || a.Read? || a.List? || a.ReadListed? || a.NoteRead? || a.CommentRead? || a.AckRead?
    ensures ProcOk(Apply(b, a), Apply(b, a).procs[pid])
  {
    hide TableOk, IsPage, RefTaken;
    if pid in b.procs {
      ProcIsOk(b, pid);
    }
  }

  lemma NewCasProcOk(b: State, a: Action, pid: nat)
    requires TableOk(b) && Enabled(b, a) && pid in Apply(b, a).procs
    requires pid in b.procs ==> Apply(b, a).procs[pid] != b.procs[pid]
    requires a.Decide? || a.NoteDecide? || a.AckDecide? || a.WriteNotes?
    ensures ProcOk(Apply(b, a), Apply(b, a).procs[pid])
  {
    hide TableOk, IsPage, RefTaken;
    ProcIsOk(b, a.pid);
  }

  lemma ProcIsOk(b: State, pid: nat)
    requires TableOk(b) && pid in b.procs
    ensures ProcOk(b, b.procs[pid]) && Keyed(b.rows)
  {
  }

  lemma NewDrainOk(b: State, a: Action, s: SessionId)
    requires TableOk(b) && Enabled(b, a) && s in Apply(b, a).drains
    requires s in b.drains ==> Apply(b, a).drains[s] != b.drains[s]
    ensures DrainOk(Apply(b, a), s, Apply(b, a).drains[s])
  {
    hide TableOk, ProcOk, DrainOk, IsPage, RefTaken, DoReadListed, DoDecide, DoNoteRead, DoNoteDecide, DoWriteNotes, DoAckDecide,
         DoPublish, DoChoose;
    match a {
      case StartDrain(_, _) => ScanningIsOk(Apply(b, a), s);
      case Scan(_, page) => PageIsOk(b, Apply(b, a), s, page);
      case Choose(t) => ClaimIsOk(b, t, s);
      case Send(_, _) => SettlingIsOk(b, a, s);
      case _ =>
    }
  }

  lemma ScanningIsOk(b: State, s: SessionId)
    ensures DrainOk(b, s, Scanning)
  {
  }

  lemma SettlingIsOk(b: State, a: Action, s: SessionId)
    requires Enabled(b, a) && a.Send? && s in Apply(b, a).drains
    requires s in b.drains ==> Apply(b, a).drains[s] != b.drains[s]
    ensures DrainOk(Apply(b, a), s, Apply(b, a).drains[s])
  {
    hide IsPage, RefTaken;
  }

  lemma PageIsOk(b: State, c: State, s: SessionId, page: seq<Job>)
    requires IsPage(page, b.rows, PendingOf(s), WINDOW) && c.rows == b.rows
    ensures DrainOk(c, s, Holding(page))
  {
  }

  lemma ClaimIsOk(b: State, t: SessionId, s: SessionId)
    requires TableOk(b) && Enabled(b, Choose(t)) && s in DoChoose(b, t).drains
    requires s in b.drains ==> DoChoose(b, t).drains[s] != b.drains[s]
    ensures DrainOk(DoChoose(b, t), s, DoChoose(b, t).drains[s])
  {
    hide TableOk, IsPage, FirstSendable, Transitioned;
    HeldIsOk(b, t);
    TableIsKeyed(b);
    var pick := FirstSendable(b.drains[t].page, t in b.busy);
    if pick.Some? {
      var i :| 0 <= i < |b.drains[t].page| && b.drains[t].page[i] == pick.value;
      assert JobOk(b, t, b.drains[t].page[i]);
      SameJobClaimed(b.rows[pick.value.id], b.now);
    }
  }

  lemma SameJobClaimed(j: Job, at: Time)
    ensures var c := Transitioned(j, Dispatched, NO_PATCH, at);
            c.id == j.id && c.session == j.session && c.mode == j.mode && c.status == Dispatched
  {
  }

  lemma TableIsKeyed(b: State)
    requires TableOk(b)
    ensures Keyed(b.rows)
  {
  }

  /** The operation that wins the compare-and-set stores just its own outcome, column by column. */
  lemma WinnerStores(b: State, pid: nat)
    requires pid in b.procs && b.procs[pid].Deciding? && b.procs[pid].job in b.rows
    requires b.rows[b.procs[pid].job].status == b.procs[pid].seen
    ensures var id, c := b.procs[pid].job, DoDecide(b, pid);
            var was := b.rows[id];
            && c.rows == b.rows[id := c.rows[id]]
            && match b.procs[pid].fin
               case CancelIt => MovesTo(was, c.rows[id], Cancelled, was.result, was.error, was.notes, b.now)
               case CompleteIt(r) => MovesTo(was, c.rows[id], Completed, OrKept(r, was.result), was.error, was.notes, b.now)
               case FailIt(e) => MovesTo(was, c.rows[id], Failed, was.result, if e.Some? then e else was.error, was.notes, b.now)
               case ExpireIt => MovesTo(was, c.rows[id], Expired, was.result, Some("ttl_elapsed"), was.notes, b.now)
               case OrphanIt => MovesTo(was, c.rows[id], Orphaned, was.result, Some("session_unreachable"), was.notes, b.now)
  {
    hide MovesTo, Transitioned;
    var p := b.procs[pid];
    TransitionColumns(b.rows[p.job], p.fin.Target(), p.fin.Change(), b.now);
  }

  /** A note is appended to the notes as they were read, and written just so, with or without the bump. */
  lemma NotesAreWritten(b: State, a: Action)
    requires Enabled(b, a) && (a.NoteRead? || a.NoteDecide? || a.CommentRead? || a.WriteNotes?)
    ensures var c := Apply(b, a);
            match a
            case NoteRead(pid, id, note) =>
              var next := b.rows[id].notes + [Note(b.now, note)];
              pid in c.procs && c.procs[pid] == if b.rows[id].status == Dispatched then Noting(id, next) else Patching(id, next, ProgressEvent)
            case CommentRead(pid, id, note) =>
              pid in c.procs && c.procs[pid] == Patching(id, b.rows[id].notes + [Note(b.now, "[comment] " + note)], CommentedEvent)
            case NoteDecide(pid) =>
              var p := b.procs[pid];
              var was := if p.job in b.rows && b.rows[p.job].status == Dispatched then Some(b.rows[p.job]) else None;
              if was.Some?
              then p.job in c.rows && MovesTo(was.value, c.rows[p.job], InProgress, was.value.result, was.value.error, p.next, b.now)
              else c.rows == b.rows && pid in c.procs && c.procs[pid] == Patching(p.job, p.next, ProgressEvent)
            case WriteNotes(pid) =>
              var p := b.procs[pid];
              c.rows == b.rows[p.job := b.rows[p.job].(notes := p.next)]
              && pid in c.procs && c.procs[pid] == Announcing(p.kind, c.rows[p.job], Nobody)
  {
  }

  /** Every submission and every ending queues one drain of its session, and an ending clears the mark. */
  lemma AnnouncingWakes(b: State, pid: nat)
    requires pid in b.procs && b.procs[pid].Announcing?
    ensures var c, p := DoPublish(b, pid), b.procs[pid];
            var s := p.row.session;
            && c.queued[s] == b.queued[s] + (if p.wake == Nobody then 0 else 1)
            && (forall t :: t != s ==> c.queued[t] == b.queued[t] && (t in c.busy <==> t in b.busy))
            && (s in c.busy <==> s in b.busy && p.wake != ForDone)
  {
  }

  /** Sending marks the session of a serial job; a failed send takes the mark away again and ends the drain. */
  lemma SendsMark(b: State, s: SessionId, ok: bool)
    requires s in b.drains && b.drains[s].Claimed?
    ensures var c, row := DoSend(b, s, ok), b.drains[s].row;
            && c.wire == b.wire + (if ok then [(s, row.id)] else []) && c.failed == b.failed + (if ok then [] else [row.id])
            && (s in c.busy <==> s in b.busy || row.mode == Serial)
            && s in c.drains && c.drains[s] == if ok then Scanning else Failing(row)
  {
  }

  lemma FailedSendsUnmark(b: State, s: SessionId)
    requires s in b.drains && b.drains[s].Failing?
    ensures var c := DoGiveUp(b, s);
            && s !in c.drains && (forall t :: t != s ==> (t in c.busy <==> t in b.busy))
            && (s in c.busy <==> s in b.busy && b.drains[s].row.mode != Serial)
  {
  }

  lemma TransitionColumns(j: Job, to: Status, p: Patch, at: Time)
    ensures MovesTo(j, Transitioned(j, to, p, at), to, OrKept(p.result, j.result), if p.error.Some? then p.error else j.error,
                    OrKept(p.notes, j.notes), at)
  {
  }

  // ---- One ending per job ----

  /** Process `pid` has won a terminal compare-and-set and is about to publish it. */
  predicate Telling(b: State, pid: nat) {
    pid in b.procs && b.procs[pid].Announcing? && b.procs[pid].kind.EndedEvent?
  }

  /** The job of `row` ended since `base`, as an event of this kind announces, and `row` is what is stored but for notes. */
  predicate EndedWith(base: Rows, rows: Rows, kind: EventKind, row: Job) {
    && row.id in rows && rows[row.id].status.Terminal() && kind == EndedEvent(rows[row.id].status)
    && row == rows[row.id].(notes := row.notes)
    && !(row.id in base && base[row.id].status.Terminal())
  }

  predicate SpokenFor(b: State, id: JobId) {
    id in b.dones || exists p :: p in b.procs && Telling(b, p) && b.procs[p].row.id == id
  }

  /** notifyDone follows each terminal event, once per job, and the event names the stored status. */
  ghost predicate EventsOk(base: Rows, b: State) {
    && |b.dones| == |b.endings|
    && (forall i :: 0 <= i < |b.endings| ==>
          b.dones[i] == b.endings[i].row.id && EndedWith(base, b.rows, b.endings[i].kind, b.endings[i].row))
    && (forall i, k :: 0 <= i < k < |b.dones| ==> b.dones[i] != b.dones[k])
  }

  /** Processes about to publish an ending do so for different jobs, none of them published yet. */
  ghost predicate TellersOk(base: Rows, b: State) {
    && (forall p :: p in b.procs && Telling(b, p) ==>
          EndedWith(base, b.rows, b.procs[p].kind, b.procs[p].row) && b.procs[p].row.id !in b.dones)
    && (forall p, q :: p in b.procs && q in b.procs && Telling(b, p) && Telling(b, q) && p != q ==>
          b.procs[p].row.id != b.procs[q].row.id)
  }

  ghost predicate AllSpokenFor(base: Rows, b: State) {
    forall id :: id in b.rows && b.rows[id].status.Terminal() && !(id in base && base[id].status.Terminal()) ==>
      SpokenFor(b, id)
  }

  /** Each job that ended since `base` is spoken for exactly once: by one published event or by one
      process about to publish it. */
  ghost predicate TokensOk(base: Rows, b: State) {
    EventsOk(base, b) && TellersOk(base, b) && AllSpokenFor(base, b)
  }

  /** Processes other than `moved` hold the same tokens in `b` and `c`. */
  ghost predicate SameTelling(b: State, c: State, moved: set<nat>) {
    forall p :: p !in moved && (Telling(b, p) || Telling(c, p)) ==> p in b.procs && p in c.procs && c.procs[p] == b.procs[p]
  }

  ghost predicate SameEnds(b: State, c: State, except: set<JobId>) {
    forall id :: id !in except && ((id in b.rows && b.rows[id].status.Terminal()) || (id in c.rows && c.rows[id].status.Terminal())) ==>
      id in b.rows && id in c.rows && c.rows[id] == b.rows[id].(notes := c.rows[id].notes)
  }

  ghost predicate Idle(b: State, c: State, moved: set<nat>) {
    && c.endings == b.endings && c.dones == b.dones
    && SameTelling(b, c, moved) && (forall p :: p in moved ==> !Telling(b, p) && !Telling(c, p))
    && SameEnds(b, c, {})
  }

  /** No token moves: nothing ended and nothing was published. */
  lemma IdleTokens(base: Rows, b: State, c: State, moved: set<nat>)
    requires TokensOk(base, b) && Idle(b, c, moved)
    ensures TokensOk(base, c)
  {
    forall id | id in c.rows && c.rows[id].status.Terminal() && !(id in base && base[id].status.Terminal()) ensures SpokenFor(c, id) {
      assert SpokenFor(b, id);
    }
  }

  /** `c` follows `b` by process `pid` winning the compare-and-set that ends job `id`. */
  ghost predicate Mints(base: Rows, b: State, c: State, pid: nat, id: JobId) {
    && c.endings == b.endings && c.dones == b.dones
    && SameTelling(b, c, {pid}) && !Telling(b, pid) && SameEnds(b, c, {id})
    && id in b.rows && !b.rows[id].status.Terminal() && !(id in base && base[id].status.Terminal())
    && Telling(c, pid) && c.procs[pid].row.id == id && EndedWith(base, c.rows, c.procs[pid].kind, c.procs[pid].row)
  }

  lemma MintKeepsEvents(base: Rows, b: State, c: State, pid: nat, id: JobId)
    requires EventsOk(base, b) && Mints(base, b, c, pid, id)
    ensures EventsOk(base, c) && id !in b.dones
  {
  }

  lemma MintKeepsTellers(base: Rows, b: State, c: State, pid: nat, id: JobId)
    requires TellersOk(base, b) && Mints(base, b, c, pid, id) && id !in b.dones
    ensures TellersOk(base, c)
  {
    assert forall p :: p in b.procs && Telling(b, p) ==> b.procs[p].row.id != id;
  }

  lemma MintKeepsSpokenFor(base: Rows, b: State, c: State, pid: nat, id: JobId)
    requires AllSpokenFor(base, b) && Mints(base, b, c, pid, id)
    ensures AllSpokenFor(base, c)
  {
    forall k | k in c.rows && c.rows[k].status.Terminal() && !(k in base && base[k].status.Terminal()) ensures SpokenFor(c, k) {
      assert k != id ==> SpokenFor(b, k);
    }
  }

  /** Winning the compare-and-set mints the token of a job that had none. */
  lemma MintToken(base: Rows, b: State, c: State, pid: nat, id: JobId)
    requires TokensOk(base, b) && Mints(base, b, c, pid, id)
    ensures TokensOk(base, c)
  {
    hide EventsOk, TellersOk, AllSpokenFor, Mints;
    MintKeepsEvents(base, b, c, pid, id);
    MintKeepsTellers(base, b, c, pid, id);
    MintKeepsSpokenFor(base, b, c, pid, id);
  }

  /** Publishing turns the process's token into an event and a notifyDone. */
  lemma PublishToken(base: Rows, b: State, c: State, pid: nat)
    requires TokensOk(base, b) && Telling(b, pid) && c.rows == b.rows
    requires c.endings == b.endings + [Event(b.procs[pid].kind, b.procs[pid].row)] && c.dones == b.dones + [b.procs[pid].row.id]
    requires SameTelling(b, c, {pid}) && !Telling(c, pid)
    ensures TokensOk(base, c)
  {
    forall k | k in c.rows && c.rows[k].status.Terminal() && !(k in base && base[k].status.Terminal()) ensures SpokenFor(c, k) {
      assert SpokenFor(b, k);
      if k == b.procs[pid].row.id {
        assert c.dones[|b.dones|] == k;
      } else if k in b.dones {
        var i :| 0 <= i < |b.dones| && b.dones[i] == k;
        assert c.dones[i] == k;
      }
    }
  }

  function MovedBy(a: Action): set<nat> {
    if a.Insert? || a.Read? || a.List? || a.ReadListed? || a.NoteRead? || a.CommentRead? || a.AckRead?
       || a.NoteDecide? || a.AckDecide? || a.WriteNotes? then {a.pid} else {}
  }

  /** Reading and listing take no token. */
  lemma ReadingIsIdle(b: State, a: Action)
    requires TableOk(b) && Enabled(b, a)
    requires a.Insert? || a.Read? || a.List? || a.ReadListed? || a.NoteRead? || a.CommentRead? || a.AckRead?
    ensures Idle(b, Apply(b, a), {a.pid})
  {
    hide TableOk, Idle, RefTaken;
    if a.Insert? {
      FreshIsIdle(b, Apply(b, a), a.pid, a.job);
    } else {
      LocalIsIdle(b, Apply(b, a), a.pid);
    }
  }

  /** Nothing but deciding to end a job and publishing moves a token. */
  lemma StepIsIdle(b: State, a: Action)
    requires TableOk(b) && Enabled(b, a) && !a.Decide? && !a.Publish?
    ensures Idle(b, Apply(b, a), MovedBy(a))
  {
    hide TableOk, Idle, IsPage, RefTaken, DoReadListed, DoNoteRead, DoChoose, DoSend, DoGiveUp, DoNoteDecide, DoAckDecide, DoWriteNotes;
    match a {
      case NoteDecide(pid) => NoteIsIdle(b, pid);
      case AckDecide(pid) => AckIsIdle(b, pid);
      case WriteNotes(pid) => WriteIsIdle(b, pid);
      case Choose(s) => ChooseIsIdle(b, s);
      case Advance(_) => QuietIsIdle(b, Apply(b, a));
      case SessionAttached(_) => QuietIsIdle(b, Apply(b, a));
      case StartDrain(_, _) => QuietIsIdle(b, Apply(b, a));
      case Scan(_, _) => QuietIsIdle(b, Apply(b, a));
      case Send(_, _) => QuietIsIdle(b, Apply(b, a));
      case GiveUp(_) => QuietIsIdle(b, Apply(b, a));
      case _ => ReadingIsIdle(b, a);
    }
  }

  lemma StepMovesTokens(base: Rows, b: State, a: Action)
    requires TableOk(b) && TokensOk(base, b) && Evolves(base, b.rows) && Enabled(b, a)
    ensures TokensOk(base, Apply(b, a))
  {
    hide TableOk, TokensOk, Idle, Evolves, MovedBy;
    if a.Decide? {
      DecideMovesToken(base, b, a.pid);
    } else if a.Publish? {
      PublishMovesToken(base, b, a.pid);
    } else {
      hide Apply, Enabled;
      StepIsIdle(b, a);
      IdleTokens(base, b, Apply(b, a), MovedBy(a));
    }
  }

  lemma QuietIsIdle(b: State, c: State)
    requires c.rows == b.rows && c.procs == b.procs && c.endings == b.endings && c.dones == b.dones
    ensures Idle(b, c, {})
  {
  }

  lemma LocalIsIdle(b: State, c: State, pid: nat)
    requires c.rows == b.rows && c.endings == b.endings && c.dones == b.dones
    requires c.procs == Without(b.procs, pid) || (pid in c.procs && c.procs == b.procs[pid := c.procs[pid]])
    requires (pid in b.procs ==> !b.procs[pid].Announcing?) && (pid in c.procs ==> !c.procs[pid].Announcing?)
    ensures Idle(b, c, {pid})
  {
  }

  lemma FreshIsIdle(b: State, c: State, pid: nat, n: NewJob)
    requires pid !in b.procs && n.id !in b.rows && c.endings == b.endings && c.dones == b.dones
    requires c.rows == b.rows[n.id := FreshRow(n)]
    requires c.procs == b.procs[pid := Announcing(CreatedEvent, FreshRow(n), ForPending)]
    ensures Idle(b, c, {pid})
  {
  }

  lemma BumpIsIdle(b: State, pid: nat, id: JobId, p: Patch, lost: map<nat, Proc>)
    requires pid in b.procs && !b.procs[pid].Announcing?
    requires lost == Without(b.procs, pid) || (pid in lost && lost == b.procs[pid := lost[pid]] && !lost[pid].Announcing?)
    ensures Idle(b, CasBy(b, pid, id, Dispatched, InProgress, p, ProgressEvent, Nobody, lost), {pid})
  {
  }

  lemma NoteIsIdle(b: State, pid: nat)
    requires pid in b.procs && b.procs[pid].Noting?
    ensures Idle(b, DoNoteDecide(b, pid), {pid})
  {
    hide Idle, CasBy;
    var p := b.procs[pid];
    BumpIsIdle(b, pid, p.job, NO_PATCH.(notes := Some(p.next)), b.procs[pid := Patching(p.job, p.next, ProgressEvent)]);
  }

  lemma AckIsIdle(b: State, pid: nat)
    requires pid in b.procs && b.procs[pid].Acking?
    ensures Idle(b, DoAckDecide(b, pid), {pid})
  {
    hide Idle, CasBy;
    BumpIsIdle(b, pid, b.procs[pid].job, NO_PATCH, Without(b.procs, pid));
  }

  lemma WriteIsIdle(b: State, pid: nat)
    requires TableOk(b) && pid in b.procs && b.procs[pid].Patching? && b.procs[pid].job in b.rows
    ensures Idle(b, DoWriteNotes(b, pid), {pid})
  {
    hide TableOk;
    ProcIsOk(b, pid);
  }

  lemma ChooseIsIdle(b: State, s: SessionId)
    requires s in b.drains && b.drains[s].Holding?
    ensures Idle(b, DoChoose(b, s), {})
  {
  }

  lemma DecideMovesToken(base: Rows, b: State, pid: nat)
    requires TableOk(b) && TokensOk(base, b) && Evolves(base, b.rows) && Enabled(b, Decide(pid))
    ensures TokensOk(base, DoDecide(b, pid))
  {
    hide TableOk, TokensOk, Evolves;
    var p := b.procs[pid];
    var c := DoDecide(b, pid);
    ProcIsOk(b, pid);
    if b.rows[p.job].status == p.seen {
      StillOpen(base, b.rows, p.job);
      MintToken(base, b, c, pid, p.job);
    } else {
      LocalIsIdle(b, c, pid);
      IdleTokens(base, b, c, {pid});
    }
  }

  lemma StillOpen(base: Rows, rows: Rows, id: JobId)
    requires Evolves(base, rows) && id in rows && !rows[id].status.Terminal()
    ensures !(id in base && base[id].status.Terminal())
  {
    assert id in base ==> RowEvolves(base[id], rows[id]);
  }

  lemma PublishMovesToken(base: Rows, b: State, pid: nat)
    requires pid in b.procs && b.procs[pid].Announcing? && TableOk(b) && TokensOk(base, b)
    ensures TokensOk(base, DoPublish(b, pid))
  {
    hide TableOk, TokensOk, Idle, SameTelling, DoPublish;
    ProcIsOk(b, pid);
    PublishTells(b, pid);
    if b.procs[pid].kind.EndedEvent? {
      PublishToken(base, b, DoPublish(b, pid), pid);
    } else {
      LocalPublishIsIdle(b, DoPublish(b, pid), pid);
      IdleTokens(base, b, DoPublish(b, pid), {pid});
    }
  }

  lemma PublishTells(b: State, pid: nat)
    requires pid in b.procs && b.procs[pid].Announcing? && ProcOk(b, b.procs[pid])
    ensures var c, p := DoPublish(b, pid), b.procs[pid];
            && c.rows == b.rows && c.procs == Without(b.procs, pid) && !Telling(c, pid) && SameTelling(b, c, {pid})
            && c.endings == (if p.kind.EndedEvent? then b.endings + [Event(p.kind, p.row)] else b.endings)
            && c.dones == (if p.kind.EndedEvent? then b.dones + [p.row.id] else b.dones)
  {
    var c := DoPublish(b, pid);
    assert c.procs == Without(b.procs, pid);
  }

  lemma LocalPublishIsIdle(b: State, c: State, pid: nat)
    requires c.rows == b.rows && c.endings == b.endings && c.dones == b.dones
    requires c.procs == Without(b.procs, pid) && !Telling(b, pid)
    ensures Idle(b, c, {pid})
  {
  }

  // ---- Claim accounting ----

  function Bit(p: bool): nat {
    if p then 1 else 0
  }

  /** The drain of `s` has claimed a serial job and not yet marked the session busy. */
  predicate Midway(b: State, s: SessionId) {
    s in b.drains && b.drains[s].Claimed? && b.drains[s].row.mode == Serial
  }

  /** Serial claims and effective clears of the busy mark balance, for every session. */
  ghost predicate AccountOk(busy0: set<SessionId>, b: State, s: SessionId) {
    && b.serialClaims[s] + Bit(s in busy0) == b.clears[s] + Bit(s in b.busy) + Bit(Midway(b, s))
    && (Midway(b, s) ==> s !in b.busy)
  }

  lemma StepKeepsAccount(busy0: set<SessionId>, b: State, a: Action, s: SessionId)
    requires TableOk(b) && Enabled(b, a) && AccountOk(busy0, b, s)
    ensures AccountOk(busy0, Apply(b, a), s)
  {
    hide TableOk, AccountOk, IsPage, RefTaken, DoReadListed, DoDecide, DoNoteRead, DoNoteDecide, DoWriteNotes, DoAckDecide,
         DoSend, DoGiveUp, DoPublish, DoChoose;
    match a {
      case Choose(t) =>
        if t == s {
          HeldIsOk(b, s);
          ChooseKeepsAccount(busy0, b, s);
        } else {
          ElsewhereKeepsAccount(busy0, b, a, s);
        }
      case Send(t, ok) =>
        if t == s {
          SendKeepsAccount(busy0, b, s, ok);
        } else {
          ElsewhereKeepsAccount(busy0, b, a, s);
        }
      case GiveUp(t) => GiveUpKeepsAccount(busy0, b, t, s);
      case Publish(pid) => PublishKeepsAccount(busy0, b, pid, s);
      case _ => QuietKeepsAccount(busy0, b, Apply(b, a), s);
    }
  }

  /** Starting or finishing a drain, and everything outside drains, moves no account. */
  lemma QuietKeepsAccount(busy0: set<SessionId>, b: State, c: State, s: SessionId)
    requires AccountOk(busy0, b, s) && c.serialClaims == b.serialClaims && c.clears == b.clears && c.busy == b.busy
    requires (s in b.drains && b.drains[s].Claimed?) || (s in c.drains && c.drains[s].Claimed?) ==>
               s in b.drains && s in c.drains && c.drains[s] == b.drains[s]
    ensures AccountOk(busy0, c, s)
  {
  }

  lemma ElsewhereKeepsAccount(busy0: set<SessionId>, b: State, a: Action, s: SessionId)
    requires Enabled(b, a) && (a.Choose? || a.Send?) && a.session != s && AccountOk(busy0, b, s)
    ensures AccountOk(busy0, Apply(b, a), s)
  {
  }

  lemma SendKeepsAccount(busy0: set<SessionId>, b: State, s: SessionId, ok: bool)
    requires s in b.drains && b.drains[s].Claimed? && AccountOk(busy0, b, s)
    ensures AccountOk(busy0, DoSend(b, s, ok), s)
  {
  }

  lemma GiveUpKeepsAccount(busy0: set<SessionId>, b: State, t: SessionId, s: SessionId)
    requires t in b.drains && b.drains[t].Failing? && AccountOk(busy0, b, s)
    ensures AccountOk(busy0, DoGiveUp(b, t), s)
  {
  }

  lemma PublishKeepsAccount(busy0: set<SessionId>, b: State, pid: nat, s: SessionId)
    requires pid in b.procs && b.procs[pid].Announcing? && AccountOk(busy0, b, s)
    ensures AccountOk(busy0, DoPublish(b, pid), s)
  {
  }

  lemma HeldIsOk(b: State, s: SessionId)
    requires TableOk(b) && s in b.drains
    ensures DrainOk(b, s, b.drains[s])
  {
  }

  lemma ChooseKeepsAccount(busy0: set<SessionId>, b: State, s: SessionId)
    requires s in b.drains && b.drains[s].Holding? && DrainOk(b, s, b.drains[s]) && AccountOk(busy0, b, s)
    ensures AccountOk(busy0, DoChoose(b, s), s)
  {
    var pick := FirstSendable(b.drains[s].page, s in b.busy);
    if pick.Some? {
      var i :| 0 <= i < |b.drains[s].page| && b.drains[s].page[i] == pick.value;
      assert JobOk(b, s, b.drains[s].page[i]);
    }
  }

  // ---- The dispatch ledger ----

  predicate Sent(b: State, id: JobId) {
    exists i :: 0 <= i < |b.wire| && b.wire[i].1 == id
  }

  predicate ClaimedNow(b: State, s: SessionId, id: JobId) {
    s in b.drains && b.drains[s].Claimed? && b.drains[s].row.id == id
  }

  /** Every claim is unique and has exactly one fate: sent once to its own session, dropped by a
      failed send, or still in its drain's hands. Nothing else is ever sent. */
  ghost predicate LedgerOk(b: State) {
    && (forall i, k :: 0 <= i < k < |b.claims| ==> b.claims[i] != b.claims[k])
    && (forall i, k :: 0 <= i < k < |b.wire| ==> b.wire[i].1 != b.wire[k].1)
    && (forall i, k :: 0 <= i < k < |b.failed| ==> b.failed[i] != b.failed[k])
    && (forall id :: id in b.claims ==> id in b.rows && b.rows[id].status != Pending && b.rows[id].dispatchedAt.Some?)
    && (forall i :: 0 <= i < |b.wire| ==>
          b.wire[i].1 in b.claims && b.wire[i].1 !in b.failed && b.wire[i].1 in b.rows && b.rows[b.wire[i].1].session == b.wire[i].0)
    && (forall id :: id in b.failed ==> id in b.claims)
    && (forall s, id :: ClaimedNow(b, s, id) ==> id in b.claims && !Sent(b, id) && id !in b.failed && id in b.rows && b.rows[id].session == s)
    && (forall id :: id in b.claims ==> Sent(b, id) || id in b.failed || ClaimedNow(b, b.rows[id].session, id))
  }

  /** Steps that neither claim nor send leave the ledger as it is. */
  lemma LedgerStays(b: State, c: State)
    requires LedgerOk(b) && c.claims == b.claims && c.wire == b.wire && c.failed == b.failed
    requires Evolves(b.rows, c.rows)
    requires forall s, id :: ClaimedNow(c, s, id) <==> ClaimedNow(b, s, id)
    ensures LedgerOk(c)
  {
    forall id | id in b.rows ensures id in c.rows && c.rows[id].session == b.rows[id].session
      && (b.rows[id].status != Pending ==> c.rows[id].status != Pending)
      && (b.rows[id].dispatchedAt.Some? ==> c.rows[id].dispatchedAt.Some?)
    {
      assert RowEvolves(b.rows[id], c.rows[id]);
    }
    hide Evolves;
    forall id ensures Sent(c, id) <==> Sent(b, id) {
    }
  }

  lemma ChooseKeepsLedger(b: State, s: SessionId)
    requires TableOk(b) && LedgerOk(b) && Enabled(b, Choose(s))
    ensures LedgerOk(DoChoose(b, s))
  {
    hide TableOk, LedgerOk, Evolves;
    var c := DoChoose(b, s);
    StepEvolves(b, Choose(s));
    HeldIsOk(b, s);
    var pick := FirstSendable(b.drains[s].page, s in b.busy);
    if pick.Some? {
      var i :| 0 <= i < |b.drains[s].page| && b.drains[s].page[i] == pick.value;
      assert JobOk(b, s, b.drains[s].page[i]);
      if b.rows[pick.value.id].status == Pending {
        ClaimEntersLedger(b, c, s, pick.value.id);
      } else {
        LedgerStays(b, c);
      }
    } else {
      LedgerStays(b, c);
    }
  }

  lemma ClaimEntersLedger(b: State, c: State, s: SessionId, id: JobId)
    requires LedgerOk(b) && id in b.rows && b.rows[id].status == Pending && b.rows[id].session == s
    requires s in b.drains && b.drains[s].Holding? && id in c.rows && c.rows == b.rows[id := c.rows[id]]
    requires c.rows[id].status != Pending && c.rows[id].dispatchedAt.Some? && c.rows[id].session == s && c.rows[id].id == id
    requires c == b.(rows := c.rows, drains := b.drains[s := Claimed(c.rows[id])], claims := b.claims + [id], serialClaims := c.serialClaims)
    ensures LedgerOk(c)
  {
    assert c.claims[|b.claims|] == id;
    forall k ensures Sent(c, k) <==> Sent(b, k) {
    }
    assert id !in b.claims && !Sent(b, id) && id !in b.failed;
    assert ClaimedNow(c, s, id);
    forall t, k | ClaimedNow(c, t, k) ensures (t == s && k == id) || (k != id && ClaimedNow(b, t, k)) {
      assert t != s ==> ClaimedNow(b, t, k) && k in b.claims;
    }
    forall k | k in c.claims ensures k == id || k in b.claims {
    }
    forall k | k in c.claims ensures Sent(c, k) || k in c.failed || ClaimedNow(c, c.rows[k].session, k) {
      if k != id {
        assert Sent(b, k) || k in b.failed || ClaimedNow(b, b.rows[k].session, k);
      }
    }
  }

  lemma SendKeepsLedger(b: State, s: SessionId, ok: bool)
    requires LedgerOk(b) && s in b.drains && b.drains[s].Claimed?
    ensures LedgerOk(DoSend(b, s, ok))
  {
    var c := DoSend(b, s, ok);
    var id := b.drains[s].row.id;
    assert ClaimedNow(b, s, id);
    SentGrows(b, c, if ok then [(s, id)] else []);
    forall k | k in c.claims ensures Sent(c, k) || k in c.failed || ClaimedNow(c, c.rows[k].session, k) {
      assert Sent(b, k) || k in b.failed || ClaimedNow(b, b.rows[k].session, k);
      if k == id && !ok {
        assert c.failed[|b.failed|] == id;
      }
    }
    forall t, k | ClaimedNow(c, t, k) ensures ClaimedNow(b, t, k) && k != id {
      assert ClaimedNow(b, t, k) && b.rows[k].session == t && b.rows[id].session == s;
    }
  }

  lemma SentGrows(b: State, c: State, more: seq<(SessionId, JobId)>)
    requires c.wire == b.wire + more && |more| <= 1
    ensures forall k :: Sent(c, k) <==> Sent(b, k) || (more != [] && more[0].1 == k)
  {
    forall k ensures Sent(c, k) <==> Sent(b, k) || (more != [] && more[0].1 == k) {
      if Sent(b, k) {
        var i :| 0 <= i < |b.wire| && b.wire[i].1 == k;
        assert c.wire[i].1 == k;
      }
      if more != [] && more[0].1 == k {
        assert c.wire[|b.wire|].1 == k;
      }
    }
  }

  /** Only choosing and sending change what was claimed, sent, dropped or is held. */
  lemma HandsStay(b: State, a: Action)
    requires Enabled(b, a) && !a.Choose? && !a.Send?
    ensures var c := Apply(b, a);
            c.claims == b.claims && c.wire == b.wire && c.failed == b.failed
            && forall s, id :: ClaimedNow(c, s, id) <==> ClaimedNow(b, s, id)
  {
    hide IsPage, RefTaken, DoReadListed, DoDecide, DoNoteRead, DoNoteDecide, DoWriteNotes, DoAckDecide, DoPublish;
  }

  lemma StepKeepsLedger(b: State, a: Action)
    requires TableOk(b) && LedgerOk(b) && Enabled(b, a)
    ensures LedgerOk(Apply(b, a))
  {
    hide TableOk, LedgerOk, Evolves, IsPage, RefTaken, ClaimedNow, DoReadListed, DoDecide, DoNoteRead, DoNoteDecide, DoWriteNotes,
         DoAckDecide, DoPublish, DoChoose, DoSend;
    match a {
      case Choose(s) => ChooseKeepsLedger(b, s);
      case Send(s, ok) => SendKeepsLedger(b, s, ok);
      case _ =>
        StepEvolves(b, a);
        HandsStay(b, a);
        LedgerStays(b, Apply(b, a));
    }
  }

  // ---- Whole runs ----

  /** Everything above, at every reachable state. */
  ghost predicate Inv(b0: State, b: State) {
    && TableOk(b) && Evolves(b0.rows, b.rows) && b0.now <= b.now
    && TokensOk(b0.rows, b)
    && (forall s :: AccountOk(b0.busy, b, s))
    && LedgerOk(b)
  }

  lemma StepKeepsInv(b0: State, b: State, a: Action)
    requires Inv(b0, b) && Enabled(b, a)
    ensures Inv(b0, Apply(b, a)) && Evolves(b.rows, Apply(b, a).rows)
  {
    hide TableOk, TokensOk, AccountOk, LedgerOk, Evolves, Enabled, Apply;
    StepEvolves(b, a);
    EvolvesTransitive(b0.rows, b.rows, Apply(b, a).rows);
    StepKeepsTable(b, a);
    StepMovesTokens(b0.rows, b, a);
    StepKeepsLedger(b, a);
    forall s ensures AccountOk(b0.busy, Apply(b, a), s) {
      StepKeepsAccount(b0.busy, b, a, s);
    }
  }

  lemma {:induction false} RunKeepsInv(b0: State, run: seq<Action>)
    requires Initial(b0)
    ensures Inv(b0, Exec(b0, run))
  {
    if run == [] {
      SameRowsEvolve(b0.rows);
    } else {
      var n := |run| - 1;
      RunKeepsInv(b0, run[..n]);
      if Enabled(Exec(b0, run[..n]), run[n]) {
        StepKeepsInv(b0, Exec(b0, run[..n]), run[n]);
      }
    }
  }

  lemma {:induction false} RunEvolves(b0: State, run: seq<Action>, k: nat)
    requires Initial(b0) && k <= |run|
    ensures Evolves(Exec(b0, run[..k]).rows, Exec(b0, run).rows)
    decreases |run|
  {
    hide Inv, Enabled, Apply, Evolves;
    if k == |run| {
      assert run[..k] == run;
      SameRowsEvolve(Exec(b0, run).rows);
    } else {
      var n := |run| - 1;
      var b := Exec(b0, run[..n]);
      RunEvolves(b0, run[..n], k);
      assert run[..n][..k] == run[..k];
      RunKeepsInv(b0, run[..n]);
      if Enabled(b, run[n]) {
        StepKeepsInv(b0, b, run[n]);
        EvolvesTransitive(Exec(b0, run[..k]).rows, b.rows, Apply(b, run[n]).rows);
      }
    }
  }

  /** Exactly one terminal winner: under every interleaving, a job that has ended has at most one
      terminal event, and that event carries the row stored ever after but for notes; notifyDone was called once
      for each event; and unless its event is still due, it has exactly one. */
  lemma {:induction false} OneEndingPerJob(b0: State, run: seq<Action>)
    requires Initial(b0)
    ensures var b := Exec(b0, run);
            && |b.dones| == |b.endings|
            && (forall i :: 0 <= i < |b.endings| ==> b.dones[i] == b.endings[i].row.id && b.dones[i] in b.rows)
            && (forall i :: 0 <= i < |b.endings| ==> b.endings[i].kind == EndedEvent(b.rows[b.dones[i]].status))
            && (forall i :: 0 <= i < |b.endings| ==> b.endings[i].row == b.rows[b.dones[i]].(notes := b.endings[i].row.notes))
            && (forall i, k :: 0 <= i < k < |b.dones| ==> b.dones[i] != b.dones[k])
            && (forall id :: id in b.rows && b.rows[id].status.Terminal() && !(id in b0.rows && b0.rows[id].status.Terminal()) ==>
                  (id in b.dones <==> !exists p :: p in b.procs && Telling(b, p) && b.procs[p].row.id == id))
  {
    RunKeepsInv(b0, run);
    var b := Exec(b0, run);
    forall id | id in b.rows && b.rows[id].status.Terminal() && !(id in b0.rows && b0.rows[id].status.Terminal())
      ensures id in b.dones <==> !exists p :: p in b.procs && Telling(b, p) && b.procs[p].row.id == id
    {
      assert SpokenFor(b, id);
    }
  }

  /** Once a job has ended, its row never changes again but for progress notes. */
  lemma {:induction false} EndedRowsAreFrozen(b0: State, run: seq<Action>, k: nat, id: JobId)
    requires Initial(b0) && k <= |run|
    requires var b := Exec(b0, run[..k]); id in b.rows && b.rows[id].status.Terminal()
    ensures var b, c := Exec(b0, run[..k]), Exec(b0, run);
            id in c.rows && c.rows[id] == b.rows[id].(notes := c.rows[id].notes)
  {
    RunEvolves(b0, run, k);
    assert RowEvolves(Exec(b0, run[..k]).rows[id], Exec(b0, run).rows[id]);
  }

  /** Between any two points of a run, a session gets at most one serial claim more than its busy mark
      was effectively cleared. */
  lemma {:induction false} SerialClaimsNeedClears(b0: State, run: seq<Action>, k: nat, s: SessionId)
    requires Initial(b0) && k <= |run|
    ensures var b, c := Exec(b0, run[..k]), Exec(b0, run);
            c.serialClaims[s] + b.clears[s] <= b.serialClaims[s] + c.clears[s] + 1
  {
    RunKeepsInv(b0, run[..k]);
    RunKeepsInv(b0, run);
    assert AccountOk(b0.busy, Exec(b0, run[..k]), s);
    assert AccountOk(b0.busy, Exec(b0, run), s);
  }

  /** Over a whole run each job is sent at most once, to its own session, after its own claim; and every
      claim was sent once, or dropped by a failed send, or is still in its drain's hands. */
  lemma {:induction false} SentAtMostOnce(b0: State, run: seq<Action>)
    requires Initial(b0)
    ensures var b := Exec(b0, run);
            && (forall i, k :: 0 <= i < k < |b.wire| ==> b.wire[i].1 != b.wire[k].1)
            && (forall i :: 0 <= i < |b.wire| ==> b.wire[i].1 in b.rows && b.wire[i].0 == b.rows[b.wire[i].1].session)
            && (forall id :: Sent(b, id) || id in b.failed ==> id in b.claims)
            && (forall id :: id in b.claims ==> id in b.rows && b.rows[id].dispatchedAt.Some? && OneFate(b, id))
  {
    RunKeepsInv(b0, run);
    hide TableOk, TokensOk, AccountOk, Evolves;
  }

  /** A claimed job was sent, or its send failed, or its drain still holds it: exactly one of the three. */
  predicate OneFate(b: State, id: JobId)
    requires id in b.rows
  {
    Bit(Sent(b, id)) + Bit(id in b.failed) + Bit(ClaimedNow(b, b.rows[id].session, id)) == 1
  }

  /** The history of every job is its run: it starts with the submission, each entry continues the one
      before, the life cycle strictly climbs and time does not run back, so there are at most four
      entries; and no pending job is ever orphaned. */
  lemma {:induction false} HistoryIsTheRun(b0: State, run: seq<Action>, id: JobId)
    requires Initial(b0) && id in Exec(b0, run).rows
    ensures var j := Exec(b0, run).rows[id];
            && 0 < |j.history| <= 4
            && j.history[0] == HistoryEntry(j.createdAt, None, Pending) && j.history[|j.history| - 1].to == j.status
            && (forall i :: 0 < i < |j.history| ==> Linked(j.history, i))
            && (forall i, k :: 0 <= i < k < |j.history| ==>
                  j.history[i].to.Rank() < j.history[k].to.Rank() && j.history[i].at <= j.history[k].at)
            && (j.dispatchedAt.Some? <==> exists i :: 0 <= i < |j.history| && j.history[i].to == Dispatched)
            && (j.completedAt.Some? <==> j.status.Terminal())
            && (j.status == Orphaned ==> j.dispatchedAt.Some?)
            && (j.status == Expired ==> j.completedAt.value >= j.expiresAt)
  {
    RunKeepsInv(b0, run);
    var b := Exec(b0, run);
    var j := b.rows[id];
    assert Faithful(j, b.now);
    HistoryIsShort(j, b.now);
    forall i, k | 0 <= i < k < |j.history|
      ensures j.history[i].to.Rank() < j.history[k].to.Rank() && j.history[i].at <= j.history[k].at
    {
      HistoryClimbs(j, b.now, i, k);
    }
  }
}
