/** Which transitions are attempted, what is published, when the dispatcher is woken (job-service.ts). */
module JobService {
  import opened Types
  import opened JobRow
  import opened JobStore
  import opened DrainRules
  import opened DrainOutcome
  import opened SessionRegistry
  import opened Routing
  import opened SocketServer
  import opened Dispatcher

  datatype ServiceError = Validation | NotFound | Conflict | Storage(cause: StoreError)

  datatype SubmitInput = SubmitInput(
    session: Option<SessionId>, alias: Option<string>, spawnIfMissing: bool, content: string,
    meta: map<string, string>, ttlSec: Option<int>, priority: Option<Priority>, mode: Option<Mode>,
    clientRef: Option<string>)

  datatype Defaults = Defaults(jobTtlSec: int, clientRefWindowSec: int)

  // Events published so far, in order.
  class SseBus {
    var log: seq<Event>

    constructor ()
      ensures log == []
    {
      log := [];
    }

    method Publish(kind: EventKind, row: Job)
      modifies this
      ensures log == old(log) + [Event(kind, row)]
    {
      log := log + [Event(kind, row)];
    }
  }

  // The characters String.prototype.trim removes.
  predicate Space(c: char) {
    var n := c as int;
    9 <= n <= 13 || n in {32, 0xA0, 0x1680, 0x2028, 0x2029, 0x202F, 0x205F, 0x3000, 0xFEFF} || 0x2000 <= n <= 0x200A
  }

  predicate Blank(text: string) {
    forall i :: 0 <= i < |text| ==> Space(text[i])
  }

  predicate MetaKey(key: string) {
    key != "" && forall i :: 0 <= i < |key| ==>
      'A' <= key[i] <= 'Z' || 'a' <= key[i] <= 'z' || '0' <= key[i] <= '9' || key[i] == '_'
  }

  // An empty string counts as absent.
  predicate GivenSession(input: SubmitInput) {
    input.session.Some? && input.session.value.text != ""
  }

  predicate GivenText(text: Option<string>) {
    text.Some? && text.value != ""
  }

  /** Exactly one addressee, some content, well-formed metadata keys. */
  predicate WellFormed(input: SubmitInput) {
    && !Blank(input.content)
    && (GivenSession(input) <==> !GivenText(input.alias))
    && forall key :: key in input.meta ==> MetaKey(key)
  }

  // The code points of white space and line terminators, one by one.
  const SPACES := {9, 10, 11, 12, 13, 32, 160, 5760, 8192, 8193, 8194, 8195, 8196, 8197, 8198, 8199, 8200, 8201, 8202,
                   8232, 8233, 8239, 8287, 12288, 65279}

  lemma SpacesListed(c: char)
    ensures Space(c) <==> c as int in SPACES
  {
  }

  // String.prototype.trim.
  function TrimStart(text: string): string {
    if text != "" && text[0] as int in SPACES then TrimStart(text[1..]) else text
  }

  function TrimEnd(text: string): string {
    if text != "" && text[|text| - 1] as int in SPACES then TrimEnd(text[..|text| - 1]) else text
  }

  function Trim(text: string): string {
    TrimEnd(TrimStart(text))
  }

  lemma {:induction false} TrimStartFindsText(text: string)
    ensures TrimStart(text) == "" <==> Blank(text)
    ensures TrimStart(text) != "" ==> !Space(TrimStart(text)[0])
  {
    if text != "" {
      SpacesListed(text[0]);
    }
    hide Space;
    if text != "" && Space(text[0]) {
      TrimStartFindsText(text[1..]);
      assert Blank(text) <==> Blank(text[1..]) by {
        assert text == [text[0]] + text[1..];
      }
    }
  }

  lemma {:induction false} TrimEndKeepsStart(text: string)
    requires text != "" && !Space(text[0])
    ensures TrimEnd(text) != ""
    decreases |text|
  {
    SpacesListed(text[|text| - 1]);
    hide Space;
    if Space(text[|text| - 1]) {
      TrimEndKeepsStart(text[..|text| - 1]);
    }
  }

  /** Trimming leaves nothing exactly when there is nothing but space. */
  lemma TrimFindsText(text: string)
    ensures Trim(text) == "" <==> Blank(text)
  {
    TrimStartFindsText(text);
    if !Blank(text) {
      TrimEndKeepsStart(TrimStart(text));
    }
  }

  /** The pattern for metadata keys: one or more letters, digits or underscores. */
  method IsMetaKey(key: string) returns (ok: bool)
    ensures ok <==> MetaKey(key)
  {
    for i := 0 to |key|
      invariant forall k :: 0 <= k < i ==> MetaKey([key[k]])
    {
      var c := key[i];
      if !('A' <= c <= 'Z') && !('a' <= c <= 'z') && !('0' <= c <= '9') && c != '_' {
        return false;
      }
      assert MetaKey([key[i]]);
    }
    assert forall k :: 0 <= k < |key| ==> MetaKey([key[k]]) && [key[k]][0] == key[k];
    return key != "";
  }

  /** The checks at the head of submit. */
  method Validate(input: SubmitInput) returns (ok: bool)
    ensures ok <==> WellFormed(input)
  {
    TrimFindsText(input.content);
    if input.content == "" || Trim(input.content) == "" {
      return false;
    }
    var session := input.session.Some? && input.session.value.text != "";
    var alias := input.alias.Some? && input.alias.value != "";
    if (session && alias) || (!session && !alias) {
      return false;
    }
    var keys := input.meta.Keys;
    while keys != {}
      invariant keys <= input.meta.Keys
      invariant forall key :: key in input.meta && key !in keys ==> MetaKey(key)
      decreases keys
    {
      var key :| key in keys;
      var good := IsMetaKey(key);
      if !good {
        return false;
      }
      keys := keys - {key};
    }
    return true;
  }

  function TtlOf(input: SubmitInput, defaults: Defaults): int {
    if input.ttlSec.Some? then input.ttlSec.value else defaults.jobTtlSec
  }

  function NewRow(input: SubmitInput, id: JobId, s: SessionId, defaults: Defaults, now: Time): NewJob {
    NewJob(id, s, input.content, input.meta,
           if input.priority.Some? then input.priority.value else Normal,
           if input.mode.Some? then input.mode.value else Serial,
           TtlOf(input, defaults), input.clientRef, now, now + TtlOf(input, defaults) * 1000)
  }

  function Unresolved(input: SubmitInput): ServiceError {
    if input.spawnIfMissing then Conflict else NotFound
  }

  // How a submission ended: refused, answered with an earlier job, or queued as a new job.
  datatype Submission = Refused(error: ServiceError) | Repeated(row: Job) | Queued(row: Job)

  class JobService {
    const store: JobStore
    const dispatcher: Dispatcher
    const sessions: SessionRegistry
    const bus: SseBus
    const defaults: Defaults

    constructor (store: JobStore, dispatcher: Dispatcher, sessions: SessionRegistry, bus: SseBus, defaults: Defaults)
      ensures this.store == store && this.dispatcher == dispatcher && this.sessions == sessions
      ensures this.bus == bus && this.defaults == defaults
    {
      this.store, this.dispatcher, this.sessions, this.bus, this.defaults := store, dispatcher, sessions, bus, defaults;
    }

    ghost predicate Wired()
      reads store, dispatcher.sink
    {
      && dispatcher.store == store && dispatcher.sessions == sessions
      && dispatcher.sink.sessions == sessions
      && Keyed(store.rows) && dispatcher.sink.Valid()
    }

    function W(): World
      reads store, dispatcher, dispatcher.store, dispatcher.sink
    {
      dispatcher.W()
    }

    /** `s` is the session a well-formed submission is for. */
    ghost predicate Addressee(input: SubmitInput, s: SessionId)
      reads sessions
    {
      if GivenSession(input) then s == input.session.value
      else GivenText(input.alias) && sessions.FirstLabelled(s, input.alias.value)
    }

    /** The session a well-formed submission is for: the given one, or the first attached one with the label. */
    method Resolve(input: SubmitInput) returns (r: Result<SessionId, ServiceError>)
      requires sessions.Valid() && WellFormed(input)
      ensures forall s :: Addressee(input, s) <==> r == Ok(s)
      ensures r.Err? ==> r.error == Unresolved(input)
      ensures r.Err? ==> forall s :: s in sessions.Open() ==> sessions.sessions[s].alias != input.alias
    {
      if GivenSession(input) {
        return Ok(input.session.value);
      }
      var match_ := sessions.FindByLabel(input.alias.value);
      if match_.Some? {
        return Ok(match_.value);
      }
      if input.spawnIfMissing {
        return Err(Conflict);
      }
      return Err(NotFound);
    }

    /** Idempotent submission: a client_ref seen within the window is answered with its job and leaves
        everything unchanged; otherwise the job is stored, announced, and its session drained. */
    method Submit(input: SubmitInput, id: JobId, now: Time)
      returns (r: Submission, ghost target: Option<SessionId>, ghost claims: seq<JobId>)
      requires Wired() && sessions.Valid()
      modifies store, dispatcher`busy, dispatcher.sink, bus
      ensures Wired()
      ensures !WellFormed(input) ==> r == Refused(Validation)
      ensures !r.Queued? ==> W() == old(W()) && bus.log == old(bus.log)
      ensures r.Repeated? ==> r.row.id in old(store.rows) && old(store.rows)[r.row.id] == r.row
      ensures r.Repeated? ==> GivenText(input.clientRef) && r.row.clientRef == input.clientRef
      ensures r.Repeated? ==> r.row.createdAt >= now - defaults.clientRefWindowSec * 1000
      ensures r.Queued? ==> WasQueued(old(W()), W(), old(bus.log), bus.log, dispatcher.Gate(r.row.session),
                                      NewRow(input, id, r.row.session, defaults, now), r.row, claims, now)
      ensures r.Queued? ==> AsSubmitted(r.row, input, id, defaults, now)
      ensures r.Queued? ==> StoredOrSent(store.rows, r.row, now) && bus.log == old(bus.log) + [Event(CreatedEvent, r.row)]
      ensures WellFormed(input) ==> forall s :: Addressee(input, s) <==> target == Some(s)
      ensures WellFormed(input) ==>
                Answers(old(store.rows), input, id, target, now - defaults.clientRefWindowSec * 1000, r)
    {
      hide WasQueued, Addressee, SeenBefore, RefTaken, AsSubmitted, StoredOrSent;
      target, claims := None, [];
      var valid := Validate(input);
      if !valid {
        return Refused(Validation), target, claims;
      }
      var resolved := Resolve(input);
      if resolved.Err? {
        return Refused(resolved.error), target, claims;
      }
      var s := resolved.value;
      target := Some(s);
      var existing := Earlier(input, s, now);
      if existing.Some? {
        return Repeated(existing.value), target, claims;
      }
      r, claims := Store(input, s, id, now);
    }

    /** The job a repeated client_ref is answered with. */
    method Earlier(input: SubmitInput, s: SessionId, now: Time) returns (existing: Option<Job>)
      requires Keyed(store.rows)
      ensures existing.Some? <==> SeenBefore(store.rows, input, s, now - defaults.clientRefWindowSec * 1000)
      ensures existing.Some? ==>
                var row := existing.value;
                && row.id in store.rows && store.rows[row.id] == row && row.session == s
                && GivenText(input.clientRef) && row.clientRef == input.clientRef
                && row.createdAt >= now - defaults.clientRefWindowSec * 1000
    {
      if input.clientRef.None? || input.clientRef.value == "" {
        return None;
      }
      existing := store.FindByClientRef(s, input.clientRef.value, defaults.clientRefWindowSec * 1000, now);
      if existing.None? && SeenBefore(store.rows, input, s, now - defaults.clientRefWindowSec * 1000) {
        ghost var k :| k in store.rows && store.rows[k].session == s && store.rows[k].clientRef == input.clientRef
                       && store.rows[k].createdAt >= now - defaults.clientRefWindowSec * 1000;
        assert Recent(store.rows, s, input.clientRef.value, defaults.clientRefWindowSec * 1000, now, k);
      }
    }

    /** Insert, announce and drain. */
    method Store(input: SubmitInput, s: SessionId, id: JobId, now: Time) returns (r: Submission, ghost claims: seq<JobId>)
      requires Wired()
      modifies store, dispatcher`busy, dispatcher.sink, bus
      ensures Wired()
      ensures id in old(store.rows) || RefTaken(old(store.rows), s, input.clientRef) ==>
                r.Refused? && r.error.Storage? && W() == old(W()) && bus.log == old(bus.log)
      ensures id !in old(store.rows) && !RefTaken(old(store.rows), s, input.clientRef) ==> r.Queued? && r.row.session == s
      ensures r.Queued? ==> WasQueued(old(W()), W(), old(bus.log), bus.log, dispatcher.Gate(s),
                                      NewRow(input, id, s, defaults, now), r.row, claims, now)
      ensures r.Queued? ==> AsSubmitted(r.row, input, id, defaults, now)
      ensures r.Queued? ==> StoredOrSent(store.rows, r.row, now) && bus.log == old(bus.log) + [Event(CreatedEvent, r.row)]
    {
      hide Drained, MovesTo, FreshRow, AsSubmitted, StoredOrSent;
      claims := [];
      FreshIsAsSubmitted(input, s, id, defaults, now);
      var ttl := match input.ttlSec { case Some(sec) => sec case None => defaults.jobTtlSec };
      var job := NewJob(id, s, input.content, input.meta,
                        match input.priority { case Some(p) => p case None => Normal },
                        match input.mode { case Some(m) => m case None => Serial },
                        ttl, input.clientRef, now, now + ttl * 1000);
      ghost var w, log := W(), bus.log;
      var inserted := store.Insert(job);
      if inserted.Err? {
        return Refused(Storage(inserted.error)), claims;
      }
      bus.Publish(CreatedEvent, inserted.value);
      claims := dispatcher.NotifyPending(s, now);
      r := Queued(inserted.value);
      QueuedColumns(w, W(), log, bus.log, dispatcher.Gate(s), job, r.row, claims, now);
    }

    /** Move a job to a terminal state, publish, clear the busy mark and drain. */
    method TransitionToTerminal(id: JobId, to: Status, patch: Patch, quiet: bool, now: Time)
      returns (r: Result<Option<Job>, ServiceError>, ghost claims: seq<JobId>)
      requires Wired() && to.Terminal()
      modifies store, dispatcher`busy, dispatcher.sink, bus
      ensures Wired()
      ensures EndOutcome(old(W()), W(), old(bus.log), bus.log, old(id in store.rows && dispatcher.Gate(store.rows[id].session)),
                         id, to, patch, claims, now)
      ensures id !in old(store.rows) ==> r == if quiet then Ok(None) else Err(NotFound)
      ensures id in old(store.rows) && old(store.rows)[id].status.Terminal() ==>
                r == if quiet then Ok(Some(old(store.rows)[id])) else Err(Conflict)
      ensures id in old(store.rows) && !old(store.rows)[id].status.Terminal() ==>
                r == Ok(Some(Transitioned(old(store.rows)[id], to, patch, now))) && id in store.rows && r.value == Some(store.rows[id])
      ensures patch.notes.None? ==> Finished(old(store.rows), store.rows, old(bus.log), bus.log, id, to, patch.result, patch.error, now)
    {
      hide Drained, Finished, MovesTo;
      ghost var w, log := W(), bus.log;
      claims := [];
      var existing := store.Get(id);
      if existing.None? {
        NotFinished(store.rows, log, id, to, patch.result, patch.error, now);
        return (if quiet then Ok(None) else Err(NotFound)), claims;
      }
      if existing.value.status.Terminal() {
        NotFinished(store.rows, log, id, to, patch.result, patch.error, now);
        return (if quiet then Ok(existing) else Err(Conflict)), claims;
      }
      // Nothing runs between the read and this compare-and-set, so it cannot lose.
      var updated := store.TransitionStatus(id, existing.value.status, to, patch, now);
      bus.Publish(EndedEvent(to), updated.value);
      claims := dispatcher.NotifyDone(updated.value.session, now);
      r := Ok(updated);
      EndedColumns(w, W(), log, bus.log, dispatcher.Gate(updated.value.session), id, to, patch, claims, now);
    }

    method Cancel(id: JobId, now: Time) returns (r: Result<Option<Job>, ServiceError>, ghost claims: seq<JobId>)
      requires Wired()
      modifies store, dispatcher`busy, dispatcher.sink, bus
      ensures Wired()
      ensures EndOutcome(old(W()), W(), old(bus.log), bus.log, old(id in store.rows && dispatcher.Gate(store.rows[id].session)),
                         id, Cancelled, NO_PATCH, claims, now)
      ensures EndResult(old(store.rows), id, Cancelled, NO_PATCH, now, r)
      ensures Finished(old(store.rows), store.rows, old(bus.log), bus.log, id, Cancelled, None, None, now)
      ensures (r.Ok? <==> CanEnd(old(store.rows), id)) && (r.Ok? ==> id in store.rows && r.value == Some(store.rows[id]))
    {
      r, claims := TransitionToTerminal(id, Cancelled, NO_PATCH, false, now);
    }

    method Complete(id: JobId, result: Option<Json>, now: Time) returns (r: Result<Option<Job>, ServiceError>, ghost claims: seq<JobId>)
      requires Wired()
      modifies store, dispatcher`busy, dispatcher.sink, bus
      ensures Wired()
      ensures EndOutcome(old(W()), W(), old(bus.log), bus.log, old(id in store.rows && dispatcher.Gate(store.rows[id].session)),
                         id, Completed, Patch(result, None, None), claims, now)
      ensures EndResult(old(store.rows), id, Completed, Patch(result, None, None), now, r)
      ensures Finished(old(store.rows), store.rows, old(bus.log), bus.log, id, Completed, result, None, now)
      ensures (r.Ok? <==> CanEnd(old(store.rows), id)) && (r.Ok? ==> id in store.rows && r.value == Some(store.rows[id]))
    {
      r, claims := TransitionToTerminal(id, Completed, Patch(result, None, None), false, now);
    }

    /** Without an error text the column is left as it was. */
    method Fail(id: JobId, error: Option<string>, now: Time) returns (r: Result<Option<Job>, ServiceError>, ghost claims: seq<JobId>)
      requires Wired()
      modifies store, dispatcher`busy, dispatcher.sink, bus
      ensures Wired()
      ensures EndOutcome(old(W()), W(), old(bus.log), bus.log, old(id in store.rows && dispatcher.Gate(store.rows[id].session)),
                         id, Failed, Patch(None, error, None), claims, now)
      ensures EndResult(old(store.rows), id, Failed, Patch(None, error, None), now, r)
      ensures Finished(old(store.rows), store.rows, old(bus.log), bus.log, id, Failed, None, error, now)
      ensures (r.Ok? <==> CanEnd(old(store.rows), id)) && (r.Ok? ==> id in store.rows && r.value == Some(store.rows[id]))
    {
      r, claims := TransitionToTerminal(id, Failed, Patch(None, error, None), false, now);
    }

    method MarkExpired(id: JobId, now: Time) returns (ghost claims: seq<JobId>)
      requires Wired()
      modifies store, dispatcher`busy, dispatcher.sink, bus
      ensures Wired()
      ensures EndOutcome(old(W()), W(), old(bus.log), bus.log, old(id in store.rows && dispatcher.Gate(store.rows[id].session)),
                         id, Expired, TTL_ELAPSED, claims, now)
      ensures Finished(old(store.rows), store.rows, old(bus.log), bus.log, id, Expired, None, Some("ttl_elapsed"), now)
    {
      var updated;
      updated, claims := TransitionToTerminal(id, Expired, Patch(None, Some("ttl_elapsed"), None), true, now);
    }

    method MarkOrphaned(id: JobId, now: Time) returns (ghost claims: seq<JobId>)
      requires Wired()
      modifies store, dispatcher`busy, dispatcher.sink, bus
      ensures Wired()
      ensures EndOutcome(old(W()), W(), old(bus.log), bus.log, old(id in store.rows && dispatcher.Gate(store.rows[id].session)),
                         id, Orphaned, UNREACHABLE, claims, now)
      ensures Finished(old(store.rows), store.rows, old(bus.log), bus.log, id, Orphaned, None, Some("session_unreachable"), now)
    {
      var updated;
      updated, claims := TransitionToTerminal(id, Orphaned, Patch(None, Some("session_unreachable"), None), true, now);
    }

    /** A progress note; the first one on a dispatched job also marks it in progress. */
    method NoteProgress(id: JobId, note: string, now: Time) returns (r: Result<Job, ServiceError>)
      requires Wired()
      modifies store, bus
      ensures Wired()
      ensures NoteOutcome(old(store.rows), store.rows, id, Note(now, note), true, now)
      ensures NoteResult(old(store.rows), store.rows, id, r)
      ensures r.Ok? ==>
                var was := old(store.rows)[id];
                && store.rows == old(store.rows)[id := r.value]
                && if was.status == Dispatched
                   then MovesTo(was, r.value, InProgress, was.result, was.error, was.notes + [Note(now, note)], now)
                   else r.value == was.(notes := was.notes + [Note(now, note)])
      ensures bus.log == old(bus.log) + if r.Ok? then [Event(ProgressEvent, r.value)] else []
    {
      var existing := store.Get(id);
      if existing.None? {
        return Err(NotFound);
      }
      if existing.value.status.Terminal() {
        return Err(Conflict);
      }
      var next := existing.value.notes + [Note(now, note)];
      if existing.value.status == Dispatched {
        var transitioned := store.TransitionStatus(id, Dispatched, InProgress, NO_PATCH.(notes := Some(next)), now);
        r := Ok(transitioned.value);
      } else {
        var patched := store.PatchRow(id, NO_PATCH.(notes := Some(next)));
        r := Ok(patched.value);
      }
      bus.Publish(ProgressEvent, r.value);
    }

    /** dispatched becomes in_progress; any other state is returned untouched. */
    method Ack(id: JobId, now: Time) returns (r: Result<Job, ServiceError>)
      requires Wired()
      modifies store, bus
      ensures Wired()
      ensures id !in old(store.rows) ==> r == Err(NotFound)
      ensures id in old(store.rows) && old(store.rows)[id].status == Dispatched ==>
                && r == Ok(Transitioned(old(store.rows)[id], InProgress, NO_PATCH, now))
                && var was := old(store.rows)[id];
                && MovesTo(was, r.value, InProgress, was.result, was.error, was.notes, now)
                && store.rows == old(store.rows)[id := r.value]
                && bus.log == old(bus.log) + [Event(ProgressEvent, r.value)]
      ensures !(id in old(store.rows) && old(store.rows)[id].status == Dispatched) ==>
                && store.rows == old(store.rows) && bus.log == old(bus.log)
                && (id in store.rows ==> r == Ok(store.rows[id]))
    {
      var existing := store.Get(id);
      if existing.None? {
        return Err(NotFound);
      }
      if existing.value.status != Dispatched {
        return Ok(existing.value);
      }
      var updated := store.TransitionStatus(id, Dispatched, InProgress, NO_PATCH, now);
      bus.Publish(ProgressEvent, updated.value);
      r := Ok(updated.value);
    }

    method AddComment(id: JobId, note: string, now: Time) returns (r: Result<Job, ServiceError>)
      requires Wired()
      modifies store, bus
      ensures Wired()
      ensures NoteOutcome(old(store.rows), store.rows, id, Note(now, "[comment] " + note), false, now)
      ensures NoteResult(old(store.rows), store.rows, id, r)
      ensures r.Ok? ==>
                var was := old(store.rows)[id];
                && store.rows == old(store.rows)[id := r.value]
                && r.value == was.(notes := was.notes + [Note(now, "[comment] " + note)])
      ensures bus.log == old(bus.log) + if r.Ok? then [Event(CommentedEvent, r.value)] else []
    {
      var existing := store.Get(id);
      if existing.None? {
        return Err(NotFound);
      }
      if existing.value.status.Terminal() {
        return Err(Conflict);
      }
      var patched := store.PatchRow(id, NO_PATCH.(notes := Some(existing.value.notes + [Note(now, "[comment] " + note)])));
      bus.Publish(CommentedEvent, patched.value);
      r := Ok(patched.value);
    }
  }

  const TTL_ELAPSED := Patch(None, Some("ttl_elapsed"), None)
  const UNREACHABLE := Patch(None, Some("session_unreachable"), None)

  /** A job of the addressed session carries the submission's client_ref and is recent enough. */
  predicate SeenBefore(rows: Rows, input: SubmitInput, s: SessionId, since: Time) {
    GivenText(input.clientRef) &&
    exists k :: k in rows && rows[k].session == s && rows[k].clientRef == input.clientRef && rows[k].createdAt >= since
  }

  /** How a well-formed submission for `target` is answered: with an earlier job exactly when its client_ref
      was seen there since `since`, with a new job exactly when neither its id nor its client_ref is taken. */
  ghost predicate Answers(rows: Rows, input: SubmitInput, id: JobId, target: Option<SessionId>, since: Time, r: Submission) {
    match target
    case None => r == Refused(Unresolved(input))
    case Some(s) =>
      && (!r.Refused? ==> r.row.session == s)
      && (r.Repeated? <==> SeenBefore(rows, input, s, since))
      && (!r.Repeated? ==> (r.Queued? <==> id !in rows && !RefTaken(rows, s, input.clientRef)))
  }

  /** The row stored for a submission, column by column. */
  predicate AsSubmitted(row: Job, input: SubmitInput, id: JobId, defaults: Defaults, now: Time) {
    && row.id == id && row.status == Pending
    && row.content == input.content && row.meta == input.meta && row.clientRef == input.clientRef
    && row.priority == (if input.priority.Some? then input.priority.value else Normal)
    && row.mode == (if input.mode.Some? then input.mode.value else Serial)
    && row.ttlSec == (if input.ttlSec.Some? then input.ttlSec.value else defaults.jobTtlSec)
    && row.createdAt == now && row.expiresAt == now + 1000 * row.ttlSec
    && row.result == Null && row.error == None && row.notes == []
    && row.history == [HistoryEntry(now, None, Pending)]
    && row.dispatchedAt == None && row.completedAt == None
  }

  lemma FreshIsAsSubmitted(input: SubmitInput, s: SessionId, id: JobId, defaults: Defaults, now: Time)
    ensures var row := FreshRow(NewRow(input, id, s, defaults, now));
            AsSubmitted(row, input, id, defaults, now) && row.session == s && row.id == id
  {
  }

  /** `row` is in the table as it is, or dispatched at `now` by the drain that followed. */
  predicate StoredOrSent(rows: Rows, row: Job, now: Time) {
    row.id in rows &&
    (rows[row.id] == row || MovesTo(row, rows[row.id], Dispatched, row.result, row.error, row.notes, now))
  }

  /** The end of job `id` in the table and the event log, column by column: a given result or error is
      stored, everything else but status, history and completion time stays. */
  ghost predicate Finished(r0: Rows, r1: Rows, log0: seq<Event>, log1: seq<Event>, id: JobId, to: Status,
                           result: Option<Json>, error: Option<string>, now: Time)
  {
    if !CanEnd(r0, id) then r1 == r0 && log1 == log0
    else
      && id in r1 && log1 == log0 + [Event(EndedEvent(to), r1[id])]
      && MovesTo(r0[id], r1[id], to, if result.Some? then result.value else r0[id].result,
                 if error.Some? then error else r0[id].error, r0[id].notes, now)
  }

  lemma NotFinished(rows: Rows, log: seq<Event>, id: JobId, to: Status, result: Option<Json>, error: Option<string>, now: Time)
    requires !CanEnd(rows, id)
    ensures Finished(rows, rows, log, log, id, to, result, error, now)
  {
  }

  lemma QueuedColumns(w0: World, w1: World, log0: seq<Event>, log1: seq<Event>, open: bool,
                      n: NewJob, row: Job, claims: seq<JobId>, now: Time)
    requires WasQueued(w0, w1, log0, log1, open, n, row, claims, now)
    ensures StoredOrSent(w1.rows, row, now)
  {
    DrainClaimsExactly(w0.(rows := w0.rows[n.id := row]), w1, open, n.session, claims, now);
  }

  /** The row that ended stays as its transition left it: the drain that follows claims others. */
  lemma EndedColumns(w0: World, w1: World, log0: seq<Event>, log1: seq<Event>, open: bool,
                     id: JobId, to: Status, patch: Patch, claims: seq<JobId>, now: Time)
    requires EndOutcome(w0, w1, log0, log1, open, id, to, patch, claims, now) && CanEnd(w0.rows, id) && to.Terminal()
    ensures id in w1.rows && w1.rows[id] == Transitioned(w0.rows[id], to, patch, now)
    ensures patch.notes.None? ==> Finished(w0.rows, w1.rows, log0, log1, id, to, patch.result, patch.error, now)
  {
    var e := Ended(w0, id, to, patch, now);
    ClaimsAreSound(e.rows, w0.rows[id].session in e.busy, w0.rows[id].session, claims, now);
    hide WellChosen, Settled;
    assert id !in claims by {
      assert id !in PendingSet(e.rows, w0.rows[id].session);
    }
  }

  /** The effect of a new submission: one fresh row, one event, one drain of its session. */
  ghost predicate WasQueued(w0: World, w1: World, log0: seq<Event>, log1: seq<Event>, open: bool,
                            n: NewJob, row: Job, claims: seq<JobId>, now: Time)
  {
    && n.id !in w0.rows && !RefTaken(w0.rows, n.session, n.clientRef)
    && row == FreshRow(n)
    && log1 == log0 + [Event(CreatedEvent, row)]
    && Drained(w0.(rows := w0.rows[n.id := row]), w1, open, n.session, claims, now)
  }

  predicate CanEnd(rows: Rows, id: JobId) {
    id in rows && !rows[id].status.Terminal()
  }

  /** The effect of trying to end `id`: nothing at all if it is missing or already terminal;
      otherwise one transition, one event, one cleared mark and one drain of its session. */
  ghost predicate EndOutcome(w0: World, w1: World, log0: seq<Event>, log1: seq<Event>, open: bool,
                             id: JobId, to: Status, patch: Patch, claims: seq<JobId>, now: Time)
  {
    if !CanEnd(w0.rows, id) then w1 == w0 && log1 == log0 && claims == []
    else
      && log1 == log0 + [Event(EndedEvent(to), Transitioned(w0.rows[id], to, patch, now))]
      && Drained(Ended(w0, id, to, patch, now), w1, open, w0.rows[id].session, claims, now)
  }

  /** What the caller of cancel, complete or fail is told. */
  ghost predicate EndResult(r0: Rows, id: JobId, to: Status, patch: Patch, now: Time, r: Result<Option<Job>, ServiceError>) {
    if id !in r0 then r == Err(NotFound)
    else if r0[id].status.Terminal() then r == Err(Conflict)
    else r == Ok(Some(Transitioned(r0[id], to, patch, now)))
  }

  /** A live row after a note: appended, with the status bumped at most from dispatched. */
  function Noted(j: Job, note: Note, bump: bool, now: Time): Job {
    var p := NO_PATCH.(notes := Some(j.notes + [note]));
    if bump && j.status == Dispatched then Transitioned(j, InProgress, p, now) else Patched(j, p)
  }

  ghost predicate NoteOutcome(r0: Rows, r1: Rows, id: JobId, note: Note, bump: bool, now: Time) {
    r1 == if CanEnd(r0, id) then r0[id := Noted(r0[id], note, bump, now)] else r0
  }

  ghost predicate NoteResult(r0: Rows, r1: Rows, id: JobId, r: Result<Job, ServiceError>) {
    if id !in r0 then r == Err(NotFound)
    else if r0[id].status.Terminal() then r == Err(Conflict)
    else id in r1 && r == Ok(r1[id])
  }

  // ---- What the service's operations keep ----

  /** Ending a job, with its drain, keeps every safety invariant whether or not sends succeed. */
  lemma EndOutcomeIsSafe(w0: World, w1: World, log0: seq<Event>, log1: seq<Event>, open: bool,
                         id: JobId, to: Status, patch: Patch, claims: seq<JobId>, before: Time, now: Time)
    requires EndOutcome(w0, w1, log0, log1, open, id, to, patch, claims, now)
    requires Safe(w0, before) && before <= now && to.Terminal()
    requires CanEnd(w0.rows, id) ==> Edge(w0.rows[id].status, to) && (to == Expired ==> w0.rows[id].expiresAt <= now)
    ensures Safe(w1, now) && Evolves(w0.rows, w1.rows) && w1.rows.Keys == w0.rows.Keys
  {
    if CanEnd(w0.rows, id) {
      var e := Ended(w0, id, to, patch, now);
      EndIsSafe(w0, id, to, patch, before, now);
      DrainIsSafe(e, w1, open, w0.rows[id].session, claims, now);
      EvolvesTransitive(w0.rows, e.rows, w1.rows);
    } else {
      LaterIsSafe(w0, before, now);
    }
  }

  lemma LaterIsSafe(w: World, before: Time, now: Time)
    requires Safe(w, before) && before <= now
    ensures Safe(w, now)
  {
  }

  /** ... and work conservation, when every open session is routed. */
  lemma EndOutcomeIsOrderly(w0: World, w1: World, log0: seq<Event>, log1: seq<Event>, open: set<SessionId>,
                            id: JobId, to: Status, patch: Patch, claims: seq<JobId>, now: Time)
    requires EndOutcome(w0, w1, log0, log1, id in w0.rows && w0.rows[id].session in open, id, to, patch, claims, now)
    requires Orderly(w0, open) && to.Terminal()
    ensures Orderly(w1, open)
  {
    if CanEnd(w0.rows, id) {
      EndStaysOrderly(w0, id, to, patch, now, open);
      DrainIsOrderly(Ended(w0, id, to, patch, now), w1, open, w0.rows[id].session, claims, now);
    }
  }

  /** Exactly when ending a job keeps one serial job per session: the caller can tell beforehand. */
  lemma EndOutcomeKeepsSyncExactly(w0: World, w1: World, log0: seq<Event>, log1: seq<Event>, open: bool,
                                   id: JobId, to: Status, patch: Patch, claims: seq<JobId>, now: Time)
    requires EndOutcome(w0, w1, log0, log1, open, id, to, patch, claims, now)
    requires CanEnd(w0.rows, id) && to.Terminal() && SerialSync(w0.rows, w0.busy)
    requires open ==> RouteOf(w0.routes, w0.rows[id].session).Some?
    ensures SerialSync(w1.rows, w1.busy) <==> InFlightSerial(w0.rows, w0.rows[id].session) <= {id}
  {
    var e := Ended(w0, id, to, patch, now);
    assert ClaimAll(e.rows, [], now) == e.rows;
    SyncSurvivesEndingExactly(w0.rows, e.rows, w0.busy, id, claims, now);
  }

  /** Submitting keeps the cache exact and serial jobs exclusive, if the session is routed while open. */
  lemma SubmitKeepsSync(w0: World, w1: World, open: bool, row: Job, claims: seq<JobId>, now: Time)
    requires SerialSync(w0.rows, w0.busy) && row.id !in w0.rows && row.status == Pending
    requires Drained(w0.(rows := w0.rows[row.id := row]), w1, open, row.session, claims, now)
    requires open ==> RouteOf(w0.routes, row.session).Some?
    ensures SerialSync(w1.rows, w1.busy)
  {
    var rows := w0.rows[row.id := row];
    assert SerialSync(rows, w0.busy) by {
      forall t ensures (t in w0.busy <==> InFlightSerial(rows, t) != {}) && AtMostOne(rows, t) {
        assert InFlightSerial(rows, t) == InFlightSerial(w0.rows, t);
        assert AtMostOne(w0.rows, t);
      }
    }
    hide SerialSync, WellChosen, Settled, InFlightSerial;
    assert ClaimAll(rows, [], now) == rows;
    DrainKeepsSync(rows, w0.busy, row.session, claims, now);
  }

  lemma InsertIsSafe(w: World, n: NewJob, before: Time, now: Time)
    requires Safe(w, before) && before <= now && n.createdAt == now
    requires n.id !in w.rows && !RefTaken(w.rows, n.session, n.clientRef)
    ensures Safe(w.(rows := w.rows[n.id := FreshRow(n)]), now)
    ensures Evolves(w.rows, w.rows[n.id := FreshRow(n)])
  {
    var rows := w.rows[n.id := FreshRow(n)];
    forall t | t in w.busy ensures InFlightSerial(rows, t) != {} {
      assert InFlightSerial(w.rows, t) <= InFlightSerial(rows, t);
    }
    InsertRow(w.rows, n, before, now);
  }

  lemma SubmitIsSafe(w0: World, w1: World, log0: seq<Event>, log1: seq<Event>, open: bool,
                     n: NewJob, row: Job, claims: seq<JobId>, before: Time, now: Time)
    requires Safe(w0, before) && before <= now && n.createdAt == now
    requires WasQueued(w0, w1, log0, log1, open, n, row, claims, now)
    ensures Safe(w1, now) && Evolves(w0.rows, w1.rows) && w1.rows.Keys == w0.rows.Keys + {n.id}
  {
    var mid := w0.(rows := w0.rows[n.id := row]);
    InsertIsSafe(w0, n, before, now);
    DrainIsSafe(mid, w1, open, n.session, claims, now);
    EvolvesTransitive(w0.rows, mid.rows, w1.rows);
  }

  lemma SubmitIsOrderly(w0: World, w1: World, open: set<SessionId>, row: Job, claims: seq<JobId>, now: Time)
    requires Orderly(w0, open) && row.id !in w0.rows
    requires Drained(w0.(rows := w0.rows[row.id := row]), w1, row.session in open, row.session, claims, now)
    ensures Orderly(w1, open)
  {
    var mid := w0.(rows := w0.rows[row.id := row]);
    forall t | t in open - {row.session} ensures Settled(mid.rows, t in mid.busy, t) {
      SameForKeeps(w0.rows, mid.rows, t);
    }
    DrainIsOrderly(mid, w1, open, row.session, claims, now);
  }

  predicate SamePlace(a: Status, b: Status) {
    a == b || (a.InFlight() && b.InFlight())
  }

  lemma QuietSets(r0: Rows, id: JobId, row: Job, t: SessionId)
    requires id in r0 && RowEvolves(r0[id], row) && SamePlace(r0[id].status, row.status)
    ensures InFlightSerial(r0[id := row], t) == InFlightSerial(r0, t)
    ensures PendingSet(r0[id := row], t) == PendingSet(r0, t)
  {
  }

  lemma QuietSettled(r0: Rows, id: JobId, row: Job, t: SessionId, busy: bool)
    requires id in r0 && RowEvolves(r0[id], row) && SamePlace(r0[id].status, row.status)
    requires Settled(r0, busy, t)
    ensures Settled(r0[id := row], busy, t)
  {
    QuietSets(r0, id, row, t);
    hide PendingSet;
    forall f | f in PendingSet(r0, t) && f in r0 ensures SerialNotBehind(r0[id := row], t, f) == SerialNotBehind(r0, t, f) {
    }
  }

  lemma QuietQueues(r0: Rows, id: JobId, row: Job)
    requires id in r0 && RowEvolves(r0[id], row) && SamePlace(r0[id].status, row.status)
    ensures forall t :: InFlightSerial(r0[id := row], t) == InFlightSerial(r0, t)
    ensures forall t, busy :: Settled(r0, busy, t) ==> Settled(r0[id := row], busy, t)
    ensures forall t :: AtMostOne(r0, t) ==> AtMostOne(r0[id := row], t)
  {
    hide RowEvolves, Settled, InFlightSerial, PendingSet;
    var r1 := r0[id := row];
    forall t ensures InFlightSerial(r1, t) == InFlightSerial(r0, t) {
      QuietSets(r0, id, row, t);
    }
    forall t, busy | Settled(r0, busy, t) ensures Settled(r1, busy, t) {
      QuietSettled(r0, id, row, t, busy);
    }
  }

  lemma QuietKeepsSync(rows: Rows, busy: set<SessionId>, id: JobId, row: Job)
    requires SerialSync(rows, busy) && id in rows
    requires RowEvolves(rows[id], row) && SamePlace(rows[id].status, row.status)
    ensures SerialSync(rows[id := row], busy)
  {
    QuietQueues(rows, id, row);
    hide RowEvolves, Settled, InFlightSerial;
    var r1 := rows[id := row];
    forall t ensures (t in busy <==> InFlightSerial(r1, t) != {}) && AtMostOne(r1, t) {
      assert AtMostOne(rows, t);
    }
  }

  /** Replacing one row by a later version in the same place of its queue disturbs nothing. */
  lemma QuietUpdate(w: World, id: JobId, row: Job, before: Time, now: Time, open: set<SessionId>)
    requires Safe(w, before) && before <= now && id in w.rows
    requires row.id == id && Faithful(row, now) && RowEvolves(w.rows[id], row)
    requires SamePlace(w.rows[id].status, row.status)
    ensures var w' := w.(rows := w.rows[id := row]);
            && Safe(w', now) && Evolves(w.rows, w'.rows)
            && (Orderly(w, open) ==> Orderly(w', open))
            && (SerialSync(w.rows, w.busy) ==> SerialSync(w'.rows, w'.busy))
  {
    hide Sound, UniqueRefs, Evolves, RowEvolves, Settled, SerialSync, InFlightSerial;
    ReplaceRow(w.rows, id, row, before, now);
    QuietQueues(w.rows, id, row);
    if SerialSync(w.rows, w.busy) {
      QuietKeepsSync(w.rows, w.busy, id, row);
    }
  }

  lemma NotedRow(j: Job, note: Note, bump: bool, before: Time, now: Time)
    requires Faithful(j, before) && before <= now && !j.status.Terminal()
    ensures var row := Noted(j, note, bump, now);
            row.id == j.id && Faithful(row, now) && RowEvolves(j, row) && SamePlace(j.status, row.status)
  {
    var p := NO_PATCH.(notes := Some(j.notes + [note]));
    if bump && j.status == Dispatched {
      TransitionKeepsFaith(j, InProgress, p, before, now);
    } else {
      PatchKeepsFaith(j, p, before, now);
    }
  }

  lemma NoteIsQuiet(w: World, r1: Rows, id: JobId, note: Note, bump: bool, before: Time, now: Time, open: set<SessionId>)
    requires Safe(w, before) && before <= now && NoteOutcome(w.rows, r1, id, note, bump, now)
    ensures var w' := w.(rows := r1);
            && Safe(w', now) && Evolves(w.rows, r1) && r1.Keys == w.rows.Keys
            && (Orderly(w, open) ==> Orderly(w', open))
            && (SerialSync(w.rows, w.busy) ==> SerialSync(r1, w.busy))
  {
    if CanEnd(w.rows, id) {
      FaithfulAt(w, id, before);
      hide Safe, Orderly, Evolves, RowEvolves, Faithful, SerialSync, Noted;
      NotedRow(w.rows[id], note, bump, before, now);
      QuietUpdate(w, id, r1[id], before, now, open);
    } else {
      LaterIsSafe(w, before, now);
    }
  }

  lemma FaithfulAt(w: World, id: JobId, now: Time)
    requires Safe(w, now) && id in w.rows
    ensures Faithful(w.rows[id], now) && w.rows[id].id == id
  {
  }
}
