/** What each message, tool call and request does to the whole broker, and that it is a run of deeds. */
module Outcomes {
  import opened Types
  import opened JobRow
  import opened JobStore
  import opened DrainRules
  import opened DrainOutcome
  import opened SessionRegistry
  import opened Routing
  import opened JobService
  import opened Deeds

  datatype Tool =
    | CompleteJob(job: JobId, result: Option<Json>)
    | FailJob(job: JobId, error: Option<string>)
    | NoteProgress(job: JobId, note: string)
    | AckJob(job: JobId)
    | NoTool              // an unknown name, or no job_id

  // A parsed line from a shim.
  datatype ShimMsg =
    | InvalidJson
    | Untyped
    | BadVersion
    | Register(session: SessionId, alias: Option<string>, pid: Option<int>)
    | Reconnect(session: SessionId)
    | Heartbeat
    | ToolCall(call: string, tool: Tool)
    | UnknownType

  /** A best-effort message to a session. */
  function Told(w: World, s: SessionId, msg: BrokerMsg): World {
    match RouteOf(w.routes, s)
    case Some(c) => w.(routes := Wrote(w.routes, c, [msg]))
    case None => w
  }

  /** `msg` was appended to the output of the session's live connection, if it has one, and nothing else changed. */
  predicate Delivered(r0: Routes, r1: Routes, s: SessionId, msg: BrokerMsg) {
    if s in r0.sessionConn && r0.sessionConn[s] in r0.live && r0.sessionConn[s] in r0.conns then
      var c := r0.sessionConn[s];
      r1 == r0.(conns := r0.conns[c := r0.conns[c].(out := r0.conns[c].out + [msg])])
    else r1 == r0
  }

  function Answered(w: World, c: ConnId, msg: BrokerMsg): World
    requires c in w.routes.conns
  {
    w.(routes := Wrote(w.routes, c, [msg]))
  }

  function Hung(w: World, c: ConnId): World
    requires c in w.routes.conns
  {
    w.(routes := w.routes.(conns := w.routes.conns[c := w.routes.conns[c].(ended := true)]))
  }

  ghost predicate AckOutcome(r0: Rows, r1: Rows, log0: seq<Event>, log1: seq<Event>, id: JobId, now: Time) {
    if id in r0 && r0[id].status == Dispatched then
      var row := Transitioned(r0[id], InProgress, NO_PATCH, now);
      r1 == r0[id := row] && log1 == log0 + [Event(ProgressEvent, row)]
    else r1 == r0 && log1 == log0
  }

  /** What a tool call does: the service's own outcome, and an error exactly when the service refuses. */
  ghost predicate ToolOutcome(w0: World, w1: World, log0: seq<Event>, log1: seq<Event>, open: set<SessionId>,
                              tool: Tool, error: Option<string>, claims: seq<JobId>, now: Time)
  {
    match tool
    case CompleteJob(id, result) =>
      && EndOutcome(w0, w1, log0, log1, id in w0.rows && w0.rows[id].session in open, id, Completed, Patch(result, None, None), claims, now)
      && (error.None? <==> CanEnd(w0.rows, id))
    case FailJob(id, text) =>
      && EndOutcome(w0, w1, log0, log1, id in w0.rows && w0.rows[id].session in open, id, Failed, Patch(None, text, None), claims, now)
      && (error.None? <==> CanEnd(w0.rows, id))
    case NoteProgress(id, text) =>
      && w1 == w0.(rows := w1.rows) && NoteOutcome(w0.rows, w1.rows, id, Note(now, text), true, now)
      && (error.None? <==> CanEnd(w0.rows, id))
      && log1 == log0 + if error.None? && id in w1.rows then [Event(ProgressEvent, w1.rows[id])] else []
    case AckJob(id) =>
      && w1 == w0.(rows := w1.rows) && AckOutcome(w0.rows, w1.rows, log0, log1, id, now)
      && (error.None? <==> id in w0.rows)
    case NoTool => w1 == w0 && log1 == log0 && error.Some?
  }

  /** A tool call from connection `c`: refused before its handshake, else run, and answered either way. */
  ghost predicate CallOutcome(w0: World, mid: World, w1: World, log0: seq<Event>, log1: seq<Event>, open: set<SessionId>,
                              c: ConnId, call: string, tool: Tool, error: Option<string>, claims: seq<JobId>, now: Time)
  {
    && c in w0.routes.conns && c in mid.routes.conns
    && w1 == Answered(mid, c, ToolResultMsg(call, error))
    && if w0.routes.conns[c].session.None? then mid == w0 && log1 == log0 && error == Some("not_registered")
       else ToolOutcome(w0, mid, log0, log1, open, tool, error, claims, now)
  }

  ghost predicate MessageOutcome(w0: World, mid: World, w1: World, log0: seq<Event>, log1: seq<Event>,
                                 open0: set<SessionId>, open1: set<SessionId>, c: ConnId, msg: ShimMsg,
                                 error: Option<string>, claims: seq<JobId>, now: Time)
  {
    && c in w0.routes.conns
    && (!msg.ToolCall? ==> log1 == log0)
    && (!msg.Register? && !msg.Reconnect? ==> open1 == open0)
    && match msg
       case InvalidJson => w1 == Answered(w0, c, ErrorMsg("invalid_json"))
       case Untyped => w1 == Answered(w0, c, ErrorMsg("invalid_message"))
       case BadVersion => w1 == Hung(Answered(w0, c, ErrorMsg("version_mismatch")), c)
       case UnknownType => w1 == Answered(w0, c, ErrorMsg("unknown_message"))
       case Heartbeat => w1 == w0
       case ToolCall(call, tool) => CallOutcome(w0, mid, w1, log0, log1, open0, c, call, tool, error, claims, now)
       case Reconnect(s) => open1 == open0 + {s} && Attached(w0, w1, c, s, claims, now)
       case Register(s, _, _) =>
         if w0.routes.conns[c].session.Some? then open1 == open0 && w1 == Answered(w0, c, ErrorMsg("already_registered"))
         else open1 == open0 + {s} && Attached(w0, w1, c, s, claims, now)
  }

  /** A handshake, followed by a drain of the session with its gate open. */
  ghost predicate Attached(w0: World, w1: World, c: ConnId, s: SessionId, claims: seq<JobId>, now: Time)
    requires c in w0.routes.conns
  {
    Drained(w0.(routes := Handshake(w0.routes, c, s)), w1, true, s, claims, now)
  }

  lemma ToolKeepsConns(w0: World, w1: World, log0: seq<Event>, log1: seq<Event>, open: set<SessionId>,
                       tool: Tool, error: Option<string>, claims: seq<JobId>, now: Time)
    requires ToolOutcome(w0, w1, log0, log1, open, tool, error, claims, now)
    ensures w1.routes.conns.Keys == w0.routes.conns.Keys
  {
    hide EndOutcome, NoteOutcome;
    match tool
    case CompleteJob(id, result) =>
      EndKeepsConns(w0, w1, log0, log1, id in w0.rows && w0.rows[id].session in open, id, Completed, Patch(result, None, None), claims, now);
    case FailJob(id, text) =>
      EndKeepsConns(w0, w1, log0, log1, id in w0.rows && w0.rows[id].session in open, id, Failed, Patch(None, text, None), claims, now);
    case _ =>
  }

  /** The handles after a message: handshakes enrol, heartbeats of a bound connection are noted. */
  function HandlesAfter(sessions: map<SessionId, SessionHandle>, r: Routes, c: ConnId, msg: ShimMsg, now: Time): map<SessionId, SessionHandle>
    requires c in r.conns
  {
    match msg
    case Register(s, alias, pid) =>
      if r.conns[c].session.Some? then sessions else Enrolled(sessions, s, alias, None, pid, c, now)
    case Reconnect(s) => Enrolled(sessions, s, None, None, None, c, now)
    case Heartbeat => HeardFrom(sessions, r.conns[c].session, now)
    case _ => sessions
  }

  function HeardFrom(sessions: map<SessionId, SessionHandle>, s: Option<SessionId>, now: Time): map<SessionId, SessionHandle> {
    if s.Some? && s.value in sessions then sessions[s.value := sessions[s.value].(lastHeartbeatAt := now)] else sessions
  }

  predicate OneHandshake(r: Routes, c: ConnId, msg: ShimMsg) {
    match msg
    case Register(_, _, _) => c in r.live
    case Reconnect(s) => MayHandshake(r, c, s)
    case _ => true
  }

  lemma EndKeepsConns(w0: World, w1: World, log0: seq<Event>, log1: seq<Event>, open: bool,
                      id: JobId, to: Status, patch: Patch, claims: seq<JobId>, now: Time)
    requires EndOutcome(w0, w1, log0, log1, open, id, to, patch, claims, now)
    ensures w1.routes.conns.Keys == w0.routes.conns.Keys
  {
    hide WellChosen, Settled;
  }

  // ---- As deeds ----

  /** What one stimulus did, as deeds; none of their sends could fail if the broker was orderly. */
  ghost predicate Traced(w0: World, open: set<SessionId>, w1: World, log0: seq<Event>, log1: seq<Event>, turns: seq<Turn>) {
    Acted(w0, w1, log0, log1, turns) && (Orderly(w0, open) ==> Routed(w0, turns))
  }

  lemma QuietIsTraced(w: World, open: set<SessionId>, log: seq<Event>)
    ensures Traced(w, open, w, log, log, [])
  {
    hide Acted, Routed, Orderly;
    NothingActed(w, log);
  }

  function RewireTurn(w: World, now: Time): Turn {
    Turn(Rewire, {}, now, w)
  }

  lemma RewiringIsTraced(w0: World, w1: World, open: set<SessionId>, log: seq<Event>, now: Time)
    requires w1 == w0.(routes := w1.routes)
    ensures Traced(w0, open, w1, log, log, [RewireTurn(w1, now)])
  {
    hide Acted, Routed, Orderly;
    RewiringIsDeed(w0, w1, log, now);
  }

  lemma TracedThenRewired(w0: World, w1: World, w2: World, open: set<SessionId>, log0: seq<Event>, log1: seq<Event>, turns: seq<Turn>, now: Time)
    requires Traced(w0, open, w1, log0, log1, turns) && w2 == w1.(routes := w2.routes)
    ensures Traced(w0, open, w2, log0, log1, turns + [RewireTurn(w2, now)])
  {
    hide Acted, Routed, Orderly;
    RewiringIsDeed(w1, w2, log1, now);
    ActedThen(w0, w1, w2, log0, log1, log1, turns, [RewireTurn(w2, now)]);
  }

  lemma SubmissionIsTraced(w0: World, w1: World, log0: seq<Event>, log1: seq<Event>, open: set<SessionId>,
                           n: NewJob, row: Job, claims: seq<JobId>, now: Time)
    requires WasQueued(w0, w1, log0, log1, n.session in open, n, row, claims, now)
    ensures Traced(w0, open, w1, log0, log1, [Turn(Queue(n, claims), open, now, w1)])
  {
    hide WasQueued, Acted, Routed;
    SubmissionIsDeed(w0, w1, log0, log1, open, n, row, claims, now);
  }

  lemma EndingIsTraced(w0: World, w1: World, log0: seq<Event>, log1: seq<Event>, open: set<SessionId>,
                       id: JobId, to: Status, patch: Patch, claims: seq<JobId>, now: Time)
    requires EndOutcome(w0, w1, log0, log1, id in w0.rows && w0.rows[id].session in open, id, to, patch, claims, now)
    requires to.Terminal()
    ensures Traced(w0, open, w1, log0, log1, EndingTurns(w0, w1, open, id, to, patch, claims, now))
  {
    hide EndOutcome, Acted, Routed, EndingTurns;
    EndingIsDeed(w0, w1, log0, log1, open, id, to, patch, claims, now);
  }

  lemma NoteIsTraced(w: World, r1: Rows, id: JobId, note: Note, bump: bool, kind: EventKind, open: set<SessionId>,
                     log0: seq<Event>, log1: seq<Event>, before: Time, now: Time)
    requires Safe(w, before) && before <= now && NoteOutcome(w.rows, r1, id, note, bump, now) && !kind.EndedEvent?
    requires log1 == log0 + if CanEnd(w.rows, id) && id in r1 then [Event(kind, r1[id])] else []
    ensures Traced(w, open, w.(rows := r1), log0, log1, AmendTurns(w, r1, id, kind, CanEnd(w.rows, id), now))
  {
    hide Safe, Acted, Routed, Orderly, Faithful;
    NoteIsQuiet(w, r1, id, note, bump, before, now, open);
    if CanEnd(w.rows, id) {
      EvolvesAt(w.rows, r1, id);
    } else {
      assert log0 + [] == log0;
    }
    hide RowEvolves;
    AmendingIsDeed(w, r1, id, kind, CanEnd(w.rows, id), now, log0, log1);
  }

  lemma EvolvesAt(r0: Rows, r1: Rows, id: JobId)
    requires Evolves(r0, r1) && id in r0
    ensures id in r1 && RowEvolves(r0[id], r1[id])
  {
  }

  predicate IsDispatched(rows: Rows, id: JobId) {
    id in rows && rows[id].status == Dispatched
  }

  lemma AckIsTraced(w: World, r1: Rows, id: JobId, open: set<SessionId>, log0: seq<Event>, log1: seq<Event>, before: Time, now: Time)
    requires Safe(w, before) && before <= now && AckOutcome(w.rows, r1, log0, log1, id, now)
    ensures Traced(w, open, w.(rows := r1), log0, log1, AmendTurns(w, r1, id, ProgressEvent, IsDispatched(w.rows, id), now))
  {
    if IsDispatched(w.rows, id) {
      TransitionKeepsFaith(w.rows[id], InProgress, NO_PATCH, before, now);
    }
    hide Safe, Acted, Routed, Orderly, RowEvolves;
    AmendingIsDeed(w, r1, id, ProgressEvent, IsDispatched(w.rows, id), now, log0, log1);
  }

  function ToolTurns(w0: World, w1: World, open: set<SessionId>, tool: Tool, claims: seq<JobId>, now: Time): seq<Turn> {
    match tool
    case CompleteJob(id, result) => EndingTurns(w0, w1, open, id, Completed, Patch(result, None, None), claims, now)
    case FailJob(id, text) => EndingTurns(w0, w1, open, id, Failed, Patch(None, text, None), claims, now)
    case NoteProgress(id, _) => AmendTurns(w0, w1.rows, id, ProgressEvent, CanEnd(w0.rows, id), now)
    case AckJob(id) => AmendTurns(w0, w1.rows, id, ProgressEvent, IsDispatched(w0.rows, id), now)
    case NoTool => []
  }

  lemma ToolIsTraced(w0: World, w1: World, log0: seq<Event>, log1: seq<Event>, open: set<SessionId>, tool: Tool,
                     error: Option<string>, claims: seq<JobId>, before: Time, now: Time)
    requires Safe(w0, before) && before <= now && ToolOutcome(w0, w1, log0, log1, open, tool, error, claims, now)
    ensures Traced(w0, open, w1, log0, log1, ToolTurns(w0, w1, open, tool, claims, now))
  {
    hide Safe, EndOutcome, NoteOutcome, AckOutcome, Traced, EndingTurns, AmendTurns;
    match tool {
      case CompleteJob(id, result) => EndingIsTraced(w0, w1, log0, log1, open, id, Completed, Patch(result, None, None), claims, now);
      case FailJob(id, text) => EndingIsTraced(w0, w1, log0, log1, open, id, Failed, Patch(None, text, None), claims, now);
      case NoteProgress(id, text) => NoteIsTraced(w0, w1.rows, id, Note(now, text), true, ProgressEvent, open, log0, log1, before, now);
      case AckJob(id) => AckIsTraced(w0, w1.rows, id, open, log0, log1, before, now);
      case NoTool => QuietIsTraced(w0, open, log0);
    }
  }

  function MessageTurns(w0: World, mid: World, w1: World, open1: set<SessionId>, c: ConnId, msg: ShimMsg, claims: seq<JobId>, now: Time): seq<Turn>
    requires c in w0.routes.conns
  {
    var bound := w0.routes.conns[c].session.Some?;
    match msg
    case Heartbeat => []
    case ToolCall(_, tool) => (if bound then ToolTurns(w0, mid, open1, tool, claims, now) else []) + [RewireTurn(w1, now)]
    case Register(s, _, _) => if bound then [RewireTurn(w1, now)] else HandshakeTurns(w0, w1, open1, c, s, claims, now)
    case Reconnect(s) => HandshakeTurns(w0, w1, open1, c, s, claims, now)
    case _ => [RewireTurn(w1, now)]
  }

  function HandshakeTurns(w0: World, w1: World, open1: set<SessionId>, c: ConnId, s: SessionId, claims: seq<JobId>, now: Time): seq<Turn>
    requires c in w0.routes.conns
  {
    AttachTurns(w0.(routes := Handshake(w0.routes, c, s)), w1, open1, s, claims, now)
  }

  lemma HandshakeIsTraced(w0: World, w1: World, open0: set<SessionId>, c: ConnId, s: SessionId, claims: seq<JobId>, log: seq<Event>, now: Time)
    requires c in w0.routes.conns && Attached(w0, w1, c, s, claims, now)
    ensures Acted(w0, w1, log, log, HandshakeTurns(w0, w1, open0 + {s}, c, s, claims, now))
    ensures Orderly(w0, open0) && MayHandshake(w0.routes, c, s) ==> Routed(w0, HandshakeTurns(w0, w1, open0 + {s}, c, s, claims, now))
  {
    hide Drained, Acted, Routed, Handshake, Bijective, OpenIsRouted, AttachTurns;
    AttachingIsDeed(w0, w0.(routes := Handshake(w0.routes, c, s)), w1, open0 + {s}, s, claims, now, log);
    if Orderly(w0, open0) && MayHandshake(w0.routes, c, s) {
      HandshakeRoutes(w0.routes, c, s, open0);
    }
  }

  lemma CallIsTraced(w0: World, mid: World, w1: World, log0: seq<Event>, log1: seq<Event>, open: set<SessionId>, c: ConnId, call: string,
                     tool: Tool, error: Option<string>, claims: seq<JobId>, before: Time, now: Time)
    requires Safe(w0, before) && before <= now && CallOutcome(w0, mid, w1, log0, log1, open, c, call, tool, error, claims, now)
    ensures Traced(w0, open, w1, log0, log1, MessageTurns(w0, mid, w1, open, c, ToolCall(call, tool), claims, now))
  {
    hide Safe, ToolOutcome, Traced, ToolTurns;
    if w0.routes.conns[c].session.Some? {
      ToolIsTraced(w0, mid, log0, log1, open, tool, error, claims, before, now);
      TracedThenRewired(w0, mid, w1, open, log0, log1, ToolTurns(w0, mid, open, tool, claims, now), now);
    } else {
      QuietIsTraced(w0, open, log0);
      TracedThenRewired(w0, mid, w1, open, log0, log1, [], now);
    }
  }

  /** Whatever a shim sends, the broker does exactly these deeds and publishes exactly their events. */
  lemma MessageIsTraced(w0: World, mid: World, w1: World, log0: seq<Event>, log1: seq<Event>, open0: set<SessionId>, open1: set<SessionId>,
                        c: ConnId, msg: ShimMsg, error: Option<string>, claims: seq<JobId>, before: Time, now: Time)
    requires Safe(w0, before) && before <= now
    requires MessageOutcome(w0, mid, w1, log0, log1, open0, open1, c, msg, error, claims, now)
    ensures Acted(w0, w1, log0, log1, MessageTurns(w0, mid, w1, open1, c, msg, claims, now))
    ensures Orderly(w0, open0) && OneHandshake(w0.routes, c, msg) ==> Routed(w0, MessageTurns(w0, mid, w1, open1, c, msg, claims, now))
  {
    hide Safe, Acted, Routed, Orderly, CallOutcome, Attached, HandshakeTurns, ToolTurns, Wrote;
    match msg {
      case Heartbeat => QuietIsTraced(w0, open0, log0);
      case ToolCall(call, tool) => CallIsTraced(w0, mid, w1, log0, log1, open0, c, call, tool, error, claims, before, now);
      case Reconnect(s) => HandshakeIsTraced(w0, w1, open0, c, s, claims, log0, now);
      case Register(s, _, _) =>
        if w0.routes.conns[c].session.Some? {
          RewiringIsTraced(w0, w1, open0, log0, now);
        } else {
          HandshakeIsTraced(w0, w1, open0, c, s, claims, log0, now);
        }
      case _ => RewiringIsTraced(w0, w1, open0, log0, now);
    }
  }
}
