/** The assembled broker: every outside stimulus runs to completion (container.ts, broker.ts). */
module Broker {
  import opened Types
  import opened JobRow
  import opened JobStore
  import opened DrainRules
  import opened DrainOutcome
  import opened SessionRegistry
  import opened Routing
  import opened SocketServer
  import opened Dispatcher
  import opened JobService
  import opened SweepRules
  import opened Sweeper
  import opened Deeds
  import opened Outcomes
  import opened Exclusion
  import Framing

  datatype Config = Config(defaults: Defaults, heartbeatTimeoutMs: int, orphanGraceMs: int, batchSize: nat)

  /** What every stimulus except a sweep guarantees: the table stays sound and moves on legally, and an
      orderly broker stays orderly. */
  ghost predicate Keeps(w0: World, open0: set<SessionId>, w1: World, open1: set<SessionId>, now: Time) {
    && Safe(w1, now)
    && OtherStep(w0.rows, w1.rows, now)
    && (Orderly(w0, open0) ==> Orderly(w1, open1))
  }

  lemma QuietKeeps(w0: World, w1: World, open0: set<SessionId>, open1: set<SessionId>, before: Time, now: Time)
    requires Safe(w0, before) && before <= now && w1.rows == w0.rows && w1.busy == w0.busy
    requires Orderly(w0, open0) ==> Orderly(w1, open1)
    ensures Keeps(w0, open0, w1, open1, now)
  {
    LaterIsSafe(w0, before, now);
  }

  lemma EndKeeps(w0: World, w1: World, log0: seq<Event>, log1: seq<Event>, open: set<SessionId>,
                 id: JobId, to: Status, patch: Patch, claims: seq<JobId>, before: Time, now: Time)
    requires EndOutcome(w0, w1, log0, log1, id in w0.rows && w0.rows[id].session in open, id, to, patch, claims, now)
    requires Safe(w0, before) && before <= now && to in {Completed, Failed, Cancelled}
    ensures Keeps(w0, open, w1, open, now)
    ensures CanEnd(w0.rows, id) && Orderly(w0, open) && SerialSync(w0.rows, w0.busy) ==>
              (SerialSync(w1.rows, w1.busy) <==> InFlightSerial(w0.rows, w0.rows[id].session) <= {id})
  {
    hide Safe, Orderly, EndOutcome, Evolves, SerialSync;
    var gate := id in w0.rows && w0.rows[id].session in open;
    EndOutcomeIsSafe(w0, w1, log0, log1, gate, id, to, patch, claims, before, now);
    if Orderly(w0, open) {
      EndOutcomeIsOrderly(w0, w1, log0, log1, open, id, to, patch, claims, now);
      if CanEnd(w0.rows, id) && SerialSync(w0.rows, w0.busy) {
        OrderlyRoutes(w0, open);
        EndOutcomeKeepsSyncExactly(w0, w1, log0, log1, gate, id, to, patch, claims, now);
      }
    }
  }

  lemma OrderlyIsRouted(w: World, open: set<SessionId>, fewer: set<SessionId>)
    requires Orderly(w, open) && fewer <= open
    ensures OpenIsRouted(fewer, w.routes)
  {
  }

  lemma OrderlyRoutes(w: World, open: set<SessionId>)
    requires Orderly(w, open)
    ensures forall s :: s in open ==> RouteOf(w.routes, s).Some?
  {
  }

  lemma SubmitKeeps(w0: World, w1: World, log0: seq<Event>, log1: seq<Event>, open: set<SessionId>,
                    n: NewJob, row: Job, claims: seq<JobId>, before: Time, now: Time)
    requires WasQueued(w0, w1, log0, log1, n.session in open, n, row, claims, now)
    requires Safe(w0, before) && before <= now && n.createdAt == now && n.expiresAt > now
    ensures Keeps(w0, open, w1, open, now) && w1.rows.Keys == w0.rows.Keys + {n.id}
    ensures Orderly(w0, open) && SerialSync(w0.rows, w0.busy) ==> SerialSync(w1.rows, w1.busy)
  {
    hide Safe, Orderly, Evolves, Drained, SerialSync;
    SubmitIsSafe(w0, w1, log0, log1, n.session in open, n, row, claims, before, now);
    if Orderly(w0, open) {
      SubmitIsOrderly(w0, w1, open, row, claims, now);
      if SerialSync(w0.rows, w0.busy) {
        OrderlyRoutes(w0, open);
        SubmitKeepsSync(w0, w1, n.session in open, row, claims, now);
      }
    }
    FreshExpiry(w0, w1, n.session in open, n, row, claims, now);
  }

  lemma FreshExpiry(w0: World, w1: World, open: bool, n: NewJob, row: Job, claims: seq<JobId>, now: Time)
    requires row == FreshRow(n) && n.id !in w0.rows
    requires Drained(w0.(rows := w0.rows[n.id := row]), w1, open, n.session, claims, now)
    ensures n.id in w1.rows && w1.rows[n.id].expiresAt == n.expiresAt
  {
    hide Settled, WellChosen, Wrote;
  }

  /** A permitted handshake and the drain that follows leave an orderly broker orderly, with one more open session. */
  lemma AttachKeeps(w0: World, w1: World, w2: World, open: set<SessionId>, c: ConnId, s: SessionId,
                    claims: seq<JobId>, before: Time, now: Time)
    requires Safe(w0, before) && before <= now && c in w0.routes.conns
    requires w1 == w0.(routes := Handshake(w0.routes, c, s))
    requires Drained(w1, w2, true, s, claims, now)
    ensures Safe(w2, now) && OtherStep(w0.rows, w2.rows, now)
    ensures Orderly(w0, open) && MayHandshake(w0.routes, c, s) ==>
              Orderly(w2, open + {s}) && (SerialSync(w0.rows, w0.busy) ==> SerialSync(w2.rows, w2.busy))
  {
    hide SerialSync, Conserved, Drained, Evolves, Sound, UniqueRefs, NoPhantom, AllGreeted;
    assert Safe(w1, now) by {
      LaterIsSafe(w0, before, now);
    }
    DrainIsSafe(w1, w2, true, s, claims, now);
    if Orderly(w0, open) && MayHandshake(w0.routes, c, s) {
      HandshakeKeepsBijectionExactly(w0.routes, c, s);
      HandshakeKeepsGreeted(w0.routes, c, s);
      HandshakeRoutes(w0.routes, c, s, open);
      FewerConserved(w0.rows, w0.busy, open, open + {s} - {s});
      DrainIsOrderly(w1, w2, open + {s}, s, claims, now);
      if SerialSync(w0.rows, w0.busy) {
        RoutedDrainKeepsSync(w1, w2, s, claims, now);
      }
    }
  }

  lemma RoutedDrainKeepsSync(w0: World, w1: World, s: SessionId, claims: seq<JobId>, now: Time)
    requires SerialSync(w0.rows, w0.busy) && Drained(w0, w1, true, s, claims, now) && RouteOf(w0.routes, s).Some?
    ensures SerialSync(w1.rows, w1.busy)
  {
    hide SerialSync, WellChosen, Settled;
    DrainKeepsSync(w0.rows, w0.busy, s, claims, now);
  }

  lemma FewerConserved(rows: Rows, busy: set<SessionId>, open: set<SessionId>, fewer: set<SessionId>)
    requires Conserved(rows, busy, open) && fewer <= open
    ensures Conserved(rows, busy, fewer)
  {
  }

  lemma CloseStaysOrderly(w: World, c: ConnId, open: set<SessionId>)
    requires Orderly(w, open)
    ensures var gone := OwnedBy(w.routes, c);
            Orderly(w.(routes := Closed(w.routes, c)), open - gone)
  {
    CloseKeepsBijection(w.routes, c);
    var r := Closed(w.routes, c);
    var gone := OwnedBy(w.routes, c);
    forall t | t in open - gone ensures RouteOf(r, t).Some? {
      assert RouteOf(w.routes, t).Some?;
    }
    FewerConserved(w.rows, w.busy, open, open - gone);
  }

  /** Writing anything but job messages, to any connection, alive or displaced. */
  lemma PlainWriteStaysOrderly(w: World, c: ConnId, msg: BrokerMsg, open: set<SessionId>)
    requires Orderly(w, open) && c in w.routes.conns && !msg.Push()
    ensures Orderly(w.(routes := Wrote(w.routes, c, [msg])), open)
  {
    hide Conserved, Greeted;
    WriteKeepsGreeted(w.routes.conns[c], [msg]);
    SameRoutes(w.routes, Wrote(w.routes, c, [msg]), open);
  }

  /** Job messages go only to the session's own connection. */
  lemma PushStaysOrderly(w: World, s: SessionId, msg: BrokerMsg, open: set<SessionId>)
    requires Orderly(w, open) && RouteOf(w.routes, s).Some?
    ensures Orderly(w.(routes := Wrote(w.routes, RouteOf(w.routes, s).value, [msg])), open)
  {
    hide Conserved, Greeted;
    RoutedWriteKeeps(w.routes, s, [msg]);
    SameRoutes(w.routes, Wrote(w.routes, RouteOf(w.routes, s).value, [msg]), open);
  }

  lemma SameRoutes(r: Routes, r': Routes, open: set<SessionId>)
    requires r'.live == r.live && r'.sessionConn == r.sessionConn && r'.conns.Keys == r.conns.Keys
    requires OpenIsRouted(open, r)
    ensures OpenIsRouted(open, r')
  {
    forall s | s in open ensures RouteOf(r', s).Some? {
      assert RouteOf(r, s).Some?;
    }
  }

  lemma SameTalk(w: World, c: ConnId, k: Connection, open: set<SessionId>)
    requires Orderly(w, open) && c in w.routes.conns
    requires k.session == w.routes.conns[c].session && k.out == w.routes.conns[c].out
    ensures Orderly(w.(routes := w.routes.(conns := w.routes.conns[c := k])), open)
  {
    hide Conserved;
    SameRoutes(w.routes, w.routes.(conns := w.routes.conns[c := k]), open);
  }

  lemma AcceptStaysOrderly(w: World, c: ConnId, open: set<SessionId>)
    requires Orderly(w, open) && c !in w.routes.conns
    ensures Orderly(w.(routes := Accepted(w.routes, c)), open)
  {
    hide Conserved;
    forall s | s in open ensures RouteOf(Accepted(w.routes, c), s).Some? {
      assert RouteOf(w.routes, s).Some?;
    }
  }

  class Broker {
    const store: JobStore
    const sessions: SessionRegistry
    const server: SocketServer
    const dispatcher: Dispatcher
    const bus: SseBus
    const service: JobService
    const sweeper: Sweeper
    var clock: Time

    ghost predicate Valid()
      reads this, store, sessions, server, dispatcher, service, sweeper
    {
      && server.sessions == sessions
      && dispatcher.store == store && dispatcher.sessions == sessions && dispatcher.sink == server
      && service.store == store && service.dispatcher == dispatcher && service.sessions == sessions && service.bus == bus
      && sweeper.store == store && sweeper.service == service && sweeper.sessions == sessions
      && dispatcher.running && sessions.Valid() && server.Valid()
      && Safe(W(), clock)
    }

    function W(): World
      reads store, dispatcher, server
    {
      World(store.rows, dispatcher.busy, server.R())
    }

    function Open(): set<SessionId>
      reads sessions
    {
      sessions.Open()
    }

    /** Boot over a persisted table: no session is attached yet, the dispatcher rebuilds its cache. */
    constructor (persisted: Rows, config: Config, now: Time)
      requires Sound(persisted, now) && UniqueRefs(persisted)
      ensures Valid() && clock == now && store.rows == persisted && Orderly(W(), Open())
      ensures |InFlightIds(persisted)| <= 500 ==>
                forall s :: s in dispatcher.busy <==> InFlightSerial(persisted, s) != {}
    {
      var store := new JobStore(persisted);
      var sessions := new SessionRegistry();
      var server := new SocketServer(sessions);
      var dispatcher := new Dispatcher(store, sessions, server);
      var bus := new SseBus();
      var service := new JobService(store, dispatcher, sessions, bus, config.defaults);
      var sweeper := new Sweeper(store, service, sessions, config.heartbeatTimeoutMs, config.orphanGraceMs, config.batchSize);
      this.store, this.sessions, this.server, this.dispatcher := store, sessions, server, dispatcher;
      this.bus, this.service, this.sweeper, clock := bus, service, sweeper, now;
      new;
      hide Sound, UniqueRefs, Safe, Orderly, InFlightSerial;
      SoundIsKeyed(persisted, now);
      dispatcher.Start();
      BootIsSafe(W(), now);
      BootIsOrderly(W());
    }

    // ---- HTTP ----

    method Submit(input: SubmitInput, id: JobId, now: Time)
      returns (r: Submission, ghost target: Option<SessionId>, ghost claims: seq<JobId>, ghost turns: seq<Turn>)
      requires Valid() && clock <= now && TtlOf(input, service.defaults) > 0
      modifies this, store, dispatcher`busy, server, bus
      ensures Valid() && clock == now && Keeps(old(W()), old(Open()), W(), Open(), now)
      ensures !WellFormed(input) ==> r == Refused(Validation)
      ensures WellFormed(input) ==> forall s :: service.Addressee(input, s) <==> target == Some(s)
      ensures WellFormed(input) ==>
                Answers(old(store.rows), input, id, target, now - service.defaults.clientRefWindowSec * 1000, r)
      ensures r.Queued? ==>
                WasQueued(old(W()), W(), old(bus.log), bus.log, r.row.session in Open(),
                          NewRow(input, id, r.row.session, service.defaults, now), r.row, claims, now)
      ensures r.Queued? ==> AsSubmitted(r.row, input, id, service.defaults, now) && StoredOrSent(store.rows, r.row, now)
      ensures !r.Queued? ==> W() == old(W()) && bus.log == old(bus.log)
      ensures r.Repeated? ==> r.row.id in store.rows && store.rows[r.row.id] == r.row && r.row.clientRef == input.clientRef
      ensures Traced(old(W()), Open(), W(), old(bus.log), bus.log, turns)
      ensures old(Orderly(W(), Open()) && SerialSync(store.rows, dispatcher.busy)) ==> SerialSync(store.rows, dispatcher.busy)
    {
      hide Safe, Orderly, Drained, OtherStep, SerialSync, Traced, Answers, AsSubmitted, StoredOrSent;
      ghost var w, log := W(), bus.log;
      SafeIsKeyed(w, clock);
      turns := [];
      r, target, claims := service.Submit(input, id, now);
      if r.Queued? {
        ghost var n := NewRow(input, id, r.row.session, service.defaults, now);
        SubmitKeeps(w, W(), log, bus.log, Open(), n, r.row, claims, clock, now);
        SubmissionIsTraced(w, W(), log, bus.log, Open(), n, r.row, claims, now);
        turns := [Turn(Queue(n, claims), Open(), now, W())];
      } else {
        QuietIsTraced(w, Open(), log);
        QuietKeeps(w, W(), Open(), Open(), clock, now);
      }
      clock := now;
    }

    /** DELETE /jobs/:id cancels, then tells the session's shim. */
    method Cancel(id: JobId, now: Time)
      returns (r: Result<Option<Job>, ServiceError>, ghost claims: seq<JobId>, ghost mid: World, ghost turns: seq<Turn>)
      requires Valid() && clock <= now
      modifies this, store, dispatcher`busy, server, bus
      ensures Valid() && clock == now && Keeps(old(W()), old(Open()), W(), Open(), now)
      ensures EndResult(old(store.rows), id, Cancelled, NO_PATCH, now, r)
      ensures EndOutcome(old(W()), mid, old(bus.log), bus.log, old(id in store.rows && store.rows[id].session in Open()),
                         id, Cancelled, NO_PATCH, claims, now)
      ensures Finished(old(store.rows), store.rows, old(bus.log), bus.log, id, Cancelled, None, None, now)
      ensures W() == if r.Ok? then Told(mid, r.value.value.session, CancelMsg(id)) else mid
      ensures r.Ok? ==> Delivered(mid.routes, server.R(), r.value.value.session, CancelMsg(id))
      ensures Traced(old(W()), Open(), W(), old(bus.log), bus.log, turns)
      ensures old(CanEnd(store.rows, id) && Orderly(W(), Open()) && SerialSync(store.rows, dispatcher.busy)) ==>
                (SerialSync(store.rows, dispatcher.busy) <==> old(InFlightSerial(store.rows, store.rows[id].session)) <= {id})
    {
      hide Safe, Orderly, EndOutcome, OtherStep, SerialSync, Wrote, Traced, Finished, Delivered;
      ghost var w, log := W(), bus.log;
      SafeIsKeyed(w, clock);
      r, claims := service.Cancel(id, now);
      mid := W();
      EndKeeps(w, mid, log, bus.log, Open(), id, Cancelled, NO_PATCH, claims, clock, now);
      EndingIsTraced(w, mid, log, bus.log, Open(), id, Cancelled, NO_PATCH, claims, now);
      turns := EndingTurns(w, mid, Open(), id, Cancelled, NO_PATCH, claims, now);
      if r.Ok? {
        Push(r.value.value.session, CancelMsg(id), now, w, Open());
        TracedThenRewired(w, mid, W(), Open(), log, bus.log, turns, now);
        turns := turns + [RewireTurn(W(), now)];
      }
      clock := now;
    }

    /** cancelJob and commentJob: best effort, to the session's connection if it has one. */
    method Push(s: SessionId, msg: BrokerMsg, now: Time, ghost w0: World, ghost open0: set<SessionId>)
      requires server.Valid() && Keeps(w0, open0, W(), Open(), now)
      modifies server
      ensures server.Valid() && Keeps(w0, open0, W(), Open(), now) && W() == Told(old(W()), s, msg)
      ensures Delivered(old(server.R()), server.R(), s, msg)
    {
      hide Orderly, OtherStep;
      ghost var w := W();
      var ok := server.Send(s, msg);
      if ok && Orderly(w, Open()) {
        PushStaysOrderly(w, s, msg, Open());
      }
    }

    method Comment(id: JobId, note: string, now: Time) returns (r: Result<Job, ServiceError>, ghost turns: seq<Turn>)
      requires Valid() && clock <= now
      modifies this, store, server, bus
      ensures Valid() && clock == now && Keeps(old(W()), old(Open()), W(), Open(), now)
      ensures NoteOutcome(old(store.rows), store.rows, id, Note(now, "[comment] " + note), false, now)
      ensures NoteResult(old(store.rows), store.rows, id, r)
      ensures bus.log == old(bus.log) + if r.Ok? then [Event(CommentedEvent, r.value)] else []
      ensures W().(rows := old(store.rows)) == if r.Ok? then Told(old(W()), r.value.session, CommentMsg(id, note)) else old(W())
      ensures r.Ok? ==> Delivered(old(server.R()), server.R(), r.value.session, CommentMsg(id, note))
      ensures r.Ok? ==> r.value == old(store.rows)[id].(notes := old(store.rows)[id].notes + [Note(now, "[comment] " + note)])
      ensures Traced(old(W()), Open(), W(), old(bus.log), bus.log, turns)
    {
      hide Safe, Orderly, OtherStep, NoteOutcome, Traced, Delivered;
      ghost var w, log := W(), bus.log;
      SafeIsKeyed(w, clock);
      r := service.AddComment(id, note, now);
      NoteKeeps(w, store.rows, id, Note(now, "[comment] " + note), false, clock, now, Open());
      NoteIsTraced(w, store.rows, id, Note(now, "[comment] " + note), false, CommentedEvent, Open(), log, bus.log, clock, now);
      turns := AmendTurns(w, store.rows, id, CommentedEvent, CanEnd(w.rows, id), now);
      if r.Ok? {
        ghost var mid := W();
        Push(r.value.session, CommentMsg(id, note), now, w, Open());
        TracedThenRewired(w, mid, W(), Open(), log, bus.log, turns, now);
        turns := turns + [RewireTurn(W(), now)];
      }
      clock := now;
    }

    /** DELETE /sessions/:id closes the gate but keeps the connection. */
    method DetachSession(s: SessionId, now: Time) returns (ok: bool, ghost turns: seq<Turn>)
      requires Valid() && clock <= now
      modifies this, sessions
      ensures Valid() && clock == now && Keeps(old(W()), old(Open()), W(), Open(), now)
      ensures ok == (s in old(Open())) && Open() == old(Open()) - {s}
      ensures Traced(old(W()), old(Open()), W(), old(bus.log), bus.log, turns)
    {
      hide Safe, Orderly, OtherStep, Traced;
      turns := [];
      QuietIsTraced(W(), Open(), bus.log);
      ghost var open := Open();
      ok := sessions.Detach(s);
      FewerOpen(W(), open, Open());
      QuietKeeps(W(), W(), open, Open(), clock, now);
      LaterIsSafe(W(), clock, now);
      clock := now;
    }

    // ---- The socket ----

    method Accept(now: Time) returns (c: ConnId, ghost turns: seq<Turn>)
      requires Valid() && clock <= now
      modifies this, server
      ensures Valid() && clock == now && Keeps(old(W()), old(Open()), W(), Open(), now)
      ensures c !in old(server.conns) && server.R() == Accepted(old(server.R()), c)
      ensures Traced(old(W()), Open(), W(), old(bus.log), bus.log, turns)
    {
      hide Safe, Orderly, OtherStep, Traced;
      ghost var w := W();
      c := server.HandleConnection();
      RewiringIsTraced(w, W(), Open(), bus.log, now);
      turns := [RewireTurn(W(), now)];
      if Orderly(w, Open()) {
        AcceptStaysOrderly(w, c, Open());
      }
      QuietKeeps(w, W(), Open(), Open(), clock, now);
      KeepsSafe(w, Open(), W(), Open(), now);
      clock := now;
    }

    method Data(c: ConnId, chunk: string, now: Time) returns (lines: seq<string>, ghost turns: seq<Turn>)
      requires Valid() && clock <= now && c in server.conns
      modifies this, server
      ensures Valid() && clock == now && Keeps(old(W()), old(Open()), W(), Open(), now)
      ensures c in server.conns && (lines, server.conns[c].buffer) == Framing.Feed(old(server.conns[c].buffer), [chunk])
      ensures Traced(old(W()), Open(), W(), old(bus.log), bus.log, turns)
    {
      hide Safe, Orderly, OtherStep, Traced;
      ghost var w := W();
      lines := server.OnData(c, chunk);
      RewiringIsTraced(w, W(), Open(), bus.log, now);
      turns := [RewireTurn(W(), now)];
      if Orderly(w, Open()) {
        SameTalk(w, c, server.conns[c], Open());
      }
      QuietKeeps(w, W(), Open(), Open(), clock, now);
      KeepsSafe(w, Open(), W(), Open(), now);
      clock := now;
    }

    /** 'end' and 'close' events of any connection, in any order and number. */
    method Close(c: ConnId, now: Time) returns (ghost turns: seq<Turn>)
      requires Valid() && clock <= now
      modifies this, server, sessions
      ensures Valid() && clock == now && Keeps(old(W()), old(Open()), W(), Open(), now)
      ensures server.R() == Closed(old(server.R()), c) && Open() == old(Open()) - old(OwnedBy(server.R(), c))
      ensures Traced(old(W()), old(Open()), W(), old(bus.log), bus.log, turns)
    {
      hide Safe, Orderly, OtherStep, Traced;
      ghost var w, open := W(), Open();
      server.OnClose(c);
      RewiringIsTraced(w, W(), open, bus.log, now);
      turns := [RewireTurn(W(), now)];
      if Orderly(w, open) {
        CloseStaysOrderly(w, c, open);
      }
      QuietKeeps(w, W(), open, Open(), clock, now);
      KeepsSafe(w, open, W(), Open(), now);
      clock := now;
    }

    method Reply(c: ConnId, msg: BrokerMsg, now: Time, ghost w0: World, ghost open0: set<SessionId>)
      requires server.Valid() && c in server.conns && !msg.Push() && Keeps(w0, open0, W(), Open(), now)
      modifies server
      ensures server.Valid() && server.R() == Wrote(old(server.R()), c, [msg]) && Keeps(w0, open0, W(), Open(), now)
    {
      hide Orderly, OtherStep;
      ghost var w := W();
      server.SendMessage(c, msg);
      if Orderly(w, Open()) {
        PlainWriteStaysOrderly(w, c, msg, Open());
      }
    }

    /** A handshake: bind, register, acknowledge, and then the drain the 'attached' event asked for.
        The routing stays a bijection exactly if the connection is live and not bound to another session. */
    method Attach(c: ConnId, s: SessionId, alias: Option<string>, pid: Option<int>, now: Time) returns (ghost claims: seq<JobId>)
      requires Valid() && clock <= now && c in server.conns
      modifies this, store, dispatcher`busy, server, sessions
      ensures Valid() && clock == now && Safe(W(), now) && OtherStep(old(store.rows), store.rows, now)
      ensures Open() == old(Open()) + {s}
      ensures Attached(old(W()), W(), c, s, claims, now)
      ensures sessions.sessions == Enrolled(old(sessions.sessions), s, alias, None, pid, c, now)
      ensures old(Orderly(W(), Open()) && MayHandshake(server.R(), c, s)) ==> Orderly(W(), Open())
      ensures old(Orderly(W(), Open()) && MayHandshake(server.R(), c, s) && SerialSync(store.rows, dispatcher.busy)) ==>
                SerialSync(store.rows, dispatcher.busy)
      ensures old(Bijective(server.R())) && !old(MayHandshake(server.R(), c, s)) ==> !Bijective(server.R())
    {
      hide Safe, Orderly, OtherStep, Drained, Bijective, MayHandshake, Enrolled;
      ghost var w, open := W(), Open();
      SafeIsKeyed(w, clock);
      server.AttachSession(c, s, alias, pid, now);
      ghost var w1 := W();
      claims := dispatcher.NotifySessionAttached(s, now);
      AttachKeeps(w, w1, W(), open, c, s, claims, clock, now);
      if Bijective(w.routes) {
        HandshakeKeepsBijectionExactly(w.routes, c, s);
        DrainKeepsBindings(w1, W(), true, s, claims, now);
      }
      clock := now;
    }

    method HandleRegister(c: ConnId, s: SessionId, alias: Option<string>, pid: Option<int>, now: Time) returns (ghost claims: seq<JobId>)
      requires Valid() && clock <= now && c in server.conns
      modifies this, store, dispatcher`busy, server, sessions
      ensures Valid() && clock == now && OtherStep(old(store.rows), store.rows, now)
      ensures old(Orderly(W(), Open())) && old(c in server.live) ==> Orderly(W(), Open())
      ensures old(server.conns[c].session.Some?) ==>
                W() == Answered(old(W()), c, ErrorMsg("already_registered"))
                && Open() == old(Open()) && sessions.sessions == old(sessions.sessions)
      ensures old(server.conns[c].session.None?) ==>
                Attached(old(W()), W(), c, s, claims, now)
                && Open() == old(Open()) + {s} && sessions.sessions == Enrolled(old(sessions.sessions), s, alias, None, pid, c, now)
    {
      hide Safe, Orderly, OtherStep, Attached, Wrote, Enrolled;
      claims := [];
      if server.conns[c].session.Some? {
        Reject(c, "already_registered", now);
      } else {
        claims := Attach(c, s, alias, pid, now);
      }
    }

    /** Any message that is only answered. */
    method Reject(c: ConnId, code: string, now: Time)
      requires Valid() && clock <= now && c in server.conns
      modifies this, server
      ensures Valid() && clock == now && Keeps(old(W()), old(Open()), W(), Open(), now)
      ensures W() == Answered(old(W()), c, ErrorMsg(code))
    {
      hide Safe, Orderly, OtherStep;
      ghost var w := W();
      QuietKeeps(w, w, Open(), Open(), clock, now);
      Reply(c, ErrorMsg(code), now, w, Open());
      KeepsSafe(w, Open(), W(), Open(), now);
      clock := now;
    }

    /** A message of another protocol version is refused and its socket ended. */
    method RejectVersion(c: ConnId, now: Time)
      requires Valid() && clock <= now && c in server.conns
      modifies this, server
      ensures Valid() && clock == now && Keeps(old(W()), old(Open()), W(), Open(), now)
      ensures W() == Hung(Answered(old(W()), c, ErrorMsg("version_mismatch")), c)
    {
      hide Safe, Orderly, OtherStep;
      ghost var w := W();
      QuietKeeps(w, w, Open(), Open(), clock, now);
      Reply(c, ErrorMsg("version_mismatch"), now, w, Open());
      ghost var w1 := W();
      KeepsSafe(w, Open(), w1, Open(), now);
      server.EndSocket(c);
      if Orderly(w1, Open()) {
        SameTalk(w1, c, server.conns[c], Open());
      }
      QuietKeeps(w1, W(), Open(), Open(), now, now);
      clock := now;
    }

    method HandleHeartbeat(c: ConnId, now: Time)
      requires Valid() && clock <= now && c in server.conns
      modifies this, sessions
      ensures Valid() && clock == now && Keeps(old(W()), old(Open()), W(), Open(), now)
      ensures Open() == old(Open())
      ensures sessions.sessions == HeardFrom(old(sessions.sessions), server.conns[c].session, now)
    {
      hide Safe, Orderly, OtherStep;
      ghost var w, open := W(), Open();
      if server.conns[c].session.Some? {
        var known := sessions.Heartbeat(server.conns[c].session.value, now);
      }
      QuietKeeps(w, W(), open, Open(), clock, now);
      KeepsSafe(w, open, W(), Open(), now);
      clock := now;
    }

    /** complete_job and fail_job. */
    method EndJob(id: JobId, to: Status, detail: Patch, now: Time) returns (ok: bool, ghost claims: seq<JobId>)
      requires Valid() && clock <= now
      requires if to == Completed then detail == Patch(detail.result, None, None) else to == Failed && detail == Patch(None, detail.error, None)
      modifies this, store, dispatcher`busy, server, bus
      ensures Valid() && clock == now && Keeps(old(W()), old(Open()), W(), Open(), now)
      ensures EndOutcome(old(W()), W(), old(bus.log), bus.log, old(id in store.rows && store.rows[id].session in Open()),
                         id, to, detail, claims, now)
      ensures ok <==> CanEnd(old(store.rows), id)
      ensures Finished(old(store.rows), store.rows, old(bus.log), bus.log, id, to, detail.result, detail.error, now)
    {
      hide Safe, Orderly, OtherStep, EndOutcome, SerialSync, Finished;
      ghost var w, log := W(), bus.log;
      SafeIsKeyed(w, clock);
      var r;
      if to == Failed {
        r, claims := service.Fail(id, detail.error, now);
      } else {
        r, claims := service.Complete(id, detail.result, now);
      }
      ok := r.Ok?;
      EndKeeps(w, W(), log, bus.log, Open(), id, to, detail, claims, clock, now);
      KeepsSafe(w, Open(), W(), Open(), now);
      clock := now;
    }

    /** note_progress. */
    method NoteJob(id: JobId, text: string, now: Time) returns (ok: bool)
      requires Valid() && clock <= now
      modifies this, store, bus
      ensures Valid() && clock == now && Keeps(old(W()), old(Open()), W(), Open(), now)
      ensures NoteOutcome(old(store.rows), store.rows, id, Note(now, text), true, now)
      ensures (ok <==> CanEnd(old(store.rows), id)) && (ok ==> id in store.rows)
      ensures bus.log == old(bus.log) + if ok then [Event(ProgressEvent, store.rows[id])] else []
    {
      hide Safe, Orderly, OtherStep, NoteOutcome;
      ghost var w := W();
      SafeIsKeyed(w, clock);
      var r := service.NoteProgress(id, text, now);
      ok := r.Ok?;
      NoteKeeps(w, store.rows, id, Note(now, text), true, clock, now, Open());
      KeepsSafe(w, Open(), W(), Open(), now);
      clock := now;
    }

    /** ack_job. */
    method Acknowledge(id: JobId, now: Time) returns (ok: bool)
      requires Valid() && clock <= now
      modifies this, store, bus
      ensures Valid() && clock == now && Keeps(old(W()), old(Open()), W(), Open(), now)
      ensures ok <==> id in old(store.rows)
      ensures AckOutcome(old(store.rows), store.rows, old(bus.log), bus.log, id, now)
    {
      hide Safe, Orderly, OtherStep;
      ghost var w := W();
      SafeIsKeyed(w, clock);
      var r := service.Ack(id, now);
      ok := r.Ok?;
      AckKeeps(w, store.rows, id, clock, now, Open());
      KeepsSafe(w, Open(), W(), Open(), now);
      clock := now;
    }

    /** dispatchTool: the result is an error text, if any. */
    method RunTool(tool: Tool, now: Time) returns (error: Option<string>, ghost claims: seq<JobId>)
      requires Valid() && clock <= now
      modifies this, store, dispatcher`busy, server, bus
      ensures Valid() && clock == now && Keeps(old(W()), old(Open()), W(), Open(), now)
      ensures ToolOutcome(old(W()), W(), old(bus.log), bus.log, Open(), tool, error, claims, now)
    {
      hide Safe, Orderly, OtherStep, NoteOutcome, EndOutcome, AckOutcome, Keyed;
      var ok := false;
      claims := [];
      match tool {
        case CompleteJob(job, result) => ok, claims := EndJob(job, Completed, Patch(result, None, None), now);
        case FailJob(job, text) => ok, claims := EndJob(job, Failed, Patch(None, text, None), now);
        case NoteProgress(job, text) => ok := NoteJob(job, text, now);
        case AckJob(job) => ok := Acknowledge(job, now);
        case NoTool =>
          QuietKeeps(W(), W(), Open(), Open(), clock, now);
          LaterIsSafe(W(), clock, now);
          clock := now;
      }
      error := if ok then None else Some("tool call refused");
    }

    /** The call runs against the table as it is when its session is known, and is answered either way. */
    method HandleToolCall(c: ConnId, call: string, tool: Tool, now: Time)
      returns (error: Option<string>, ghost mid: World, ghost claims: seq<JobId>)
      requires Valid() && clock <= now && c in server.conns
      modifies this, store, dispatcher`busy, server, bus
      ensures Valid() && clock == now && Keeps(old(W()), old(Open()), W(), Open(), now)
      ensures CallOutcome(old(W()), mid, W(), old(bus.log), bus.log, Open(), c, call, tool, error, claims, now)
    {
      hide Safe, Orderly, OtherStep, ToolOutcome;
      ghost var w, log := W(), bus.log;
      claims := [];
      if server.conns[c].session.None? {
        QuietKeeps(w, w, Open(), Open(), clock, now);
        error := Some("not_registered");
      } else {
        error, claims := RunTool(tool, now);
        ToolKeepsConns(w, W(), log, bus.log, Open(), tool, error, claims, now);
      }
      mid := W();
      Reply(c, ToolResultMsg(call, error), now, w, Open());
      KeepsSafe(w, Open(), W(), Open(), now);
      clock := now;
    }

    /** handleLine: only handshakes need the one-handshake discipline, everything else keeps order as it is. */
    method HandleMessage(c: ConnId, msg: ShimMsg, now: Time)
      returns (ghost mid: World, ghost error: Option<string>, ghost claims: seq<JobId>, ghost turns: seq<Turn>)
      requires Valid() && clock <= now && c in server.conns
      modifies this, store, dispatcher`busy, server, sessions, bus
      ensures Valid() && clock == now && OtherStep(old(store.rows), store.rows, now)
      ensures MessageOutcome(old(W()), mid, W(), old(bus.log), bus.log, old(Open()), Open(), c, msg, error, claims, now)
      ensures sessions.sessions == HandlesAfter(old(sessions.sessions), old(server.R()), c, msg, now)
      ensures Acted(old(W()), W(), old(bus.log), bus.log, turns)
      ensures old(Orderly(W(), Open())) && old(OneHandshake(server.R(), c, msg)) ==> Orderly(W(), Open()) && Routed(old(W()), turns)
    {
      ghost var before := clock;
      mid, error, claims := Receive(c, msg, now);
      hide Safe, Orderly, OtherStep, MessageOutcome, Acted, Routed, OneHandshake, HandlesAfter;
      MessageIsTraced(old(W()), mid, W(), old(bus.log), bus.log, old(Open()), Open(), c, msg, error, claims, before, now);
      turns := MessageTurns(old(W()), mid, W(), Open(), c, msg, claims, now);
    }

    /** The switch on the message type. */
    method Receive(c: ConnId, msg: ShimMsg, now: Time)
      returns (ghost mid: World, ghost error: Option<string>, ghost claims: seq<JobId>)
      requires Valid() && clock <= now && c in server.conns
      modifies this, store, dispatcher`busy, server, sessions, bus
      ensures Valid() && clock == now && OtherStep(old(store.rows), store.rows, now)
      ensures MessageOutcome(old(W()), mid, W(), old(bus.log), bus.log, old(Open()), Open(), c, msg, error, claims, now)
      ensures sessions.sessions == HandlesAfter(old(sessions.sessions), old(server.R()), c, msg, now)
      ensures old(Orderly(W(), Open())) && old(OneHandshake(server.R(), c, msg)) ==> Orderly(W(), Open())
    {
      hide Safe, Orderly, OtherStep, Attached, CallOutcome, Wrote, Handshake, Enrolled;
      mid, error, claims := W(), None, [];
      match msg
      case InvalidJson => Reject(c, "invalid_json", now);
      case Untyped => Reject(c, "invalid_message", now);
      case BadVersion => RejectVersion(c, now);
      case UnknownType => Reject(c, "unknown_message", now);
      case Register(s, alias, pid) => claims := HandleRegister(c, s, alias, pid, now);
      case Reconnect(s) => claims := Attach(c, s, None, None, now);
      case Heartbeat => HandleHeartbeat(c, now);
      case ToolCall(call, tool) => error, mid, claims := HandleToolCall(c, call, tool, now);
    }

    // ---- The clock ----

    method Sweep(now: Time) returns (ghost expired: seq<Job>, ghost mid: Rows, ghost orphaned: set<JobId>, ghost turns: seq<Turn>)
      requires Valid() && clock <= now
      modifies this, store, dispatcher`busy, server, sessions, bus
      ensures Valid() && clock == now && Open() <= old(Open())
      ensures SilentEvicted(old(sessions.sessions), sessions.sessions, sweeper.heartbeatTimeoutMs, now)
      ensures SweptTable(old(store.rows), mid, store.rows, expired, orphaned, Open(), sweeper.batchSize, sweeper.orphanGraceMs, now)
      ensures SweepStep(old(store.rows), store.rows, now, sweeper.batchSize)
      ensures SweepRun(old(W()), W(), old(bus.log), bus.log, turns, expired, orphaned, Open(), now)
      ensures old(Orderly(W(), Open())) ==> Orderly(W(), Open()) && Routed(old(W()), turns)
      ensures old(OneEach(store.rows)) ==> (AlwaysOneEach(old(W()), turns) <==> NeverCrowds(old(W()), turns))
      ensures old(Orderly(W(), Open()) && SerialSync(store.rows, dispatcher.busy)) ==>
                (AlwaysInSync(old(W()), turns) <==> EndsAlone(old(W()), turns))
    {
      hide Safe, Orderly, SweptTable, SweepStep, SweepRun, Routed, OneEach, SerialSync, AlwaysOneEach, NeverCrowds, AlwaysInSync, EndsAlone;
      ghost var w, open, rows, log := W(), Open(), store.rows, bus.log;
      SafeIsKeyed(W(), clock);
      expired, mid, orphaned, turns := sweeper.Tick(now, clock);
      if Orderly(w, open) {
        OrderlyIsRouted(w, open, Open());
        SweepStaysRouted(w, W(), log, bus.log, turns, expired, orphaned, Open(), now);
      }
      SweepIsRun(w, W(), log, bus.log, turns, expired, orphaned, Open(), now);
      if OneEach(w.rows) {
        OneEachExactlyWhenNeverCrowded(w, turns);
      }
      if Orderly(w, open) && SerialSync(w.rows, w.busy) {
        InSyncExactlyWhenEndingAlone(w, turns);
      }
      SweepShrinksDue(rows, mid, store.rows, expired, orphaned, Open(), sweeper.batchSize, sweeper.orphanGraceMs, now);
      clock := now;
    }
  }

  lemma SoundIsKeyed(rows: Rows, now: Time)
    requires Sound(rows, now)
    ensures Keyed(rows)
  {
  }

  lemma BootIsSafe(w: World, now: Time)
    requires Sound(w.rows, now) && UniqueRefs(w.rows) && forall s :: s in w.busy ==> InFlightSerial(w.rows, s) != {}
    ensures Safe(w, now)
  {
  }

  lemma BootIsOrderly(w: World)
    requires w.routes == Routes(map[], {}, map[])
    ensures Orderly(w, {})
  {
  }

  lemma SafeIsKeyed(w: World, now: Time)
    requires Safe(w, now)
    ensures Keyed(w.rows)
  {
  }

  lemma KeepsSafe(w0: World, open0: set<SessionId>, w1: World, open1: set<SessionId>, now: Time)
    requires Keeps(w0, open0, w1, open1, now)
    ensures Safe(w1, now) && OtherStep(w0.rows, w1.rows, now) && (Orderly(w0, open0) ==> Orderly(w1, open1))
  {
  }

  lemma NoteKeeps(w: World, r1: Rows, id: JobId, note: Note, bump: bool, before: Time, now: Time, open: set<SessionId>)
    requires Safe(w, before) && before <= now && NoteOutcome(w.rows, r1, id, note, bump, now)
    ensures Keeps(w, open, w.(rows := r1), open, now)
  {
    hide Safe, Orderly, NoteOutcome, Evolves, SerialSync;
    NoteIsQuiet(w, r1, id, note, bump, before, now, open);
  }

  lemma AckKeeps(w: World, r1: Rows, id: JobId, before: Time, now: Time, open: set<SessionId>)
    requires Safe(w, before) && before <= now
    requires if id in w.rows && w.rows[id].status == Dispatched
             then r1 == w.rows[id := Transitioned(w.rows[id], InProgress, NO_PATCH, now)] else r1 == w.rows
    ensures Keeps(w, open, w.(rows := r1), open, now)
  {
    if id in w.rows && w.rows[id].status == Dispatched {
      TransitionKeepsFaith(w.rows[id], InProgress, NO_PATCH, before, now);
      hide Safe, Orderly, Evolves, SerialSync;
      QuietUpdate(w, id, r1[id], before, now, open);
    } else {
      QuietKeeps(w, w, open, open, before, now);
    }
  }

  lemma DrainKeepsBindings(w0: World, w1: World, open: bool, s: SessionId, claims: seq<JobId>, now: Time)
    requires Drained(w0, w1, open, s, claims, now)
    ensures Bijective(w1.routes) <==> Bijective(w0.routes)
  {
    hide WellChosen, Settled;
  }
}
