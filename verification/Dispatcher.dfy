/** The in-process dispatcher: a cached busy mark per session and a drain loop (inproc.ts). */
module Dispatcher {
  import opened Types
  import opened JobRow
  import opened JobStore
  import opened DrainRules
  import opened DrainOutcome
  import opened SessionRegistry
  import opened Routing
  import opened SocketServer

  function InFlightIds(rows: Rows): set<JobId> {
    set id | id in rows && rows[id].status.InFlight()
  }

  class Dispatcher {
    const store: JobStore
    const sessions: SessionRegistry
    const sink: SocketServer
    var busy: set<SessionId>
    var running: bool

    constructor (store: JobStore, sessions: SessionRegistry, sink: SocketServer)
      ensures this.store == store && this.sessions == sessions && this.sink == sink
      ensures busy == {} && !running
    {
      this.store, this.sessions, this.sink := store, sessions, sink;
      busy, running := {}, false;
    }

    function W(): World
      reads this, store, sink
    {
      World(store.rows, busy, sink.R())
    }

    /** Whether a drain of `s` may send. */
    function Gate(s: SessionId): bool
      reads this, sessions
    {
      running && sessions.IsAttached(s)
    }

    /** Rebuild the busy marks from the newest 500 jobs in flight: never a phantom block, and every
        serial job in flight is seen when there are no more than 500. */
    method Start()
      requires Keyed(store.rows)
      modifies this
      ensures running && old(busy) <= busy
      ensures forall s :: s in busy && s !in old(busy) ==> InFlightSerial(store.rows, s) != {}
      ensures |InFlightIds(store.rows)| <= 500 ==>
                forall s :: InFlightSerial(store.rows, s) != {} ==> s in busy
    {
      running := true;
      var inflight := store.ListInFlight(500);
      for i := 0 to |inflight|
        invariant old(busy) <= busy && running
        invariant forall s :: s in busy && s !in old(busy) ==> InFlightSerial(store.rows, s) != {}
        invariant forall k :: 0 <= k < i && inflight[k].mode == Serial ==> inflight[k].session in busy
      {
        var job := inflight[i];
        if job.mode == Serial {
          assert job.id in InFlightSerial(store.rows, job.session);
          busy := busy + {job.session};
        }
      }
      if |InFlightIds(store.rows)| <= LIST_CAP {
        ShortListIsComplete(store.rows, inflight, LIST_CAP);
        forall s | InFlightSerial(store.rows, s) != {} ensures s in busy {
          var id :| id in InFlightSerial(store.rows, s);
          assert store.rows[id] in inflight;
        }
      }
    }

    method Stop()
      modifies this
      ensures !running && busy == {}
    {
      running, busy := false, {};
    }

    /** The first job of the page that may go out: nothing serial while the session is busy. */
    method Pick(s: SessionId, pending: seq<Job>) returns (toSend: Option<Job>)
      requires Keyed(store.rows) && IsPage(pending, store.rows, PendingOf(s), WINDOW)
      ensures toSend.Some? ==> Choosable(store.rows, s in busy, s, toSend.value.id)
      ensures toSend.Some? ==> toSend.value.id in store.rows && toSend.value == store.rows[toSend.value.id]
      ensures toSend.None? ==> Settled(store.rows, s in busy, s)
    {
      for i := 0 to |pending|
        invariant forall k :: 0 <= k < i ==> pending[k].mode == Serial
        invariant i > 0 ==> s in busy
      {
        var job := pending[i];
        if job.mode == FireAndForget || s !in busy {
          PickIsChoosable(store.rows, s in busy, s, pending, i);
          return Some(job);
        }
      }
      NoPickSettles(store.rows, s in busy, s, pending);
      return None;
    }

    /** The second half of a drain's iteration: claim the chosen job, mark the session, send. */
    method ClaimAndSend(s: SessionId, job: Job, now: Time, ghost w: World, ghost claims: seq<JobId>) returns (sent: bool)
      requires Keyed(store.rows) && sink.Valid() && SoFar(w, W(), s, claims, now)
      requires Choosable(store.rows, s in busy, s, job.id) && store.rows[job.id] == job
      modifies this`busy, store, sink
      ensures Keyed(store.rows) && sink.Valid()
      ensures sent <==> RouteOf(w.routes, s).Some?
      ensures store.rows.Keys == old(store.rows.Keys) && job.id in store.rows
      ensures MovesTo(job, store.rows[job.id], Dispatched, job.result, job.error, job.notes, now)
      ensures sent ==> SentExactly(old(store.rows), old(sink.R()), sink.R(), s, [job.id])
      ensures sent ==> SoFar(w, W(), s, claims + [job.id], now)
      ensures !sent ==> Drained(w, W(), true, s, claims + [job.id], now)
      ensures |PendingSet(store.rows, s)| < old(|PendingSet(store.rows, s)|)
    {
      hide SoFar, Drained, Choosable, Transitioned, MovesTo, SentExactly, HandsOver;
      NextClaim(w, W(), s, claims, job.id, now);
      // One drain runs to completion here, so this compare-and-set cannot lose.
      var claimed := store.TransitionStatus(job.id, Pending, Dispatched, NO_PATCH, now);
      ClaimedIsJob(job, claimed.value, now);
      if claimed.value.mode == Serial {
        busy := busy + {s};
      }
      var message := DispatchMsg(claimed.value.id, claimed.value.content, claimed.value.meta["job_id" := claimed.value.id.text]);
      ghost var r := sink.R();
      sent := sink.Send(s, message);
      if sent {
        OneSent(old(store.rows), job, r, RouteOf(r, s).value, s, message);
      }
      if !sent && claimed.value.mode == Serial {
        busy := busy - {s};
      }
    }

    /** drainOnce: claim and send until the session is settled or a send throws. */
    method DrainOnce(s: SessionId, now: Time) returns (ghost claims: seq<JobId>)
      requires Keyed(store.rows) && sink.Valid()
      modifies this`busy, store, sink
      ensures Keyed(store.rows) && sink.Valid()
      ensures Drained(old(W()), W(), Gate(s), s, claims, now)
      ensures ServedExactly(old(W()), W(), s, claims, now)
      ensures !(running && s in sessions.sessions && sessions.sessions[s].attached) ==> claims == []
    {
      claims := DrainLoop(s, now);
      hide Drained, ServedExactly;
      DrainServesExactly(old(W()), W(), Gate(s), s, claims, now);
    }

    method DrainLoop(s: SessionId, now: Time) returns (ghost claims: seq<JobId>)
      requires Keyed(store.rows) && sink.Valid()
      modifies this`busy, store, sink
      ensures Keyed(store.rows) && sink.Valid()
      ensures Drained(old(W()), W(), Gate(s), s, claims, now)
      ensures !(running && s in sessions.sessions && sessions.sessions[s].attached) ==> claims == []
    {
      claims := [];
      ghost var w := W();
      NothingDrained(w, s, now);
      if !sessions.IsAttached(s) {
        return;
      }
      while running
        invariant Keyed(store.rows) && sink.Valid()
        invariant SoFar(w, W(), s, claims, now)
        invariant !running ==> claims == []
        decreases |PendingSet(store.rows, s)|
      {
        var pending := store.FindPending(s, 16);
        var toSend := Pick(s, pending);
        if toSend.None? {
          return;
        }
        var sent := ClaimAndSend(s, toSend.value, now, w, claims);
        claims := claims + [toSend.value.id];
        if !sent {
          return;
        }
      }
    }

    method NotifyPending(s: SessionId, now: Time) returns (ghost claims: seq<JobId>)
      requires Keyed(store.rows) && sink.Valid()
      modifies this`busy, store, sink
      ensures Keyed(store.rows) && sink.Valid()
      ensures Drained(old(W()), W(), Gate(s), s, claims, now)
    {
      claims := DrainIfRunning(s, now);
    }

    method NotifySessionAttached(s: SessionId, now: Time) returns (ghost claims: seq<JobId>)
      requires Keyed(store.rows) && sink.Valid()
      modifies this`busy, store, sink
      ensures Keyed(store.rows) && sink.Valid()
      ensures Drained(old(W()), W(), Gate(s), s, claims, now)
    {
      claims := DrainIfRunning(s, now);
    }

    /** The busy mark of the session goes, whichever job was done. */
    method NotifyDone(s: SessionId, now: Time) returns (ghost claims: seq<JobId>)
      requires Keyed(store.rows) && sink.Valid()
      modifies this`busy, store, sink
      ensures Keyed(store.rows) && sink.Valid()
      ensures Drained(old(W()).(busy := old(busy) - {s}), W(), Gate(s), s, claims, now)
    {
      busy := busy - {s};
      claims := DrainIfRunning(s, now);
    }

    method DrainIfRunning(s: SessionId, now: Time) returns (ghost claims: seq<JobId>)
      requires Keyed(store.rows) && sink.Valid()
      modifies this`busy, store, sink
      ensures Keyed(store.rows) && sink.Valid()
      ensures Drained(old(W()), W(), Gate(s), s, claims, now)
    {
      if running {
        claims := DrainOnce(s, now);
      } else {
        claims := [];
        NothingDrained(W(), s, now);
      }
    }
  }

  lemma ClaimedIsJob(job: Job, claimed: Job, now: Time)
    requires MovesTo(job, claimed, Dispatched, job.result, job.error, job.notes, now)
    ensures claimed.id == job.id && claimed.mode == job.mode && MessageFor(claimed) == MessageFor(job)
    ensures MessageFor(claimed) == DispatchMsg(claimed.id, claimed.content, claimed.meta["job_id" := claimed.id.text])
    ensures HandsOver(MessageFor(claimed), job)
  {
  }

  lemma OneSent(rows: Rows, job: Job, r: Routes, c: ConnId, s: SessionId, m: BrokerMsg)
    requires job.id in rows && rows[job.id] == job && HandsOver(m, job) && RouteOf(r, s) == Some(c)
    ensures SentExactly(rows, r, Wrote(r, c, [m]), s, [job.id])
  {
  }

  lemma NothingDrained(w: World, s: SessionId, now: Time)
    ensures Drained(w, w, false, s, [], now)
  {
    assert ClaimAll(w.rows, [], now) == w.rows;
    if RouteOf(w.routes, s).Some? {
      WroteNothing(w.routes, RouteOf(w.routes, s).value);
    }
  }

  /** A list that was not cut short holds every job in flight. */
  lemma ShortListIsComplete(rows: Rows, page: seq<Job>, limit: nat)
    requires IsPage(page, rows, InFlightJobs, limit) && |InFlightIds(rows)| <= limit
    ensures forall id :: id in rows && rows[id].status.InFlight() ==> rows[id] in page
  {
    forall id | id in rows && rows[id].status.InFlight() ensures rows[id] in page {
      assert Matches(InFlightJobs, rows[id]);
      if rows[id] !in page {
        DistinctIds(page);
        assert Ids(page) <= InFlightIds(rows) - {id};
        SubsetSize(Ids(page), InFlightIds(rows) - {id});
      }
    }
  }

  /** The loop invariant of a drain: every claim so far was sent. */
  ghost predicate SoFar(w0: World, w: World, s: SessionId, claims: seq<JobId>, now: Time) {
    && WellChosen(w0.rows, s in w0.busy, s, claims, now)
    && (forall i :: 0 <= i < |claims| ==> claims[i] in w0.rows)
    && w.rows == ClaimAll(w0.rows, claims, now)
    && w.busy == BusyAfter(w0.rows, w0.busy, s, claims)
    && match RouteOf(w0.routes, s)
       case Some(c) => w.routes == Wrote(w0.routes, c, Messages(w0.rows, claims))
       case None => w.routes == w0.routes && claims == []
  }

  /** One more claim: with a route it is sent and the drain goes on, without one the drain is over. */
  lemma NextClaim(w0: World, w: World, s: SessionId, claims: seq<JobId>, id: JobId, now: Time)
    requires SoFar(w0, w, s, claims, now) && Choosable(w.rows, s in w.busy, s, id)
    ensures id in w.rows && w.rows[id].status == Pending && (w.rows[id].mode == Serial ==> s !in w.busy)
    ensures var rows' := w.rows[id := Transitioned(w.rows[id], Dispatched, NO_PATCH, now)];
            && |PendingSet(rows', s)| < |PendingSet(w.rows, s)|
            && match RouteOf(w0.routes, s)
               case Some(c) =>
                 && RouteOf(w.routes, s) == Some(c)
                 && SoFar(w0, World(rows', if w.rows[id].mode == Serial then w.busy + {s} else w.busy,
                                    Wrote(w.routes, c, [MessageFor(w.rows[id])])), s, claims + [id], now)
               case None => Drained(w0, World(rows', w.busy, w.routes), true, s, claims + [id], now)
  {
    var rows' := w.rows[id := Transitioned(w.rows[id], Dispatched, NO_PATCH, now)];
    ChooseOneMore(w0.rows, s in w0.busy, s, claims, id, now);
    ClaimOneMore(w0.rows, claims, id, now);
    assert PendingSet(rows', s) == PendingSet(w.rows, s) - {id};
    match RouteOf(w0.routes, s)
    case Some(c) =>
      var ms := Messages(w0.rows, claims);
      assert Messages(w0.rows, claims + [id]) == ms + [MessageFor(w0.rows[id])];
      WroteTwice(w0.routes, c, ms, [MessageFor(w0.rows[id])]);
    case None =>
  }
}
