/** The combined effect of a drain, and of ending a job, on table, cache and sockets. */
module DrainOutcome {
  import opened Types
  import opened JobRow
  import opened JobStore
  import opened DrainRules
  import opened Routing

  // What a drain reads and writes.
  datatype World = World(rows: Rows, busy: set<SessionId>, routes: Routes)

  function MessageFor(j: Job): BrokerMsg {
    DispatchMsg(j.id, j.content, j.meta["job_id" := j.id.text])
  }

  function Messages(rows: Rows, claims: seq<JobId>): (m: seq<BrokerMsg>)
    requires forall i :: 0 <= i < |claims| ==> claims[i] in rows
    ensures |m| == |claims|
  {
    seq(|claims|, i requires 0 <= i < |claims| => MessageFor(rows[claims[i]]))
  }

  /** `w1` may follow `w0` by draining session `s`, claiming `claims` in that order; `open` says
      that the dispatcher runs and the session's gate is open. A routed drain sends each claim and
      runs on until the session is settled; without a route the first send throws and ends it. */
  ghost predicate Drained(w0: World, w1: World, open: bool, s: SessionId, claims: seq<JobId>, now: Time) {
    && WellChosen(w0.rows, s in w0.busy, s, claims, now)
    && (forall i :: 0 <= i < |claims| ==> claims[i] in w0.rows)
    && w1.rows == ClaimAll(w0.rows, claims, now)
    && (!open ==> claims == [])
    && match RouteOf(w0.routes, s)
       case Some(c) =>
         && w1.busy == BusyAfter(w0.rows, w0.busy, s, claims)
         && w1.routes == Wrote(w0.routes, c, Messages(w0.rows, claims))
         && (open ==> Settled(w1.rows, s in w1.busy, s))
       case None =>
         && w1.busy == w0.busy && w1.routes == w0.routes && |claims| <= 1
         && (open && claims == [] ==> Settled(w1.rows, s in w1.busy, s))
  }

  // ---- What a drain does, column by column ----

  /** The message that hands job `row` to its shim: its content, and its metadata with the job's id added. */
  predicate HandsOver(m: BrokerMsg, row: Job) {
    && m.DispatchMsg? && m.job == row.id && m.content == row.content
    && m.meta.Keys == row.meta.Keys + {"job_id"} && m.meta["job_id"] == row.id.text
    && forall key :: key in row.meta && key != "job_id" ==> m.meta[key] == row.meta[key]
  }

  /** Exactly the claimed jobs were dispatched, at `now`, and no other row changed. */
  ghost predicate ClaimedExactly(r0: Rows, r1: Rows, claims: seq<JobId>, now: Time) {
    r1.Keys == r0.Keys && forall id :: id in r0 ==>
      if id in claims then MovesTo(r0[id], r1[id], Dispatched, r0[id].result, r0[id].error, r0[id].notes, now) else r1[id] == r0[id]
  }

  /** One message for each claim was appended to the output of the session's live connection, in claim
      order, and nothing else was written; without such a connection nothing was. */
  ghost predicate SentExactly(rows: Rows, r0: Routes, r1: Routes, s: SessionId, claims: seq<JobId>) {
    if s in r0.sessionConn && r0.sessionConn[s] in r0.live && r0.sessionConn[s] in r0.conns then
      var c := r0.sessionConn[s];
      && c in r1.conns && r1 == r0.(conns := r0.conns[c := r0.conns[c].(out := r1.conns[c].out)])
      && |r1.conns[c].out| == |r0.conns[c].out| + |claims| && r1.conns[c].out[..|r0.conns[c].out|] == r0.conns[c].out
      && forall i :: 0 <= i < |claims| ==> claims[i] in rows && HandsOver(r1.conns[c].out[|r0.conns[c].out| + i], rows[claims[i]])
    else r1 == r0
  }

  /** Whether the session is marked when the drain makes its claim number `i`. */
  predicate MarkedAt(rows: Rows, busy: bool, claims: seq<JobId>, i: nat)
    requires i < |claims|
  {
    busy || exists m :: 0 <= m < i && claims[m] in rows && rows[claims[m]].mode == Serial
  }

  /** Claim number `i` comes before every waiting job it had to compete with: all of them while the session
      is unmarked, the fire-and-forget ones otherwise. */
  ghost predicate FirstInLine(rows: Rows, busy: bool, s: SessionId, claims: seq<JobId>, i: nat)
    requires i < |claims|
  {
    && Waiting(rows, s, claims[i]) && (MarkedAt(rows, busy, claims, i) ==> rows[claims[i]].mode == FireAndForget)
    && forall k :: Waiting(rows, s, k) && k !in claims[..i] && (MarkedAt(rows, busy, claims, i) ==> rows[k].mode == FireAndForget) ==>
         ComesFirst(rows[claims[i]], rows[k])
  }

  /** All of the above. */
  ghost predicate ServedExactly(w0: World, w1: World, s: SessionId, claims: seq<JobId>, now: Time) {
    && ClaimedExactly(w0.rows, w1.rows, claims, now)
    && SentExactly(w0.rows, w0.routes, w1.routes, s, claims)
    && forall i :: 0 <= i < |claims| ==> FirstInLine(w0.rows, s in w0.busy, s, claims, i)
  }

  lemma DrainServesExactly(w0: World, w1: World, open: bool, s: SessionId, claims: seq<JobId>, now: Time)
    requires Drained(w0, w1, open, s, claims, now) && Keyed(w0.rows)
    ensures ServedExactly(w0, w1, s, claims, now)
  {
    hide Drained, Keyed, ClaimedExactly, SentExactly, FirstInLine;
    DrainClaimsExactly(w0, w1, open, s, claims, now);
    DrainSendsExactly(w0, w1, open, s, claims, now);
    forall i | 0 <= i < |claims| ensures FirstInLine(w0.rows, s in w0.busy, s, claims, i) {
      DrainServesInOrder(w0, w1, open, s, claims, now, i);
    }
  }

  lemma DrainClaimsExactly(w0: World, w1: World, open: bool, s: SessionId, claims: seq<JobId>, now: Time)
    requires Drained(w0, w1, open, s, claims, now)
    ensures ClaimedExactly(w0.rows, w1.rows, claims, now)
  {
  }

  lemma DrainSendsExactly(w0: World, w1: World, open: bool, s: SessionId, claims: seq<JobId>, now: Time)
    requires Drained(w0, w1, open, s, claims, now) && Keyed(w0.rows)
    ensures SentExactly(w0.rows, w0.routes, w1.routes, s, claims)
  {
    hide WellChosen, Settled;
  }

  lemma DrainServesInOrder(w0: World, w1: World, open: bool, s: SessionId, claims: seq<JobId>, now: Time, i: nat)
    requires Drained(w0, w1, open, s, claims, now) && i < |claims|
    ensures FirstInLine(w0.rows, s in w0.busy, s, claims, i)
  {
    var rows, busy := w0.rows, s in w0.busy;
    var upTo := claims[..i];
    ClaimsAreSound(rows, busy, s, claims, now);
    assert ChosenAt(rows, busy, s, claims, now, i);
    hide WellChosen, Drained;
    QueueOrder(s);
    assert ClaimsSerial(rows, upTo) <==> exists m :: 0 <= m < i && claims[m] in rows && rows[claims[m]].mode == Serial by {
      if m :| 0 <= m < i && claims[m] in rows && rows[claims[m]].mode == Serial {
        assert upTo[m] == claims[m];
      }
    }
    var met := ClaimAll(rows, upTo, now);
    forall k | Waiting(rows, s, k) && k !in upTo && (MarkedAt(rows, busy, claims, i) ==> rows[k].mode == FireAndForget)
      ensures ComesFirst(rows[claims[i]], rows[k])
    {
      assert k in PendingSet(met, s) && met[k] == rows[k];
      assert Precedes(met, s, claims[i], k);
    }
  }

  /** The world after the compare-and-set that ends `id`, and after notifyDone cleared the busy mark. */
  function Ended(w: World, id: JobId, to: Status, p: Patch, now: Time): World
    requires id in w.rows
  {
    w.(rows := w.rows[id := Transitioned(w.rows[id], to, p, now)], busy := w.busy - {w.rows[id].session})
  }

  // ---- What every drain keeps ----

  ghost predicate Safe(w: World, now: Time) {
    Sound(w.rows, now) && UniqueRefs(w.rows) && NoPhantom(w.rows, w.busy)
  }

  lemma ClaimsKeepRows(rows: Rows, busy: bool, s: SessionId, claims: seq<JobId>, now: Time)
    requires Sound(rows, now) && UniqueRefs(rows) && WellChosen(rows, busy, s, claims, now)
    ensures Sound(ClaimAll(rows, claims, now), now) && UniqueRefs(ClaimAll(rows, claims, now))
    ensures Evolves(rows, ClaimAll(rows, claims, now))
  {
    var after := ClaimAll(rows, claims, now);
    ClaimsAreSound(rows, busy, s, claims, now);
    forall id | id in rows
      ensures after[id].id == id && Faithful(after[id], now) && RowEvolves(rows[id], after[id])
    {
      if id in claims {
        TransitionKeepsFaith(rows[id], Dispatched, NO_PATCH, now, now);
      }
    }
  }

  /** Whether or not its sends succeed, a drain keeps the table sound and creates no phantom block. */
  lemma DrainIsSafe(w0: World, w1: World, open: bool, s: SessionId, claims: seq<JobId>, now: Time)
    requires Safe(w0, now) && Drained(w0, w1, open, s, claims, now)
    ensures Safe(w1, now) && Evolves(w0.rows, w1.rows) && w1.rows.Keys == w0.rows.Keys
  {
    ClaimsKeepRows(w0.rows, s in w0.busy, s, claims, now);
    DrainKeepsNoPhantom(w0.rows, w0.busy, s, claims, now);
  }

  lemma EndKeepsRows(rows: Rows, id: JobId, to: Status, p: Patch, before: Time, now: Time)
    requires Sound(rows, before) && UniqueRefs(rows) && before <= now
    requires id in rows && Edge(rows[id].status, to) && (to == Expired ==> rows[id].expiresAt <= now)
    ensures var r := rows[id := Transitioned(rows[id], to, p, now)];
            Sound(r, now) && UniqueRefs(r) && Evolves(rows, r)
  {
    TransitionKeepsFaith(rows[id], to, p, before, now);
    ReplaceRow(rows, id, Transitioned(rows[id], to, p, now), before, now);
  }

  /** Ending a job by a legal transition keeps the table sound and leaves no phantom block. */
  lemma EndIsSafe(w: World, id: JobId, to: Status, p: Patch, before: Time, now: Time)
    requires Safe(w, before) && before <= now && id in w.rows && Edge(w.rows[id].status, to) && to.Terminal()
    requires to == Expired ==> w.rows[id].expiresAt <= now
    ensures Safe(Ended(w, id, to, p, now), now)
    ensures Evolves(w.rows, Ended(w, id, to, p, now).rows)
    ensures Ends(w.rows, Ended(w, id, to, p, now).rows, id)
  {
    hide Sound, UniqueRefs, NoPhantom, Evolves;
    EndKeepsRows(w.rows, id, to, p, before, now);
    EndingKeepsNoPhantom(w.rows, Ended(w, id, to, p, now).rows, w.busy, id);
  }

  // ---- What drains keep when every open session is routed ----

  /** Routing is a bijection, job messages follow the acknowledgement, an open gate implies a route,
      and no open session has work it could be given. */
  ghost predicate Orderly(w: World, open: set<SessionId>) {
    && Bijective(w.routes) && AllGreeted(w.routes)
    && OpenIsRouted(open, w.routes)
    && Conserved(w.rows, w.busy, open)
  }

  /** A drain of `s` restores work conservation, whatever `s` itself looked like before. */
  lemma DrainIsOrderly(w0: World, w1: World, open: set<SessionId>, s: SessionId, claims: seq<JobId>, now: Time)
    requires Bijective(w0.routes) && AllGreeted(w0.routes) && OpenIsRouted(open, w0.routes)
    requires Conserved(w0.rows, w0.busy, open - {s})
    requires Drained(w0, w1, s in open, s, claims, now)
    ensures Orderly(w1, open)
  {
    match RouteOf(w0.routes, s)
    case Some(c) =>
      RoutedWriteKeeps(w0.routes, s, Messages(w0.rows, claims));
      forall t | t in open ensures RouteOf(w1.routes, t).Some? {
        assert RouteOf(w0.routes, t).Some?;
      }
      DrainConserves(w0.rows, w0.busy, s, claims, now, open);
    case None =>
      assert open - {s} == open;
      assert ClaimAll(w0.rows, [], now) == w0.rows;
  }

  lemma EndStaysOrderly(w: World, id: JobId, to: Status, p: Patch, now: Time, open: set<SessionId>)
    requires Orderly(w, open) && id in w.rows && !w.rows[id].status.Terminal() && to.Terminal()
    ensures var e := Ended(w, id, to, p, now);
            e.routes == w.routes && Conserved(e.rows, e.busy, open - {w.rows[id].session})
  {
    EndingKeepsOthersSettled(w.rows, Ended(w, id, to, p, now).rows, w.busy, id, open);
  }

  /** Closing a gate never hurts work conservation; opening one is followed by a drain of it. */
  lemma FewerOpen(w: World, open: set<SessionId>, fewer: set<SessionId>)
    requires fewer <= open
    ensures Orderly(w, open) ==> Orderly(w, fewer)
  {
  }

  // ---- One serial job per session, through a drain ----

  predicate SerialWaits(rows: Rows, s: SessionId) {
    exists p :: p in rows && p in PendingSet(rows, s) && rows[p].mode == Serial
  }

  /** A drain of `s` lets a serial job out beside another: its gate is open and it is not marked although a
      serial job is in flight, and a serial job waits. A drain without a route gets no further than the
      head of the queue, so there the head must be serial. */
  predicate LetsOut(w: World, open: bool, s: SessionId, claims: seq<JobId>) {
    && open && s !in w.busy && InFlightSerial(w.rows, s) != {}
    && if RouteOf(w.routes, s).Some? then SerialWaits(w.rows, s) else ClaimsSerial(w.rows, claims)
  }

  /** Whatever the marks say, a drain keeps at most one serial job of its session in flight exactly when it
      does not let one out beside another. */
  lemma DrainKeepsOneExactly(w0: World, w1: World, open: bool, s: SessionId, claims: seq<JobId>, now: Time)
    requires Drained(w0, w1, open, s, claims, now) && AtMostOne(w0.rows, s)
    ensures AtMostOne(w1.rows, s) <==> !LetsOut(w0, open, s, claims)
    ensures forall t :: t != s ==> InFlightSerial(w1.rows, t) == InFlightSerial(w0.rows, t)
  {
    hide WellChosen, Choosable;
    InFlightAfterDrain(w0.rows, s in w0.busy, s, claims, now);
    ClaimsAreSound(w0.rows, s in w0.busy, s, claims, now);
    forall t | t != s ensures InFlightSerial(w1.rows, t) == InFlightSerial(w0.rows, t) {
      ClaimsTouchOneSession(w0.rows, s in w0.busy, s, claims, now, t);
      SameForKeeps(w0.rows, w1.rows, t);
    }
    hide InFlightSerial;
    if ClaimsSerial(w0.rows, claims) {
      SerialClaimWaited(w0, s, claims);
    } else if open && s !in w0.busy && RouteOf(w0.routes, s).Some? {
      SettledLeavesNone(w0.rows, claims, s, now);
    }
  }

  lemma SerialClaimWaited(w: World, s: SessionId, claims: seq<JobId>)
    requires ClaimsSerial(w.rows, claims)
    requires forall i :: 0 <= i < |claims| ==> claims[i] in w.rows && claims[i] in PendingSet(w.rows, s)
    ensures SerialWaits(w.rows, s)
  {
    var i :| 0 <= i < |claims| && claims[i] in w.rows && w.rows[claims[i]].mode == Serial;
    assert claims[i] in PendingSet(w.rows, s);
  }

  lemma SettledLeavesNone(rows: Rows, claims: seq<JobId>, s: SessionId, now: Time)
    requires Settled(ClaimAll(rows, claims, now), false, s) && !ClaimsSerial(rows, claims)
    ensures !SerialWaits(rows, s)
  {
    forall p | p in rows && p in PendingSet(rows, s) ensures rows[p].mode == FireAndForget {
      assert p in claims || p in PendingSet(ClaimAll(rows, claims, now), s);
      var i :| 0 <= i < |claims| && claims[i] == p;
    }
  }

  /** Without a route an unmarked session's drain takes exactly one job, the head of the queue. */
  lemma UnroutedTakesHead(w0: World, w1: World, s: SessionId, claims: seq<JobId>, now: Time)
    requires Drained(w0, w1, true, s, claims, now) && RouteOf(w0.routes, s).None? && s !in w0.busy
    requires PendingSet(w0.rows, s) != {}
    ensures |claims| == 1 && claims[0] in PendingSet(w0.rows, s)
    ensures forall k :: k in PendingSet(w0.rows, s) ==> k in w0.rows && claims[0] in w0.rows && Precedes(w0.rows, s, claims[0], k)
  {
    assert ClaimAll(w0.rows, [], now) == w0.rows;
    if claims != [] {
      assert claims[..0] == [];
      assert ChosenAt(w0.rows, false, s, claims, now, 0);
    }
  }
}
