/** Who is attached, and since when nothing was heard (session-registry.ts). */
module SessionRegistry {
  import opened Types

  type ConnId = nat

  datatype SessionHandle = SessionHandle(
    id: SessionId, alias: Option<string>, metadata: map<string, string>, pid: Option<int>, attached: bool,
    registeredAt: Time, lastHeartbeatAt: Time, transport: Option<ConnId>)

  function OrElse<T>(a: Option<T>, b: Option<T>): Option<T> {
    if a.Some? then a else b
  }

  /** The handles after a registration: given fields override, missing ones are kept. */
  function Enrolled(sessions: map<SessionId, SessionHandle>, s: SessionId, alias: Option<string>, metadata: Option<map<string, string>>,
                    pid: Option<int>, transport: ConnId, now: Time): map<SessionId, SessionHandle>
  {
    if s in sessions then
      var h := sessions[s];
      sessions[s := h.(alias := OrElse(alias, h.alias), pid := OrElse(pid, h.pid),
                       metadata := if metadata.Some? then metadata.value else h.metadata,
                       transport := Some(transport), attached := true, lastHeartbeatAt := now)]
    else
      sessions[s := SessionHandle(s, alias, if metadata.Some? then metadata.value else map[], pid, true, now, now, Some(transport))]
  }

  function AttachedIn(sessions: map<SessionId, SessionHandle>): set<SessionId> {
    set s | s in sessions && sessions[s].attached
  }

  lemma EnrollingOpens(sessions: map<SessionId, SessionHandle>, s: SessionId, h: SessionHandle)
    requires h.attached
    ensures AttachedIn(sessions[s := h]) == AttachedIn(sessions) + {s}
  {
  }

  /** Handles by id; `order` is the Map's insertion order, which findByLabel observes; `alias` is the source's label. */
  class SessionRegistry {
    var sessions: map<SessionId, SessionHandle>
    var order: seq<SessionId>

    ghost predicate Valid()
      reads this
    {
      && (forall i :: 0 <= i < |order| ==> order[i] in sessions)
      && (forall s :: s in sessions ==> s in order && sessions[s].id == s)
      && (forall i, k :: 0 <= i < k < |order| ==> order[i] != order[k])
    }

    constructor ()
      ensures Valid() && sessions == map[]
    {
      sessions, order := map[], [];
    }

    function IsAttached(s: SessionId): bool
      reads this
    {
      s in sessions && sessions[s].attached
    }

    /** The sessions whose gate is open. */
    function Open(): set<SessionId>
      reads this
    {
      AttachedIn(sessions)
    }

    /** Attach or re-attach: given fields override, missing ones are kept. */
    method Register(s: SessionId, alias: Option<string>, metadata: Option<map<string, string>>, pid: Option<int>, transport: ConnId, now: Time)
      requires Valid()
      modifies this
      ensures Valid()
      ensures sessions == Enrolled(old(sessions), s, alias, metadata, pid, transport, now)
      ensures s in sessions && sessions[s].attached && sessions[s].lastHeartbeatAt == now && sessions[s].transport == Some(transport)
      ensures Open() == old(Open()) + {s}
      ensures order == if s in old(sessions) then old(order) else old(order) + [s]
    {
      ghost var was := sessions;
      if s in sessions {
        var h := sessions[s];
        if alias.Some? {
          h := h.(alias := alias);
        }
        if metadata.Some? {
          h := h.(metadata := metadata.value);
        }
        if pid.Some? {
          h := h.(pid := pid);
        }
        sessions := sessions[s := h.(transport := Some(transport), attached := true, lastHeartbeatAt := now)];
      } else {
        sessions := sessions[s := SessionHandle(s, alias, if metadata.Some? then metadata.value else map[], pid, true, now, now,
                                                Some(transport))];
        order := order + [s];
      }
      EnrollingOpens(was, s, sessions[s]);
      assert sessions == was[s := sessions[s]];
    }

    method Detach(s: SessionId) returns (detached: bool)
      requires Valid()
      modifies this
      ensures Valid() && order == old(order)
      ensures detached <==> old(IsAttached(s))
      ensures detached ==> sessions == old(sessions)[s := old(sessions)[s].(attached := false, transport := None)]
      ensures !detached ==> sessions == old(sessions)
    {
      if !IsAttached(s) {
        return false;
      }
      sessions := sessions[s := sessions[s].(attached := false, transport := None)];
      return true;
    }

    /** A heartbeat is noted but never re-attaches. */
    method Heartbeat(s: SessionId, now: Time) returns (known: bool)
      requires Valid()
      modifies this
      ensures Valid() && order == old(order) && Open() == old(Open())
      ensures known <==> s in old(sessions)
      ensures sessions == if known then old(sessions)[s := old(sessions)[s].(lastHeartbeatAt := now)] else old(sessions)
    {
      if s !in sessions {
        return false;
      }
      sessions := sessions[s := sessions[s].(lastHeartbeatAt := now)];
      return true;
    }

    /** `s` is the first attached session with that alias, in registration order. */
    ghost predicate FirstLabelled(s: SessionId, alias: string)
      reads this
    {
      exists i :: IsFirst(i, s, alias)
    }

    ghost predicate IsFirst(i: nat, s: SessionId, alias: string)
      reads this
    {
      && i < |order| && order[i] == s && s in Open() && sessions[s].alias == Some(alias)
      && forall k :: 0 <= k < i && order[k] in Open() ==> sessions[order[k]].alias != Some(alias)
    }

    lemma FirstIsOnly(i: nat, k: nat, s: SessionId, t: SessionId, alias: string)
      requires IsFirst(i, s, alias) && IsFirst(k, t, alias)
      ensures s == t
    {
    }

    /** The first attached session with that alias, in registration order. */
    method FindByLabel(alias: string) returns (r: Option<SessionId>)
      requires Valid()
      ensures r.None? ==> forall s :: s in Open() ==> sessions[s].alias != Some(alias)
      ensures forall s :: FirstLabelled(s, alias) <==> r == Some(s)
    {
      for i := 0 to |order|
        invariant forall k :: 0 <= k < i && order[k] in Open() ==> sessions[order[k]].alias != Some(alias)
      {
        var h := sessions[order[i]];
        if h.attached && h.alias == Some(alias) {
          assert IsFirst(i, order[i], alias);
          forall s | FirstLabelled(s, alias) ensures s == order[i] {
            var k :| IsFirst(k, s, alias);
            FirstIsOnly(i, k, order[i], s, alias);
          }
          return Some(order[i]);
        }
      }
      return None;
    }

    /** Detach exactly the attached sessions not heard of for longer than the timeout. */
    method EvictStale(timeout: int, now: Time) returns (evicted: seq<SessionId>)
      requires Valid()
      modifies this
      ensures Valid() && order == old(order) && Open() <= old(Open())
      ensures sessions == Swept(old(sessions), timeout, now)
      ensures SilentEvicted(old(sessions), sessions, timeout, now)
      ensures forall s :: s in evicted <==> s in old(sessions) && old(sessions)[s].attached && !sessions[s].attached
    {
      evicted := [];
      ghost var was := sessions;
      ghost var done: set<SessionId> := {};
      for i := 0 to |order|
        invariant order == old(order) && sessions == SweptOf(was, done, timeout, now)
        invariant forall k :: 0 <= k < |order| ==> (order[k] in done <==> k < i)
        invariant forall s :: s in evicted <==> s in was && s in done && Stale(was[s], timeout, now)
      {
        var s := order[i];
        SweepNext(was, done, s, timeout, now);
        if sessions[s].attached {
          if now - sessions[s].lastHeartbeatAt > timeout {
            sessions := sessions[s := sessions[s].(attached := false, transport := None)];
            evicted := evicted + [s];
          }
        }
        done := done + {s};
      }
      SweepAll(was, done, timeout, now);
    }
  }

  /** Exactly the attached sessions silent for longer than the timeout lost their attachment, and nothing
      else about any session changed. */
  predicate SilentEvicted(before: map<SessionId, SessionHandle>, after: map<SessionId, SessionHandle>, timeout: int, now: Time) {
    after.Keys == before.Keys && forall s :: s in before ==>
      && (after[s].attached <==> before[s].attached && now - before[s].lastHeartbeatAt <= timeout)
      && after[s] == if before[s].attached && !after[s].attached then before[s].(attached := false, transport := None) else before[s]
  }

  /** The handles while a sweep has visited `done`. */
  function SweptOf(sessions: map<SessionId, SessionHandle>, done: set<SessionId>, timeout: int, now: Time): map<SessionId, SessionHandle> {
    map s | s in sessions :: if s in done then Refreshed(sessions[s], timeout, now) else sessions[s]
  }

  lemma SweepNext(sessions: map<SessionId, SessionHandle>, done: set<SessionId>, s: SessionId, timeout: int, now: Time)
    requires s in sessions && s !in done
    ensures var h := sessions[s];
            && SweptOf(sessions, done, timeout, now)[s] == h
            && SweptOf(sessions, done + {s}, timeout, now) == SweptOf(sessions, done, timeout, now)[s := Refreshed(h, timeout, now)]
            && (!Stale(h, timeout, now) ==> SweptOf(sessions, done + {s}, timeout, now) == SweptOf(sessions, done, timeout, now))
  {
  }

  lemma SweepAll(sessions: map<SessionId, SessionHandle>, done: set<SessionId>, timeout: int, now: Time)
    requires sessions.Keys <= done
    ensures SweptOf(sessions, done, timeout, now) == Swept(sessions, timeout, now)
    ensures AttachedIn(Swept(sessions, timeout, now)) <= AttachedIn(sessions)
    ensures forall s :: s in sessions ==> s in Swept(sessions, timeout, now) && Swept(sessions, timeout, now)[s].id == sessions[s].id
    ensures Swept(sessions, timeout, now).Keys == sessions.Keys
    ensures SilentEvicted(sessions, Swept(sessions, timeout, now), timeout, now)
  {
  }

  predicate Stale(h: SessionHandle, timeout: int, now: Time) {
    h.attached && now - h.lastHeartbeatAt > timeout
  }

  function Refreshed(h: SessionHandle, timeout: int, now: Time): SessionHandle {
    if Stale(h, timeout, now) then h.(attached := false, transport := None) else h
  }

  function Swept(sessions: map<SessionId, SessionHandle>, timeout: int, now: Time): map<SessionId, SessionHandle> {
    map s | s in sessions :: Refreshed(sessions[s], timeout, now)
  }
}
