/** The broker's end of the socket (socket-server.ts). */
module SocketServer {
  import opened Types
  import opened SessionRegistry
  import opened Routing
  import Framing

  class SocketServer {
    const sessions: SessionRegistry
    var conns: map<ConnId, Connection>
    var live: set<ConnId>
    var sessionConn: map<SessionId, ConnId>
    var nextConnId: nat

    function R(): Routes
      reads this
    {
      Routes(conns, live, sessionConn)
    }

    ghost predicate Valid()
      reads this
    {
      live <= conns.Keys && forall c :: c in conns ==> c <= nextConnId
    }

    constructor (sessions: SessionRegistry)
      ensures Valid() && this.sessions == sessions && R() == Routes(map[], {}, map[])
    {
      this.sessions := sessions;
      conns, live, sessionConn, nextConnId := map[], {}, map[], 0;
    }

    method HandleConnection() returns (c: ConnId)
      requires Valid()
      modifies this
      ensures Valid() && c !in old(conns) && R() == Accepted(old(R()), c)
    {
      nextConnId := nextConnId + 1;
      c := nextConnId;
      conns, live := conns[c := Connection(None, "", [], false)], live + {c};
    }

    /** socket.write never throws out of sendMessage. */
    method SendMessage(c: ConnId, msg: BrokerMsg)
      requires Valid() && c in conns
      modifies this
      ensures Valid() && R() == Wrote(old(R()), c, [msg])
    {
      conns := conns[c := conns[c].(out := conns[c].out + [msg])];
    }

    method EndSocket(c: ConnId)
      requires Valid() && c in conns
      modifies this
      ensures Valid() && R() == old(R()).(conns := old(conns)[c := old(conns[c]).(ended := true)])
    {
      conns := conns[c := conns[c].(ended := true)];
    }

    /** The dispatch sink: throws (here: returns false) exactly when no connection serves the session. */
    method Send(s: SessionId, msg: BrokerMsg) returns (ok: bool)
      requires Valid()
      modifies this
      ensures Valid()
      ensures ok <==> s in old(sessionConn) && old(sessionConn)[s] in old(live)
      ensures ok ==>
                var c := old(sessionConn)[s];
                c in old(conns) && conns == old(conns)[c := old(conns)[c].(out := old(conns)[c].out + [msg])]
      ensures ok <==> RouteOf(old(R()), s).Some?
      ensures R() == if ok then Wrote(old(R()), RouteOf(old(R()), s).value, [msg]) else old(R())
    {
      if s !in sessionConn || sessionConn[s] !in live {
        return false;
      }
      SendMessage(sessionConn[s], msg);
      return true;
    }

    /** Append a chunk to the connection's buffer and take the complete lines off it. */
    method OnData(c: ConnId, chunk: string) returns (lines: seq<string>)
      requires Valid() && c in conns
      modifies this
      ensures Valid()
      ensures c in conns && (lines, conns[c].buffer) == Framing.Feed(old(conns[c].buffer), [chunk])
      ensures R() == old(R()).(conns := old(conns)[c := old(conns[c]).(buffer := conns[c].buffer)])
    {
      Framing.FeedOne(conns[c].buffer, chunk);
      var rest;
      lines, rest := Framing.TakeLines(conns[c].buffer + chunk);
      conns := conns[c := conns[c].(buffer := rest)];
    }

    /** Evict any prior connection holding the session id and record the new one. */
    method BindConnection(c: ConnId, s: SessionId)
      requires Valid() && c in conns
      modifies this
      ensures Valid() && R() == Bind(old(R()), c, s)
      ensures c in conns && conns[c].session == Some(s) && s in sessionConn && sessionConn[s] == c
      ensures s in old(sessionConn) && old(sessionConn)[s] != c && old(sessionConn)[s] in old(live) ==>
                var prior := old(sessionConn)[s];
                prior !in live && prior in conns && conns[prior] == old(conns)[prior].(ended := true)
    {
      conns := conns[c := conns[c].(session := Some(s))];
      if s in sessionConn && sessionConn[s] != c && sessionConn[s] in live {
        var prior := sessionConn[s];
        conns := conns[prior := conns[prior].(ended := true)];
        live := live - {prior};
      }
      sessionConn := sessionConn[s := c];
    }

    /** attachSession, without the drain its 'attached' event later triggers. */
    method AttachSession(c: ConnId, s: SessionId, alias: Option<string>, pid: Option<int>, now: Time)
      requires Valid() && sessions.Valid() && c in conns
      modifies this, sessions
      ensures Valid() && sessions.Valid()
      ensures R() == Handshake(old(R()), c, s)
      ensures sessions.sessions == Enrolled(old(sessions.sessions), s, alias, None, pid, c, now)
      ensures sessions.Open() == old(sessions.Open()) + {s}
    {
      BindConnection(c, s);
      sessions.Register(s, alias, None, pid, c, now);
      SendMessage(c, Registered(s));
    }

    /** End and close events; only the connection that still owns its session detaches it. */
    method OnClose(c: ConnId)
      requires Valid() && sessions.Valid()
      modifies this, sessions
      ensures Valid() && sessions.Valid()
      ensures R() == Closed(old(R()), c)
      ensures sessions.Open() == old(sessions.Open()) - OwnedBy(old(R()), c)
    {
      if c !in live {
        assert live - {c} == live;
        return;
      }
      live := live - {c};
      var bound := conns[c].session;
      if bound.Some? && bound.value in sessionConn && sessionConn[bound.value] == c {
        sessionConn := sessionConn - {bound.value};
        var _ := sessions.Detach(bound.value);
      }
    }
  }
}
