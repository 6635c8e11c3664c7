/** Broker-to-shim messages, connections, and which connection speaks for which session
    (wire.ts, and the maps of socket-server.ts). */
module Routing {
  import opened Types
  import opened SessionRegistry

  datatype BrokerMsg =
    | Registered(session: SessionId)
    | DispatchMsg(job: JobId, content: string, meta: map<string, string>)
    | CancelMsg(job: JobId)
    | CommentMsg(job: JobId, note: string)
    | ToolResultMsg(call: string, error: Option<string>)
    | ShutdownMsg
    | ErrorMsg(code: string)
  {
    /** Messages about jobs, which a shim may only see after its handshake was acknowledged. */
    predicate Push() {
      DispatchMsg? || CancelMsg? || CommentMsg?
    }
  }

  // `out` is everything written to the socket so far.
  datatype Connection = Connection(session: Option<SessionId>, buffer: string, out: seq<BrokerMsg>, ended: bool)

  /** `conns` holds every connection object ever accepted; `live` is the key set of the `connections`
      Map; a displaced connection leaves `live` but its object stays reachable from its socket. */
  datatype Routes = Routes(conns: map<ConnId, Connection>, live: set<ConnId>, sessionConn: map<SessionId, ConnId>)

  function RouteOf(r: Routes, s: SessionId): Option<ConnId> {
    if s in r.sessionConn && r.sessionConn[s] in r.live && r.sessionConn[s] in r.conns
    then Some(r.sessionConn[s]) else None
  }

  function Wrote(r: Routes, c: ConnId, msgs: seq<BrokerMsg>): Routes
    requires c in r.conns
  {
    r.(conns := r.conns[c := r.conns[c].(out := r.conns[c].out + msgs)])
  }

  /** attachSession without its acknowledgement: the new connection wins, a prior one is ended. */
  function Bind(r: Routes, c: ConnId, s: SessionId): Routes
    requires c in r.conns
  {
    var bound := r.conns[c := r.conns[c].(session := Some(s))];
    var displaced := if s in r.sessionConn && r.sessionConn[s] != c then {r.sessionConn[s]} * r.live else {};
    Routes(map k | k in bound :: if k in displaced then bound[k].(ended := true) else bound[k],
           r.live - displaced, r.sessionConn[s := c])
  }

  /** attachSession: bind, then acknowledge. */
  function Handshake(r: Routes, c: ConnId, s: SessionId): Routes
    requires c in r.conns
  {
    Wrote(Bind(r, c, s), c, [Registered(s)])
  }

  /** Whether closing `c` takes its session with it. */
  predicate Owns(r: Routes, c: ConnId) {
    c in r.live && c in r.conns && r.conns[c].session.Some?
    && r.conns[c].session.value in r.sessionConn && r.sessionConn[r.conns[c].session.value] == c
  }

  function OwnedBy(r: Routes, c: ConnId): set<SessionId> {
    if Owns(r, c) then {r.conns[c].session.value} else {}
  }

  function Closed(r: Routes, c: ConnId): Routes {
    Routes(r.conns, r.live - {c}, if Owns(r, c) then r.sessionConn - {r.conns[c].session.value} else r.sessionConn)
  }

  function Accepted(r: Routes, c: ConnId): Routes {
    Routes(r.conns[c := Connection(None, "", [], false)], r.live + {c}, r.sessionConn)
  }

  /** `sessionConn` and the sessions of the live connections are inverse to each other. */
  ghost predicate Bijective(r: Routes) {
    && r.live <= r.conns.Keys
    && (forall s :: s in r.sessionConn ==> r.sessionConn[s] in r.live && r.conns[r.sessionConn[s]].session == Some(s))
    && (forall c :: c in r.live && r.conns[c].session.Some? ==>
          r.conns[c].session.value in r.sessionConn && r.sessionConn[r.conns[c].session.value] == c)
  }

  /** One handshake per connection: `c` is still connected and is not bound to another session. */
  predicate MayHandshake(r: Routes, c: ConnId, s: SessionId) {
    c in r.live && c in r.conns && (r.conns[c].session == None || r.conns[c].session == Some(s))
  }

  /** A handshake keeps the routing a bijection exactly when the connection is live and not bound elsewhere. */
  lemma HandshakeKeepsBijectionExactly(r: Routes, c: ConnId, s: SessionId)
    requires Bijective(r) && c in r.conns
    ensures Bijective(Handshake(r, c, s)) <==> MayHandshake(r, c, s)
    ensures Handshake(r, c, s).sessionConn[s] == c
  {
    var h := Handshake(r, c, s);
    if MayHandshake(r, c, s) {
      assert Bijective(h);
    } else if c !in r.live {
      assert h.sessionConn[s] !in h.live;
    } else {
      var s1 := r.conns[c].session.value;
      assert h.sessionConn[s1] == c && h.conns[c].session != Some(s1);
    }
  }

  /** Closing any connection keeps the bijection; closing a displaced one changes nothing at all. */
  lemma CloseKeepsBijection(r: Routes, c: ConnId)
    requires Bijective(r)
    ensures Bijective(Closed(r, c))
    ensures c !in r.live ==> Closed(r, c) == r
    ensures Closed(Closed(r, c), c) == Closed(r, c)
    ensures forall s :: s in r.sessionConn && r.sessionConn[s] != c ==> RouteOf(Closed(r, c), s) == RouteOf(r, s)
  {
    assert c !in r.live ==> r.live - {c} == r.live;
  }

  /** After a displacement, whatever end and close events the old connection still raises,
      the session stays routed to the newest handshake. */
  lemma DisplacedCloseIsHarmless(r: Routes, old': ConnId, c: ConnId, s: SessionId)
    requires Bijective(r) && MayHandshake(r, c, s) && RouteOf(r, s) == Some(old') && old' != c
    ensures Closed(Handshake(r, c, s), old') == Handshake(r, c, s)
    ensures RouteOf(Handshake(r, c, s), s) == Some(c)
  {
    var h := Handshake(r, c, s);
    assert old' !in h.live;
    HandshakeKeepsBijectionExactly(r, c, s);
    CloseKeepsBijection(h, old');
  }

  // ---- Registered comes first ----

  predicate GreetedBy(out: seq<BrokerMsg>, n: nat) {
    exists m :: 0 <= m < n && m < |out| && out[m].Registered?
  }

  /** A bound connection was acknowledged, and no job message precedes the acknowledgement. */
  ghost predicate Greeted(k: Connection) {
    && (k.session.Some? ==> GreetedBy(k.out, |k.out|))
    && forall i :: 0 <= i < |k.out| && k.out[i].Push() ==> GreetedBy(k.out, i)
  }

  ghost predicate AllGreeted(r: Routes) {
    forall c :: c in r.conns ==> Greeted(r.conns[c])
  }

  lemma WriteKeepsGreeted(k: Connection, msgs: seq<BrokerMsg>)
    requires Greeted(k)
    requires k.session.Some? || forall i :: 0 <= i < |msgs| ==> !msgs[i].Push()
    ensures Greeted(k.(out := k.out + msgs))
  {
    var out := k.out + msgs;
    if GreetedBy(k.out, |k.out|) {
      var m :| 0 <= m < |k.out| && k.out[m].Registered?;
      assert out[m].Registered?;
    }
    forall i | 0 <= i < |out| && out[i].Push() ensures GreetedBy(out, i) {
      if i < |k.out| {
        var m :| 0 <= m < i && k.out[m].Registered?;
        assert out[m].Registered?;
      } else {
        assert out[i] == msgs[i - |k.out|];
        var m :| 0 <= m < |k.out| && k.out[m].Registered?;
        assert out[m].Registered?;
      }
    }
  }

  lemma RoutedWriteKeeps(r: Routes, s: SessionId, msgs: seq<BrokerMsg>)
    requires Bijective(r) && AllGreeted(r) && RouteOf(r, s).Some?
    ensures Bijective(Wrote(r, RouteOf(r, s).value, msgs)) && AllGreeted(Wrote(r, RouteOf(r, s).value, msgs))
  {
    WriteKeepsGreeted(r.conns[RouteOf(r, s).value], msgs);
  }

  lemma HandshakeKeepsGreeted(r: Routes, c: ConnId, s: SessionId)
    requires AllGreeted(r) && c in r.conns
    ensures AllGreeted(Handshake(r, c, s))
  {
    var h := Handshake(r, c, s);
    forall k | k in h.conns ensures Greeted(h.conns[k]) {
      if k == c {
        var before := r.conns[c].(session := None);
        WriteKeepsGreeted(before, [Registered(s)]);
        assert h.conns[c].out[|before.out|].Registered?;
      }
    }
  }

  lemma WroteTwice(r: Routes, c: ConnId, a: seq<BrokerMsg>, b: seq<BrokerMsg>)
    requires c in r.conns
    ensures Wrote(Wrote(r, c, a), c, b) == Wrote(r, c, a + b)
  {
    assert (r.conns[c].out + a) + b == r.conns[c].out + (a + b);
  }

  lemma WroteNothing(r: Routes, c: ConnId)
    requires c in r.conns
    ensures Wrote(r, c, []) == r
  {
    assert r.conns[c].out + [] == r.conns[c].out;
  }

  // ---- Gate and route ----

  /** Every session the registry calls attached can be reached. */
  ghost predicate OpenIsRouted(open: set<SessionId>, r: Routes) {
    forall s :: s in open ==> RouteOf(r, s).Some?
  }

  lemma HandshakeRoutes(r: Routes, c: ConnId, s: SessionId, open: set<SessionId>)
    requires Bijective(r) && OpenIsRouted(open, r) && MayHandshake(r, c, s)
    ensures OpenIsRouted(open + {s}, Handshake(r, c, s))
  {
    var h := Handshake(r, c, s);
    forall t | t in open + {s} ensures RouteOf(h, t).Some? {
      if t != s {
        assert RouteOf(r, t).Some?;
      }
    }
  }
}
