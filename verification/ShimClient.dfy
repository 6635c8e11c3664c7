/** The shim's end of the socket: pending tool calls and the bounded outbound queue (broker-client.ts). */
module ShimClient {
  import opened Types
  import Framing

  datatype CallId = CallId(text: string)

  // What goes to the socket: tool calls, and register, reconnect and heartbeat messages.
  datatype Outbound = CallMsg(id: CallId) | Control(text: string)

  function Calls(wire: seq<Outbound>): seq<CallId> {
    if wire == [] then []
    else Calls(wire[..|wire| - 1]) + CallIn(wire[|wire| - 1])
  }

  function CallIn(msg: Outbound): seq<CallId> {
    if msg.CallMsg? then [msg.id] else []
  }

  function Messages(queue: seq<CallId>): seq<Outbound> {
    seq(|queue|, i requires 0 <= i < |queue| => CallMsg(queue[i]))
  }

  lemma OneMoreSent(wire: seq<Outbound>, msg: Outbound)
    ensures Calls(wire + [msg]) == Calls(wire) + CallIn(msg)
  {
    assert (wire + [msg])[..|wire|] == wire;
  }

  // How a call's promise was settled.
  datatype Outcome = Resolved | TimedOut | Overflowed | ClientClosed

  predicate Distinct<T(==)>(q: seq<T>) {
    forall i, k :: 0 <= i < k < |q| ==> q[i] != q[k]
  }

  function Elements<T>(q: seq<T>): set<T> {
    set i | 0 <= i < |q| :: q[i]
  }

  /** Every call ever issued is pending or settled, never both. */
  ghost predicate Accounted(issued: seq<CallId>, pending: set<CallId>, outcome: map<CallId, Outcome>) {
    Distinct(issued) && pending !! outcome.Keys && pending + outcome.Keys == Elements(issued)
  }

  ghost predicate Issued(issued: seq<CallId>, i: nat, id: CallId) {
    i < |issued| && issued[i] == id
  }

  /** `a` was issued before `b`. */
  ghost predicate Earlier(issued: seq<CallId>, a: CallId, b: CallId) {
    exists i, k :: i < k && Issued(issued, i, a) && Issued(issued, k, b)
  }

  /** `q` lists issued calls in strict issue order. */
  ghost predicate InOrder(issued: seq<CallId>, q: seq<CallId>) {
    && (forall i :: 0 <= i < |q| ==> q[i] in issued)
    && forall i, k :: 0 <= i < k < |q| ==> Earlier(issued, q[i], q[k])
  }

  /** Every pending call was handed to the socket or is still queued. */
  predicate Underway(pending: set<CallId>, q: seq<CallId>) {
    forall id :: id in pending ==> id in q
  }

  // The newest `limit` messages, and those pushed out by them.
  function Kept(all: seq<CallId>, limit: nat): seq<CallId> {
    if |all| > limit then all[|all| - limit..] else all
  }

  function Lost(all: seq<CallId>, limit: nat): set<CallId> {
    if |all| > limit then Elements(all[..|all| - limit]) else {}
  }

  function WithOutcome(outcome: map<CallId, Outcome>, ids: set<CallId>, how: Outcome): map<CallId, Outcome> {
    outcome + map id | id in ids :: how
  }

  class BrokerClient {
    const limit: nat
    var connected: bool
    var socket: bool             // whether `socket` is non-null
    var buffer: string
    var pending: set<CallId>
    var outboundQueue: seq<CallId>
    ghost var issued: seq<CallId>
    ghost var wire: seq<Outbound>
    ghost var written: seq<CallId>   // the calls on the wire
    ghost var outcome: map<CallId, Outcome>

    /** Conservation: calls are accounted for, no pending call is lost, everything handed to the socket or
        still queued is in issue order without repetition, and the queue is bounded and empty while online. */
    ghost predicate Valid()
      reads this
    {
      && Accounted(issued, pending, outcome)
      && Underway(pending, written + outboundQueue)
      && InOrder(issued, written + outboundQueue)
      && |outboundQueue| <= limit
      && (connected && socket ==> outboundQueue == [])
      && Framing.OneLine(buffer)
      && written == Calls(wire)
    }

    constructor (limit: nat)
      ensures Valid() && this.limit == limit && issued == [] && wire == [] && !connected
    {
      this.limit := limit;
      connected, socket, buffer, pending, outboundQueue := false, false, "", {}, [];
      issued, wire, written, outcome := [], [], [], map[];
    }

    /** A call is written at once when online; otherwise it is queued, and the oldest queued call is
        dropped, and rejected if still pending, when the queue would exceed its limit. */
    method CallTool(id: CallId)
      requires Valid() && id !in issued
      modifies this
      ensures Valid() && issued == old(issued) + [id]
      ensures connected == old(connected) && socket == old(socket) && buffer == old(buffer)
      ensures connected && socket ==>
                wire == old(wire) + [CallMsg(id)] && outboundQueue == [] && outcome == old(outcome) && pending == old(pending) + {id}
      ensures !(connected && socket) ==>
                wire == old(wire)
                && outboundQueue == Kept(old(outboundQueue) + [id], limit)
                && outcome == WithOutcome(old(outcome), Lost(old(outboundQueue) + [id], limit) * (old(pending) + {id}), Overflowed)
                && pending == old(pending) + {id} - Lost(old(outboundQueue) + [id], limit)
      ensures !(connected && socket) && |old(outboundQueue)| < limit ==>
                outboundQueue == old(outboundQueue) + [id] && outcome == old(outcome) && pending == old(pending) + {id}
      ensures !(connected && socket) && |old(outboundQueue)| == limit ==>
                var oldest := (old(outboundQueue) + [id])[0];
                && outboundQueue == (old(outboundQueue) + [id])[1..] && pending == old(pending) + {id} - {oldest}
                && outcome == if oldest in old(pending) + {id} then old(outcome)[oldest := Overflowed] else old(outcome)
    {
      hide Accounted, InOrder, WithOutcome, Lost, Kept, Calls;
      IssueNext(issued, written + outboundQueue, pending, outcome, id);
      pending := pending + {id};
      issued := issued + [id];
      ghost var queue, before, waiting := outboundQueue, outcome, pending;
      Send(CallMsg(id));
      if !(connected && socket) {
        OldestGoes(queue, id, limit, before, waiting);
      }
    }

    /** Online everything is written at once; offline a call is queued and any other message dropped. */
    method Send(msg: Outbound)
      requires Accounted(issued, pending, outcome) && Framing.OneLine(buffer) && written == Calls(wire)
      requires InOrder(issued, written + outboundQueue + CallIn(msg)) && Underway(pending, written + outboundQueue + CallIn(msg))
      requires |outboundQueue| <= limit && (connected && socket ==> outboundQueue == [])
      modifies this`wire, this`written, this`outboundQueue, this`pending, this`outcome
      ensures Valid()
      ensures connected && socket ==>
                wire == old(wire) + [msg] && outboundQueue == [] && outcome == old(outcome) && pending == old(pending)
      ensures !(connected && socket) ==> wire == old(wire)
      ensures !(connected && socket) && msg.Control? ==>
                outboundQueue == old(outboundQueue) && outcome == old(outcome) && pending == old(pending)
      ensures !(connected && socket) && msg.CallMsg? ==>
                outboundQueue == Kept(old(outboundQueue) + [msg.id], limit)
                && outcome == WithOutcome(old(outcome), Lost(old(outboundQueue) + [msg.id], limit) * old(pending), Overflowed)
                && pending == old(pending) - Lost(old(outboundQueue) + [msg.id], limit)
    {
      hide Accounted, InOrder, Underway, WithOutcome, Lost, Kept, Calls;
      if connected && socket {
        OneMoreSent(wire, msg);
        assert written + outboundQueue + CallIn(msg) == (written + CallIn(msg)) + outboundQueue;
        wire, written := wire + [msg], written + CallIn(msg);
        return;
      }
      match msg
      case Control(_) => assert written + outboundQueue + [] == written + outboundQueue;
      case CallMsg(id) => Enqueue(id);
    }

    /** The bounded queue: the oldest messages make room for the newest. */
    method Enqueue(id: CallId)
      requires Accounted(issued, pending, outcome) && InOrder(issued, written + outboundQueue + [id])
      requires Underway(pending, written + outboundQueue + [id])
      requires |outboundQueue| <= limit && !(connected && socket) && Framing.OneLine(buffer) && written == Calls(wire)
      modifies this`outboundQueue, this`pending, this`outcome
      ensures Valid()
      ensures outboundQueue == Kept(old(outboundQueue) + [id], limit)
      ensures outcome == WithOutcome(old(outcome), Lost(old(outboundQueue) + [id], limit) * old(pending), Overflowed)
      ensures pending == old(pending) - Lost(old(outboundQueue) + [id], limit)
    {
      hide Accounted, InOrder, Underway, Gone, Rest, WithOutcome, Calls, Kept, Lost;
      assert written + outboundQueue + [id] == written + (outboundQueue + [id]);
      outboundQueue := outboundQueue + [id];
      ghost var all, n := outboundQueue, 0;
      NothingLost(all, outcome, pending);
      while |outboundQueue| > limit
        invariant 0 <= n <= |all| && outboundQueue == Rest(all, n) && |outboundQueue| == |all| - n && (n > 0 ==> |outboundQueue| >= limit)
        invariant Accounted(issued, pending, outcome) && InOrder(issued, written + outboundQueue)
        invariant Underway(pending, written + outboundQueue)
        invariant outcome == WithOutcome(old(outcome), Gone(all, n) * old(pending), Overflowed)
        invariant pending == old(pending) - Gone(all, n)
        decreases |outboundQueue|
      {
        var dropped := outboundQueue[0];
        DropFirst(issued, written, outboundQueue, pending, outcome);
        GoneOneMore(all, n);
        LoseOneMore(old(outcome), old(pending), Gone(all, n), dropped);
        outboundQueue := outboundQueue[1..];
        if dropped in pending {
          pending := pending - {dropped};
          outcome := outcome[dropped := Overflowed];
        } else {
          assert pending - {dropped} == pending;
        }
        n := n + 1;
      }
      KeptAndLost(all, limit, n);
    }

    /** Register, reconnect and heartbeat messages touch no call. */
    method SendControl(text: string)
      requires Valid()
      modifies this`wire, this`written, this`outboundQueue, this`pending, this`outcome
      ensures Valid() && outboundQueue == old(outboundQueue) && outcome == old(outcome) && pending == old(pending)
      ensures wire == old(wire) + if connected && socket then [Control(text)] else []
    {
      assert written + outboundQueue + [] == written + outboundQueue;
      Send(Control(text));
    }

    /** The timer of an unsettled call fires; a queued message stays queued. */
    method Timeout(id: CallId)
      requires Valid() && id in pending
      modifies this`pending, this`outcome
      ensures Valid() && pending == old(pending) - {id} && outcome == old(outcome)[id := TimedOut]
    {
      pending := pending - {id};
      outcome := outcome[id := TimedOut];
    }

    /** A toolResult settles its call if that is still pending, and is ignored otherwise. */
    method ToolResult(id: CallId)
      requires Valid()
      modifies this`pending, this`outcome
      ensures Valid() && pending == old(pending) - {id}
      ensures outcome == if id in old(pending) then old(outcome)[id := Resolved] else old(outcome)
    {
      if id in pending {
        pending := pending - {id};
        outcome := outcome[id := Resolved];
      }
    }

    method Close()
      requires Valid()
      modifies this
      ensures Valid() && !socket && pending == {} && connected == old(connected)
      ensures outcome == WithOutcome(old(outcome), old(pending), ClientClosed)
      ensures issued == old(issued) && wire == old(wire) && outboundQueue == old(outboundQueue)
    {
      socket := false;
      outcome := WithOutcome(outcome, pending, ClientClosed);
      pending := {};
    }

    /** The 'connect' event: online, and the queue is flushed in order before anything else is sent. */
    method OnConnect()
      requires Valid()
      modifies this
      ensures Valid() && connected && socket && outboundQueue == []
      ensures written == old(written) + old(outboundQueue) && wire == old(wire) + Messages(old(outboundQueue))
      ensures issued == old(issued) && pending == old(pending) && outcome == old(outcome)
    {
      hide Calls;
      socket, connected := true, true;
      ghost var queue, n := outboundQueue, 0;
      ghost var all := written + outboundQueue;
      assert Messages(queue[..0]) == [] && wire + [] == wire;
      while |outboundQueue| > 0
        invariant 0 <= n <= |queue| && outboundQueue == queue[n..] && wire == old(wire) + Messages(queue[..n])
        invariant written + outboundQueue == all && written == Calls(wire)
        invariant issued == old(issued) && pending == old(pending) && outcome == old(outcome) && connected && socket
        invariant Framing.OneLine(buffer)
        decreases |outboundQueue|
      {
        var msg := outboundQueue[0];
        assert (written + [msg]) + outboundQueue[1..] == written + outboundQueue;
        OneMoreSent(wire, CallMsg(msg));
        assert Messages(queue[..n + 1]) == Messages(queue[..n]) + [CallMsg(msg)];
        wire, written, outboundQueue, n := wire + [CallMsg(msg)], written + [msg], outboundQueue[1..], n + 1;
      }
      assert queue[..n] == queue;
      assert written == all && written + outboundQueue == all;
      assert all == old(written) + old(outboundQueue);
    }

    method OnSocketClose()
      requires Valid()
      modifies this`connected, this`socket
      ensures Valid() && !connected && !socket
    {
      connected, socket := false, false;
    }

    method OnData(chunk: string) returns (lines: seq<string>)
      requires Valid()
      modifies this`buffer
      ensures Valid() && (lines, buffer) == Framing.Feed(old(buffer), [chunk])
    {
      Framing.FeedOne(buffer, chunk);
      Framing.SplitAccounts(buffer + chunk);
      lines, buffer := Framing.TakeLines(buffer + chunk);
    }
  }

  /** A fresh id comes after everything written or queued so far. */
  lemma IssueNext(issued: seq<CallId>, q: seq<CallId>, pending: set<CallId>, outcome: map<CallId, Outcome>, id: CallId)
    requires id !in issued && InOrder(issued, q) && Accounted(issued, pending, outcome)
    ensures InOrder(issued + [id], q + [id])
    ensures Accounted(issued + [id], pending + {id}, outcome)
  {
    var more := issued + [id];
    assert Issued(more, |issued|, id);
    forall a | a in issued ensures Earlier(more, a, id) {
      var i :| 0 <= i < |issued| && issued[i] == a;
      assert Issued(more, i, a);
    }
    forall a, b | Earlier(issued, a, b) ensures Earlier(more, a, b) {
      var i, k :| i < k && Issued(issued, i, a) && Issued(issued, k, b);
      assert Issued(more, i, a) && Issued(more, k, b);
    }
    forall x | x in Elements(more) ensures x in Elements(issued) || x == id {
    }
    forall x | x in Elements(issued) ensures x in Elements(more) {
      var i :| 0 <= i < |issued| && issued[i] == x;
      assert more[i] == x;
    }
    assert more[|issued|] == id && id !in Elements(issued);
    assert Elements(more) == Elements(issued) + {id};
  }

  /** Dropping the oldest queued message keeps the order, and rejects its call if that is still pending. */
  lemma DropFirst(issued: seq<CallId>, written: seq<CallId>, queue: seq<CallId>, pending: set<CallId>, outcome: map<CallId, Outcome>)
    requires queue != [] && InOrder(issued, written + queue)
    requires Accounted(issued, pending, outcome) && Underway(pending, written + queue)
    ensures InOrder(issued, written + queue[1..])
    ensures Underway(pending - {queue[0]}, written + queue[1..])
    ensures Accounted(issued, pending - {queue[0]}, if queue[0] in pending then outcome[queue[0] := Overflowed] else outcome)
  {
    hide Accounted, InOrder, Underway;
    DropKeepsOrder(issued, written, queue);
    DropKeepsUnderway(pending, written, queue);
    DropKeepsAccount(issued, pending, outcome, queue[0]);
  }

  lemma DropKeepsOrder(issued: seq<CallId>, written: seq<CallId>, queue: seq<CallId>)
    requires queue != [] && InOrder(issued, written + queue)
    ensures InOrder(issued, written + queue[1..])
  {
    var q, r := written + queue, written + queue[1..];
    forall i | 0 <= i < |r| ensures r[i] == q[if i < |written| then i else i + 1] {
    }
  }

  lemma DropKeepsUnderway(pending: set<CallId>, written: seq<CallId>, queue: seq<CallId>)
    requires queue != [] && Underway(pending, written + queue)
    ensures Underway(pending - {queue[0]}, written + queue[1..])
  {
    forall id | id in pending - {queue[0]} ensures id in written + queue[1..] {
      assert id in written + queue;
      assert queue == [queue[0]] + queue[1..];
    }
  }

  lemma DropKeepsAccount(issued: seq<CallId>, pending: set<CallId>, outcome: map<CallId, Outcome>, id: CallId)
    requires Accounted(issued, pending, outcome)
    ensures Accounted(issued, pending - {id}, if id in pending then outcome[id := Overflowed] else outcome)
  {
    hide Distinct, Elements;
    if id in pending {
      assert outcome[id := Overflowed].Keys == outcome.Keys + {id};
    } else {
      assert pending - {id} == pending;
    }
  }

  lemma LoseOneMore(outcome: map<CallId, Outcome>, pending: set<CallId>, lost: set<CallId>, id: CallId)
    ensures var now := WithOutcome(outcome, lost * pending, Overflowed);
            && (if id in pending - lost then now[id := Overflowed] else now)
               == WithOutcome(outcome, (lost + {id}) * pending, Overflowed)
            && pending - lost - {id} == pending - (lost + {id})
  {
  }

  lemma NothingLost(q: seq<CallId>, outcome: map<CallId, Outcome>, pending: set<CallId>)
    ensures Rest(q, 0) == q && Gone(q, 0) == {} && pending - Gone(q, 0) == pending
    ensures WithOutcome(outcome, Gone(q, 0) * pending, Overflowed) == outcome
  {
    assert Gone(q, 0) * pending == {};
  }

  // A queue after its first `n` messages were dropped, and those messages.
  function Rest(q: seq<CallId>, n: nat): seq<CallId>
    requires n <= |q|
  {
    q[n..]
  }

  function Gone(q: seq<CallId>, n: nat): set<CallId>
    requires n <= |q|
  {
    Elements(q[..n])
  }

  lemma OldestGoes(queue: seq<CallId>, id: CallId, limit: nat, outcome: map<CallId, Outcome>, pending: set<CallId>)
    requires |queue| <= limit
    ensures var all := queue + [id];
            var after := WithOutcome(outcome, Lost(all, limit) * pending, Overflowed);
            if |queue| < limit then Kept(all, limit) == all && Lost(all, limit) == {} && after == outcome
            else Kept(all, limit) == all[1..] && Lost(all, limit) == {all[0]}
                 && after == if all[0] in pending then outcome[all[0] := Overflowed] else outcome
  {
    var all := queue + [id];
    if |queue| == limit {
      assert all[..1] == [all[0]];
      assert Elements([all[0]]) == {all[0]} by {
        assert [all[0]][0] == all[0];
      }
    }
  }

  lemma KeptAndLost(q: seq<CallId>, limit: nat, n: nat)
    requires n <= |q| && |q| - n <= limit && (n > 0 ==> |q| - n == limit)
    ensures Kept(q, limit) == Rest(q, n) && Lost(q, limit) == Gone(q, n)
  {
    assert q[..0] == [] && q[0..] == q;
  }

  lemma GoneOneMore(q: seq<CallId>, n: nat)
    requires n < |q|
    ensures Rest(q, n) != [] && Rest(q, n)[0] == q[n] && Rest(q, n + 1) == Rest(q, n)[1..]
    ensures Gone(q, n + 1) == Gone(q, n) + {q[n]}
  {
    assert q[..n + 1] == q[..n] + [q[n]];
    forall x | x in Elements(q[..n]) ensures x in Elements(q[..n + 1]) {
      var i :| 0 <= i < n && q[..n][i] == x;
      assert q[..n + 1][i] == x;
    }
    assert q[..n + 1][n] == q[n];
  }

  /** Nothing is written twice. */
  lemma {:induction false} OrderIsDistinct(issued: seq<CallId>, q: seq<CallId>)
    requires Distinct(issued) && InOrder(issued, q)
    ensures Distinct(q)
  {
    forall i, k | 0 <= i < k < |q| ensures q[i] != q[k] {
      var m, n :| m < n && Issued(issued, m, q[i]) && Issued(issued, n, q[k]);
    }
  }

  function Settled(outcome: map<CallId, Outcome>, how: Outcome): set<CallId> {
    set id | id in outcome && outcome[id] == how
  }

  lemma {:induction false} ElementsCount<T>(q: seq<T>)
    requires Distinct(q)
    ensures |Elements(q)| == |q|
  {
    if q != [] {
      var n := |q| - 1;
      ElementsCount(q[..n]);
      assert Elements(q) == Elements(q[..n]) + {q[n]};
    }
  }

  lemma OutcomesAddUp(outcome: map<CallId, Outcome>)
    ensures |outcome.Keys| == |Settled(outcome, Resolved)| + |Settled(outcome, TimedOut)|
                              + |Settled(outcome, Overflowed)| + |Settled(outcome, ClientClosed)|
  {
    var a, b := Settled(outcome, Resolved), Settled(outcome, TimedOut);
    var c, d := Settled(outcome, Overflowed), Settled(outcome, ClientClosed);
    assert outcome.Keys == (a + b) + (c + d);
    assert (a + b) !! (c + d) && a !! b && c !! d;
    hide Settled;
    assert |(a + b) + (c + d)| == |a + b| + |c + d|;
  }

  /** The calls issued so far are exactly the pending, resolved, timed-out, overflowed and closed ones. */
  lemma FatesAddUp(issued: seq<CallId>, pending: set<CallId>, outcome: map<CallId, Outcome>)
    requires Accounted(issued, pending, outcome)
    ensures |issued| == |pending| + |Settled(outcome, Resolved)| + |Settled(outcome, TimedOut)|
                        + |Settled(outcome, Overflowed)| + |Settled(outcome, ClientClosed)|
  {
    hide Distinct;
    ElementsCount(issued);
    OutcomesAddUp(outcome);
    hide Settled, Elements;
    assert |pending + outcome.Keys| == |pending| + |outcome.Keys|;
  }
}
