/**
 What the bridge is for: a request that was sent is answered, and the answer is
 what its call returns.
 */
module McpBridgeAnswers {
  import opened Basics
  import opened McpBridge
  import opened McpBridgeSafety
  import opened McpBridgeReconnect
  import opened McpBridgeRuns

  // ----- one message -----

  /**
   What a waiting call makes of the head of its queue: its reply is what it returns,
   another reply leaves it waiting for its own, and the sentinel ends the wait.
   */
  lemma HeadIsTaken(s: Bridge, c: nat)
    requires Enabled(s, Take(c))
    ensures var (p, call, head) := (s.calls[c].phase, Next(s, Take(c)).calls[c], s.conns[s.calls[c].phase.queue].queue[0]);
            && (head.Response? && head.reply.id == p.id ==> call == s.calls[c].(phase := Answered(head.reply)))
            && (head.Response? && head.reply.id != p.id ==>
                  call.phase.Waiting? && call.phase.id == p.id && call.phase.gen == p.gen)
            && (head.Closed? ==> call == s.calls[c].(phase := Failed))
  {
  }

  // ----- sentinels -----

  predicate AllReplies(queue: seq<Message>) {
    forall i :: 0 <= i < |queue| ==> queue[i].Response?
  }

  /** The sentinel comes after the reader has ended, so a queue with a reader has none. */
  ghost predicate SentinelsLast(s: Bridge) {
    forall k :: 0 <= k < |s.conns| ==> s.conns[k].done || AllReplies(s.conns[k].queue)
  }

  /** Every connection of `t` is new, or has no message but replies beyond those it had. */
  lemma OnlyRepliesCome(s: Bridge, t: Bridge)
    requires SentinelsLast(s)
    requires forall k :: 0 <= k < |t.conns| ==>
               || t.conns[k].done || t.conns[k].queue == []
               || (k < |s.conns| && !s.conns[k].done && (AllReplies(s.conns[k].queue) ==> AllReplies(t.conns[k].queue)))
    ensures SentinelsLast(t)
  {
  }

  lemma WireSentinels(s: Bridge, e: Event)
    requires SentinelsLast(s) && Enabled(s, e)
    requires e.Answer? || e.Drop? || e.Die? || e.Connects? || e.Eof? || e.MarkStop? || e.Detach?
    ensures SentinelsLast(Next(s, e))
  {
  }

  lemma CallSentinels(s: Bridge, e: Event)
    requires SentinelsLast(s) && Enabled(s, e)
    requires e.Begin? || e.Again? || e.Hello? || e.Flushed? || e.Fail? || e.Deliver?
    ensures SentinelsLast(Next(s, e))
  {
    assert Next(s, e).conns == s.conns;
  }

  lemma QueueSentinels(s: Bridge, e: Event)
    requires SentinelsLast(s) && Enabled(s, e)
    requires e.Acquire? || e.Take? || e.Read?
    ensures SentinelsLast(Next(s, e))
  {
    OnlyRepliesCome(s, Next(s, e));
  }

  lemma DialSentinels(s: Bridge, e: Event)
    requires SentinelsLast(s) && Enabled(s, e)
    requires e.Check? || e.Reason? || e.StartEmu?
    ensures SentinelsLast(Next(s, e))
  {
    assert Next(s, e).conns == s.conns || Next(s, e).conns == NewConn(s).conns;
  }

  lemma NextSentinels(s: Bridge, e: Event)
    requires SentinelsLast(s) && Enabled(s, e)
    ensures SentinelsLast(Next(s, e))
  {
    if e.Check? || e.Reason? || e.StartEmu? {
      DialSentinels(s, e);
    } else if e.Acquire? || e.Take? || e.Read? {
      QueueSentinels(s, e);
    } else if e.Begin? || e.Again? || e.Hello? || e.Flushed? || e.Fail? || e.Deliver? {
      CallSentinels(s, e);
    } else {
      WireSentinels(s, e);
    }
  }

  lemma {:induction false} RunSentinels(s: Bridge, es: seq<Event>, t: Bridge)
    requires SentinelsLast(s) && Run(s, es, t)
    ensures SentinelsLast(t)
    decreases |es|
  {
    if es != [] {
      NextSentinels(s, es[0]);
      RunSentinels(Next(s, es[0]), es[1..], t);
    }
  }

  // ----- from the wire to the call -----

  /** Steps of the backend and the reader of connection `k`, and of call `c` only; the backend answers with `body`. */
  predicate OnlyServes(fs: seq<Event>, k: nat, c: nat, body: int) {
    forall i :: 0 <= i < |fs| ==> fs[i] == Answer(k, body) || fs[i] == Read(k) || fs[i] == Take(c)
  }

  /** There is such a run in which the call ends with the reply. */
  ghost predicate EndsWith(s: Bridge, k: nat, c: nat, body: int, r: Reply) {
    exists fs, t :: OnlyServes(fs, k, c, body) && HarmlessRun(s, fs, t) && HasCall(t, c) && t.calls[c].phase == Answered(r)
  }

  lemma EndsLater(s: Bridge, e: Event, k: nat, c: nat, body: int, r: Reply)
    requires e == Answer(k, body) || e == Read(k) || e == Take(c)
    requires Enabled(s, e) && Harmless(s, e) && EndsWith(Next(s, e), k, c, body, r)
    ensures EndsWith(s, k, c, body, r)
  {
    var fs, t :| OnlyServes(fs, k, c, body) && HarmlessRun(Next(s, e), fs, t) && HasCall(t, c) && t.calls[c].phase == Answered(r);
    var gs := [e] + fs;
    assert gs[1..] == fs;
    assert OnlyServes(gs, k, c, body) && HarmlessRun(s, gs, t);
  }

  lemma EndsNow(s: Bridge, k: nat, c: nat, body: int, r: Reply)
    requires HasCall(s, c) && s.calls[c].phase == Answered(r)
    ensures EndsWith(s, k, c, body, r)
  {
    assert OnlyServes([], k, c, body) && HarmlessRun(s, [], s);
  }

  /** The call waits on the current connection `k`. */
  predicate WaitsOn(s: Bridge, k: nat, c: nat, id: nat) {
    && k + 1 == |s.conns| && HasCall(s, c) && s.calls[c].phase == Waiting(k, k, id)
    && !s.conns[k].done && AllReplies(s.conns[k].queue)
  }

  predicate NoneQueued(queue: seq<Message>, n: nat, id: nat) {
    forall i :: 0 <= i < n && i < |queue| ==> queue[i].Response? ==> queue[i].reply.id != id
  }

  predicate NoneOnLine(lines: seq<Reply>, n: nat, id: nat) {
    forall i :: 0 <= i < n && i < |lines| ==> lines[i].id != id
  }

  predicate NonePending(pending: seq<Request>, n: nat, id: nat) {
    forall i :: 0 <= i < n && i < |pending| ==> pending[i].id != id
  }

  lemma {:induction false} QueuedIsTaken(s: Bridge, k: nat, c: nat, id: nat, i: nat, body: int)
    requires WaitsOn(s, k, c, id) && i < |s.conns[k].queue|
    requires s.conns[k].queue[i].reply.id == id && NoneQueued(s.conns[k].queue, i, id)
    ensures EndsWith(s, k, c, body, s.conns[k].queue[i].reply)
    decreases i
  {
    var t := Next(s, Take(c));
    HeadIsTaken(s, c);
    if i == 0 {
      EndsNow(t, k, c, body, s.conns[k].queue[0].reply);
    } else {
      assert t.conns[k].queue == s.conns[k].queue[1..];
      QueuedIsTaken(t, k, c, id, i - 1, body);
    }
    EndsLater(s, Take(c), k, c, body, s.conns[k].queue[i].reply);
  }

  lemma {:induction false} LineIsTaken(s: Bridge, k: nat, c: nat, id: nat, i: nat, body: int)
    requires WaitsOn(s, k, c, id) && NoneQueued(s.conns[k].queue, |s.conns[k].queue|, id)
    requires i < |s.conns[k].lines| && s.conns[k].lines[i].id == id && NoneOnLine(s.conns[k].lines, i, id)
    ensures EndsWith(s, k, c, body, s.conns[k].lines[i])
    decreases i
  {
    var t := Next(s, Read(k));
    var (q, l) := (s.conns[k].queue, s.conns[k].lines);
    assert t.conns[k].queue == q + [Response(l[0])] && t.conns[k].lines == l[1..];
    if i == 0 {
      QueuedIsTaken(t, k, c, id, |q|, body);
    } else {
      LineIsTaken(t, k, c, id, i - 1, body);
    }
    EndsLater(s, Read(k), k, c, body, l[i]);
  }

  lemma {:induction false} PendingIsTaken(s: Bridge, k: nat, c: nat, id: nat, i: nat, body: int)
    requires WaitsOn(s, k, c, id) && s.conns[k].alive && NoneQueued(s.conns[k].queue, |s.conns[k].queue|, id)
    requires NoneOnLine(s.conns[k].lines, |s.conns[k].lines|, id)
    requires i < |s.conns[k].pending| && s.conns[k].pending[i].id == id && NonePending(s.conns[k].pending, i, id)
    ensures EndsWith(s, k, c, body, Reply(id, s.conns[k].pending[i].cmd, body))
    decreases i
  {
    var t := Next(s, Answer(k, body));
    var (l, p) := (s.conns[k].lines, s.conns[k].pending);
    assert t.conns[k].lines == l + [Reply(p[0].id, p[0].cmd, body)] && t.conns[k].pending == p[1..];
    if i == 0 {
      LineIsTaken(t, k, c, id, |l|, body);
    } else {
      PendingIsTaken(t, k, c, id, i - 1, body);
    }
    EndsLater(s, Answer(k, body), k, c, body, Reply(id, p[i].cmd, body));
  }

  // ----- a request on its way -----

  predicate Queued(conn: Conn, id: nat) {
    exists i :: 0 <= i < |conn.queue| && conn.queue[i].Response? && conn.queue[i].reply.id == id
  }

  predicate OnLine(conn: Conn, id: nat) {
    exists i :: 0 <= i < |conn.lines| && conn.lines[i].id == id
  }

  predicate Pending(conn: Conn, id: nat) {
    exists i :: 0 <= i < |conn.pending| && conn.pending[i].id == id
  }

  lemma FirstQueued(queue: seq<Message>, id: nat, n: nat) returns (i: nat)
    requires n < |queue| && queue[n].Response? && queue[n].reply.id == id
    ensures i <= n && queue[i].Response? && queue[i].reply.id == id && NoneQueued(queue, i, id)
  {
    i := 0;
    while !(queue[i].Response? && queue[i].reply.id == id)
      invariant i <= n && NoneQueued(queue, i, id)
      decreases n - i
    {
      i := i + 1;
    }
  }

  lemma FirstOnLine(lines: seq<Reply>, id: nat, n: nat) returns (i: nat)
    requires n < |lines| && lines[n].id == id
    ensures i <= n && lines[i].id == id && NoneOnLine(lines, i, id)
  {
    i := 0;
    while lines[i].id != id
      invariant i <= n && NoneOnLine(lines, i, id)
      decreases n - i
    {
      i := i + 1;
    }
  }

  lemma FirstPending(pending: seq<Request>, id: nat, n: nat) returns (i: nat)
    requires n < |pending| && pending[n].id == id
    ensures i <= n && pending[i].id == id && NonePending(pending, i, id)
  {
    i := 0;
    while pending[i].id != id
      invariant i <= n && NonePending(pending, i, id)
      decreases n - i
    {
      i := i + 1;
    }
  }

  /** Where the reply to request `id` comes from: it is there already, or the backend makes it with `body`. */
  predicate Supplies(conn: Conn, id: nat, body: int, r: Reply) {
    && r.id == id
    && (Response(r) in conn.queue || r in conn.lines || (r.body == body && Request(id, r.cmd) in conn.pending))
  }

  lemma OneIsTaken(s: Bridge, k: nat, c: nat, id: nat, body: int) returns (r: Reply)
    requires WaitsOn(s, k, c, id) && (s.conns[k].pending != [] ==> s.conns[k].alive)
    requires Queued(s.conns[k], id) || OnLine(s.conns[k], id) || Pending(s.conns[k], id)
    ensures EndsWith(s, k, c, body, r) && Supplies(s.conns[k], id, body, r)
  {
    var conn := s.conns[k];
    if n :| 0 <= n < |conn.queue| && conn.queue[n].Response? && conn.queue[n].reply.id == id {
      var i := FirstQueued(conn.queue, id, n);
      QueuedIsTaken(s, k, c, id, i, body);
      r := conn.queue[i].reply;
      assert conn.queue[i] == Response(r);
    } else if n :| 0 <= n < |conn.lines| && conn.lines[n].id == id {
      var i := FirstOnLine(conn.lines, id, n);
      LineIsTaken(s, k, c, id, i, body);
      r := conn.lines[i];
    } else {
      var n :| 0 <= n < |conn.pending| && conn.pending[n].id == id;
      var i := FirstPending(conn.pending, id, n);
      PendingIsTaken(s, k, c, id, i, body);
      r := Reply(id, conn.pending[i].cmd, body);
      assert conn.pending[i] == Request(id, r.cmd);
    }
  }

  lemma SuppliedIsKnown(s: Bridge, k: nat, id: nat, body: int, r: Reply)
    requires Sound(s) && HasConn(s, k) && Supplies(s.conns[k], id, body, r)
    ensures id in s.issued && s.issued[id].cmd == r.cmd
  {
    var conn := s.conns[k];
    assert ConnOk(s, k, conn);
    if Response(r) in conn.queue {
      var i :| 0 <= i < |conn.queue| && conn.queue[i] == Response(r);
      assert KnownMessage(s, conn.queue[i]);
    } else if r in conn.lines {
      var i :| 0 <= i < |conn.lines| && conn.lines[i] == r;
      assert Known(s, conn.lines[i].id, conn.lines[i].cmd, k);
    } else {
      var i :| 0 <= i < |conn.pending| && conn.pending[i] == Request(id, r.cmd);
      assert Known(s, conn.pending[i].id, conn.pending[i].cmd, k);
    }
  }

  /**
   A request is answered. After any run with harmless reconnects: if a call waits on
   the current connection, whose reader has not ended, and its request or the reply
   to it is still there, then steps of that backend and that reader, and of the call
   itself, end with the call returning the reply to its own request: the one that
   was there, or the one the backend makes.
   */
  lemma {:induction false} RequestIsAnswered(tcp: bool, es: seq<Event>, s: Bridge, c: nat, body: int) returns (r: Reply)
    requires HarmlessRun(Init(tcp), es, s) && HasCall(s, c) && s.calls[c].phase.Waiting?
    requires s.calls[c].phase.gen + 1 == |s.conns| && !s.conns[s.calls[c].phase.gen].done
    requires var (conn, id) := (s.conns[s.calls[c].phase.gen], s.calls[c].phase.id);
             Queued(conn, id) || OnLine(conn, id) || Pending(conn, id)
    ensures var (k, id) := (s.calls[c].phase.gen, s.calls[c].phase.id);
            && EndsWith(s, k, c, body, r) && Supplies(s.conns[k], id, body, r)
            && r.id == id && r.cmd == s.calls[c].cmd
  {
    HarmlessRunTidy(Init(tcp), es, s);
    HarmlessRunRuns(Init(tcp), es, s);
    RunSentinels(Init(tcp), es, s);
    var (k, id) := (s.calls[c].phase.gen, s.calls[c].phase.id);
    assert Placed(s, s.calls[c]) && WireOk(s, k) && CallOk(s, c, s.calls[c]);
    r := OneIsTaken(s, k, c, id, body);
    SuppliedIsKnown(s, k, id, body, r);
  }
}
