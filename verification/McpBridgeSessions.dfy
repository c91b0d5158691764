/**
 Whole requests, from the first line of _send_request() to the result: on a live
 backend, after a crash, and when the backend ends during the wait.
 */
module McpBridgeSessions {
  import opened Basics
  import opened McpBridge
  import opened McpBridgeSafety
  import opened McpBridgeReconnect
  import opened McpBridgeRuns
  import opened McpBridgeAnswers
  import opened McpBridgeReports

  // ----- on a live backend -----

  function Fresh(cmd: int, tool: bool, phase: Phase): Call {
    Call(cmd, tool, phase, None, false)
  }

  lemma {:induction false} Joins(s: Bridge, c: nat, cmd: int, tool: bool) returns (es: seq<Event>, t: Bridge)
    requires Alive(s) && c !in s.calls
    ensures HarmlessRun(s, es, t) && t == s.(calls := s.calls[c := Fresh(cmd, tool, Queued(Current(s)))])
  {
    var u := Next(s, Begin(c, cmd, tool));
    assert Alive(u);
    t := Next(u, Check(c));
    es := [Begin(c, cmd, tool), Check(c)];
    TwoSteps(s, Begin(c, cmd, tool), Check(c));
  }

  /** The state after call `c`, which had the lock, has sent its request on the current connection. */
  predicate HasSent(s: Bridge, t: Bridge, c: nat)
    requires HasCall(s, c) && s.conns != []
  {
    var k := Current(s);
    && |t.conns| == |s.conns| && t.conns[k].queue == s.conns[k].queue && t.conns[k].done == s.conns[k].done
    && t.conns[k].pending == s.conns[k].pending + [Request(s.nextId, s.calls[c].cmd)]
    && t.calls == s.calls[c := s.calls[c].(phase := Waiting(k, k, s.nextId))]
    && t.conns[k].lines == s.conns[k].lines
  }

  lemma {:induction false} Sends(s: Bridge, c: nat) returns (es: seq<Event>, t: Bridge)
    requires Enabled(s, Acquire(c, true)) && Alive(s) && s.transport.value == Current(s)
    requires s.calls[c].phase.gen == Current(s)
    ensures HarmlessRun(s, es, t) && HasSent(s, t, c)
    ensures forall i :: 0 <= i < |es| ==> es[i] == Acquire(c, true) || es[i] == Flushed(c)
  {
    t := Next(s, Acquire(c, true));
    es := [Acquire(c, true)];
    OneStep(s, Acquire(c, true));
    if s.tcp {
      var u := Next(t, Flushed(c));
      OneStep(t, Flushed(c));
      HarmlessRunsJoin(s, es, t, [Flushed(c)], u);
      es, t := es + [Flushed(c)], u;
    }
  }

  /** Steps of one request on its way through connection `k`. */
  predicate Serving(e: Event, k: nat, c: nat, body: int) {
    e == Acquire(c, true) || e == Flushed(c) || e == Answer(k, body) || e == Read(k) || e == Take(c)
  }

  lemma IdsThereAreOld(s: Bridge, k: nat)
    requires Sound(s) && HasConn(s, k)
    ensures forall m :: m in s.conns[k].queue && m.Response? ==> m.reply.id < s.nextId
    ensures forall l :: l in s.conns[k].lines ==> l.id < s.nextId
  {
    var conn := s.conns[k];
    assert ConnOk(s, k, conn);
    forall m | m in conn.queue && m.Response? ensures m.reply.id < s.nextId {
      var i :| 0 <= i < |conn.queue| && conn.queue[i] == m;
      assert KnownMessage(s, conn.queue[i]);
    }
    forall l | l in conn.lines ensures l.id < s.nextId {
      var i :| 0 <= i < |conn.lines| && conn.lines[i] == l;
      assert Known(s, conn.lines[i].id, conn.lines[i].cmd, k);
    }
  }

  /** No reply with a new id is there yet, so the backend makes it. */
  lemma OnlyTheNewOne(s: Bridge, u: Bridge, c: nat, body: int, r: Reply)
    requires Sound(s) && s.conns != [] && HasCall(s, c) && HasSent(s, u, c)
    requires Supplies(u.conns[Current(s)], s.nextId, body, r) && r.cmd == s.calls[c].cmd
    ensures r == Reply(s.nextId, s.calls[c].cmd, body)
  {
    IdsThereAreOld(s, Current(s));
  }

  lemma {:induction false} NewRequestIsAnswered(tcp: bool, es: seq<Event>, s: Bridge, c: nat, body: int)
      returns (fs: seq<Event>, t: Bridge)
    requires HarmlessRun(Init(tcp), es, s) && Enabled(s, Acquire(c, true)) && Alive(s)
    requires s.transport.value == s.calls[c].phase.gen == Current(s)
    ensures HarmlessRun(s, fs, t) && HasCall(t, c)
    ensures t.calls[c].phase == Answered(Reply(s.nextId, s.calls[c].cmd, body))
    ensures forall i :: 0 <= i < |fs| ==> Serving(fs[i], Current(s), c, body)
  {
    HarmlessRunTidy(Init(tcp), es, s);
    var k := Current(s);
    assert WireOk(s, k);
    var gs, u := Sends(s, c);
    HarmlessRunsJoin(Init(tcp), es, s, gs, u);
    assert u.conns[k].pending[|s.conns[k].pending|].id == s.nextId;
    var r := RequestIsAnswered(tcp, es + gs, u, c, body);
    OnlyTheNewOne(s, u, c, body, r);
    var hs: seq<Event>, v: Bridge :| OnlyServes(hs, k, c, body) && HarmlessRun(u, hs, v) && HasCall(v, c) && v.calls[c].phase == Answered(r);
    HarmlessRunsJoin(s, gs, u, hs, v);
    fs, t := gs + hs, v;
    forall i | 0 <= i < |fs| ensures Serving(fs[i], k, c, body) {
      if i < |gs| { assert fs[i] == gs[i]; } else { assert fs[i] == hs[i - |gs|]; }
    }
  }

  /**
   A new call on a live backend whose lock is free: there is a run of the call, the
   backend and the reader in which it returns the backend's answer to its request.
   */
  lemma {:induction false} CallIsAnswered(tcp: bool, es: seq<Event>, s: Bridge, c: nat, cmd: int, tool: bool, body: int)
      returns (fs: seq<Event>, t: Bridge)
    requires HarmlessRun(Init(tcp), es, s) && Alive(s) && LockFree(s, Current(s)) && c !in s.calls
    ensures HarmlessRun(s, fs, t) && HasCall(t, c)
    ensures t.calls[c].phase == Answered(Reply(s.nextId, cmd, body))
  {
    HarmlessRunTidy(Init(tcp), es, s);
    var gs, u := Joins(s, c, cmd, tool);
    HarmlessRunsJoin(Init(tcp), es, s, gs, u);
    var hs, v := NewRequestIsAnswered(tcp, es + gs, u, c, body);
    HarmlessRunsJoin(s, gs, u, hs, v);
    fs, t := gs + hs, v;
  }

  lemma {:induction false} JoinsAgain(s: Bridge, c: nat, cmd: int) returns (es: seq<Event>, t: Bridge)
    requires Alive(s) && HasCall(s, c) && !s.calls[c].told && (s.calls[c].phase.Answered? || s.calls[c].phase.Failed?)
    ensures HarmlessRun(s, es, t)
    ensures t == s.(calls := s.calls[c := s.calls[c].(cmd := cmd, phase := Queued(Current(s)))])
  {
    var u := Next(s, Again(c, cmd));
    assert Alive(u);
    t := Next(u, Check(c));
    es := [Again(c, cmd), Check(c)];
    TwoSteps(s, Again(c, cmd), Check(c));
  }

  /** So does a further request of a call that has its answer or has failed. */
  lemma {:induction false} AgainIsAnswered(tcp: bool, es: seq<Event>, s: Bridge, c: nat, cmd: int, body: int)
      returns (fs: seq<Event>, t: Bridge)
    requires HarmlessRun(Init(tcp), es, s) && Alive(s) && LockFree(s, Current(s))
    requires HasCall(s, c) && !s.calls[c].told && (s.calls[c].phase.Answered? || s.calls[c].phase.Failed?)
    ensures HarmlessRun(s, fs, t) && HasCall(t, c)
    ensures t.calls[c].phase == Answered(Reply(s.nextId, cmd, body))
  {
    HarmlessRunTidy(Init(tcp), es, s);
    var gs, u := JoinsAgain(s, c, cmd);
    HarmlessRunsJoin(Init(tcp), es, s, gs, u);
    var hs, v := NewRequestIsAnswered(tcp, es + gs, u, c, body);
    HarmlessRunsJoin(s, gs, u, hs, v);
    fs, t := gs + hs, v;
  }

  // ----- after a timeout -----

  /** A wait that is given up ends with an error and gives its lock back. */
  lemma GivingUpFreesTheLock(s: Bridge, c: nat)
    requires Tidy(s) && HasCall(s, c) && Holding(s.calls[c].phase)
    ensures Enabled(s, Fail(c)) && Harmless(s, Fail(c))
    ensures var t := Next(s, Fail(c));
            t.calls == s.calls[c := s.calls[c].(phase := Failed)] && t.conns == s.conns
            && LockFree(t, s.calls[c].phase.gen)
  {
    var t := Next(s, Fail(c));
    forall d | d in t.calls ensures !(Holding(t.calls[d].phase) && t.calls[d].phase.gen == s.calls[c].phase.gen) {
      if d != c && Holding(s.calls[d].phase) && s.calls[d].phase.gen == s.calls[c].phase.gen {
        assert SameLock(s.calls[c], s.calls[d]);
      }
    }
  }

  /**
   After a timeout the next call is answered, although the late reply to the request
   given up, or the request itself, is still on the connection in front of its own.
   */
  lemma {:induction false} NextCallIsAnswered(tcp: bool, es: seq<Event>, s: Bridge, c: nat, d: nat, cmd: int, tool: bool,
                                              body: int)
      returns (fs: seq<Event>, t: Bridge)
    requires HarmlessRun(Init(tcp), es, s) && Alive(s) && HasCall(s, c) && d !in s.calls
    requires Holding(s.calls[c].phase) && s.calls[c].phase.gen == Current(s)
    ensures HarmlessRun(s, [Fail(c)] + fs, t) && HasCall(t, d)
    ensures t.calls[d].phase == Answered(Reply(s.nextId, cmd, body))
  {
    HarmlessRunTidy(Init(tcp), es, s);
    GivingUpFreesTheLock(s, c);
    var u := Next(s, Fail(c));
    OneStep(s, Fail(c));
    HarmlessRunsJoin(Init(tcp), es, s, [Fail(c)], u);
    fs, t := CallIsAnswered(tcp, es + [Fail(c)], u, d, cmd, tool, body);
    HarmlessRunsJoin(s, [Fail(c)], u, fs, t);
  }

  // ----- after a crash -----

  /** Up to the hello of the call that finds the crash. */
  lemma {:induction false} Dials(s: Bridge, c: nat, k: nat, reason: int) returns (es: seq<Event>, t: Bridge, l: Loss)
    requires Enabled(s, Check(c)) && Crashed(s, k)
    requires forall d :: d in s.calls ==> Undisturbed(s, s.calls[d])
    ensures HarmlessRun(s, es, t) && l == Loss(k, if s.lastExit.Some? then s.lastExit.value else reason)
    ensures t.calls == s.calls[c := s.calls[c].(phase := Dialing(Some(l)))]
    ensures t.conns == s.conns + [Conn(s.tcp, !s.tcp, false, [], [], false, [])] && t.transport == Some(|s.conns|)
    ensures t.tcp == s.tcp && t.nextId == s.nextId
  {
    t := Next(s, Check(c));
    es := [Check(c)];
    OneStep(s, Check(c));
    if s.lastExit.Some? {
      l := Loss(k, s.lastExit.value);
    } else {
      l := Loss(k, reason);
      var u := Next(t, Reason(c, reason));
      assert forall d :: d in t.calls ==> Undisturbed(t, t.calls[d]);
      OneStep(t, Reason(c, reason));
      HarmlessRunsJoin(s, es, t, [Reason(c, reason)], u);
      es, t := es + [Reason(c, reason)], u;
    }
  }

  /** And the connection is open. */
  lemma {:induction false} Opens(s: Bridge) returns (es: seq<Event>, t: Bridge)
    requires s.conns != [] && s.transport == Some(Current(s))
    requires s.conns[Current(s)] == Conn(s.tcp, !s.tcp, false, [], [], false, [])
    ensures HarmlessRun(s, es, t)
    ensures t == s.(conns := s.conns[Current(s) := Conn(false, true, false, [], [], false, [])])
  {
    es, t := [], s;
    if s.tcp {
      es, t := [Connects(Current(s))], Next(s, Connects(Current(s)));
      OneStep(s, Connects(Current(s)));
    } else {
      assert s.conns[Current(s) := s.conns[Current(s)]] == s.conns;
    }
  }

  /** None of the steps of a request makes or delivers a notice. */
  lemma {:induction false} ServingIsQuiet(s: Bridge, es: seq<Event>, t: Bridge, k: nat, c: nat, body: int)
    requires HarmlessRun(s, es, t) && forall i :: 0 <= i < |es| ==> Serving(es[i], k, c, body)
    ensures Meanwhile(s, es, t, c)
    decreases |es|
  {
    if es != [] {
      assert Serving(es[0], k, c, body);
      forall i | 0 <= i < |es[1..]| ensures Serving(es[1..][i], k, c, body) { assert Serving(es[i + 1], k, c, body); }
      ServingIsQuiet(Next(s, es[0]), es[1..], t, k, c, body);
    }
  }

  lemma NewLockIsFree(s: Bridge, w: Bridge, c: nat)
    requires Sound(s) && HasCall(s, c) && w.calls.Keys == s.calls.Keys && w.calls[c].phase.Queued?
    requires forall d :: d in s.calls && d != c ==> w.calls[d] == s.calls[d]
    ensures LockFree(w, |s.conns|)
  {
    forall d | d in w.calls ensures !(Holding(w.calls[d].phase) && w.calls[d].phase.gen == |s.conns|) {
      if d != c && Holding(w.calls[d].phase) { assert CallOk(s, d, s.calls[d]); }
    }
  }

  /** The hello of the new backend arrives, and the call stands in line for its lock. */
  lemma {:induction false} Reconnects(s: Bridge, c: nat, k: nat, reason: int)
      returns (es: seq<Event>, v: Bridge, l: Loss)
    requires Sound(s) && Enabled(s, Check(c)) && Crashed(s, k)
    requires forall d :: d in s.calls ==> Undisturbed(s, s.calls[d])
    ensures HarmlessRun(s, es, v) && l == Loss(k, if s.lastExit.Some? then s.lastExit.value else reason)
    ensures Enabled(v, Hello(c)) && v.calls[c] == s.calls[c].(phase := Dialing(Some(l)))
    ensures var w := Next(v, Hello(c));
            && Alive(w) && w.nextId == s.nextId && w.conns != [] && w.transport.value == Current(w)
            && HasCall(w, c) && w.calls[c].phase == Queued(Current(w)) && w.calls[c].cmd == s.calls[c].cmd
            && LockFree(w, Current(w))
  {
    var fs, u;
    fs, u, l := Dials(s, c, k, reason);
    var gs, o := Opens(u);
    HarmlessRunsJoin(s, fs, u, gs, o);
    es, v := fs + gs, o;
    NewLockIsFree(s, Next(v, Hello(c)), c);
  }

  /** From the hello on the request goes its way. */
  lemma {:induction false} AnsweredAfterHello(tcp: bool, es: seq<Event>, s: Bridge, gs: seq<Event>, v: Bridge, c: nat,
                                              body: int)
      returns (hs: seq<Event>, t: Bridge)
    requires HarmlessRun(Init(tcp), es, s) && HarmlessRun(s, gs, v) && Enabled(v, Hello(c))
    requires var w := Next(v, Hello(c));
             && Alive(w) && w.conns != [] && w.transport.value == Current(w)
             && HasCall(w, c) && w.calls[c].phase == Queued(Current(w)) && LockFree(w, Current(w))
    ensures var w := Next(v, Hello(c));
            && HarmlessRun(s, gs + [Hello(c)] + hs, t) && Meanwhile(w, hs, t, c) && HasCall(t, c)
            && t.calls[c].phase == Answered(Reply(w.nextId, w.calls[c].cmd, body))
  {
    var w := Next(v, Hello(c));
    OneStep(v, Hello(c));
    HarmlessRunsJoin(s, gs, v, [Hello(c)], w);
    HarmlessRunsJoin(Init(tcp), es, s, gs + [Hello(c)], w);
    hs, t := NewRequestIsAnswered(tcp, es + (gs + [Hello(c)]), w, c, body);
    HarmlessRunsJoin(s, gs + [Hello(c)], w, hs, t);
    ServingIsQuiet(w, hs, t, Current(w), c, body);
  }

  /**
   A tool call that finds its backend crashed, in a state in which a reconnect is
   harmless: there is a run in which it reconnects, returns the new backend's answer
   to its own request, and delivers with it the notice of the loss it found.
   */
  lemma {:induction false} CrashIsReported(tcp: bool, es: seq<Event>, s: Bridge, c: nat, k: nat, reason: int, body: int)
      returns (fs: seq<Event>, t: Bridge, n: Notice)
    requires HarmlessRun(Init(tcp), es, s) && Enabled(s, Check(c)) && Crashed(s, k)
    requires s.calls[c].tool && !s.calls[c].told && forall d :: d in s.calls ==> Undisturbed(s, s.calls[d])
    ensures HarmlessRun(s, fs, t) && HasCall(t, c)
    ensures t.calls[c].phase == Answered(Reply(s.nextId, s.calls[c].cmd, body))
    ensures Enabled(t, Deliver(c)) && Next(t, Deliver(c)).delivered == t.delivered + [(c, n)]
    ensures IsAbout(n, c, Loss(k, if s.lastExit.Some? then s.lastExit.value else reason))
  {
    HarmlessRunTidy(Init(tcp), es, s);
    var gs, v, l := Reconnects(s, c, k, reason);
    var hs;
    hs, t := AnsweredAfterHello(tcp, es, s, gs, v, c, body);
    fs := gs + [Hello(c)] + hs;
    NoticeIsMade(v, Hello(c), c);
    HolderStaysMeanwhile(Next(v, Hello(c)), hs, t, c);
    n := ToolReportsTheLoss(v, Hello(c), c, hs, t);
  }

  // ----- when the backend ends during the wait -----

  function Takes(c: nat, n: nat): seq<Event> {
    seq(n, _ => Take(c))
  }

  ghost predicate FailsSoon(s: Bridge, c: nat) {
    exists n: nat, t :: HarmlessRun(s, Takes(c, n), t) && HasCall(t, c) && t.calls[c].phase == Failed
  }

  lemma {:induction false} SentinelIsReached(s: Bridge, k: nat, c: nat, id: nat, reason: int)
    requires k + 1 == |s.conns| && HasCall(s, c) && s.calls[c].phase == Waiting(k, k, id)
    requires s.conns[k].queue != [] && s.conns[k].queue[|s.conns[k].queue| - 1] == Closed(reason)
    requires NoneQueued(s.conns[k].queue, |s.conns[k].queue|, id)
    ensures FailsSoon(s, c)
    decreases |s.conns[k].queue|
  {
    var t := Next(s, Take(c));
    HeadIsTaken(s, c);
    OneStep(s, Take(c));
    if s.conns[k].queue[0].Closed? {
      assert Takes(c, 1) == [Take(c)];
    } else {
      assert t.conns[k].queue == s.conns[k].queue[1..];
      SentinelIsReached(t, k, c, id, reason);
      var n: nat, u :| HarmlessRun(t, Takes(c, n), u) && HasCall(u, c) && u.calls[c].phase == Failed;
      HarmlessRunsJoin(s, [Take(c)], t, Takes(c, n), u);
      assert [Take(c)] + Takes(c, n) == Takes(c, n + 1);
    }
  }

  /**
   The backend of a waiting call has ended and all its lines are read, without the
   reply: once the reader sees the end the call fails by taking what is in its queue,
   without waiting for a timeout; and the reason is kept for the next check unless
   the end was requested.
   */
  lemma {:induction false} EndOfBackendEndsTheWait(s: Bridge, k: nat, c: nat, id: nat, reason: int)
    requires k + 1 == |s.conns| && HasCall(s, c) && s.calls[c].phase == Waiting(k, k, id) && Enabled(s, Eof(k, reason))
    requires NoneQueued(s.conns[k].queue, |s.conns[k].queue|, id)
    ensures FailsSoon(Next(s, Eof(k, reason)), c)
    ensures Next(s, Eof(k, reason)).lastExit == if s.conns[k].expected then s.lastExit else Some(reason)
  {
    var t := Next(s, Eof(k, reason));
    assert t.conns[k].queue == s.conns[k].queue + [Closed(reason)];
    SentinelIsReached(t, k, c, id, reason);
  }
}
