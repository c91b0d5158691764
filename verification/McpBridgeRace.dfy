/**
 Why the guard of McpBridgeReconnect is the right one: a replacement that disturbs
 a call has a continuation in which the reply of a call that still waits for it is
 discarded by another one.
 */
module McpBridgeRace {
  import opened Basics
  import opened McpBridge
  import opened McpBridgeSafety
  import opened McpBridgeReconnect

  // ----- continuations that lose a reply -----

  ghost predicate CanLose(s: Bridge) {
    exists fs, t, f :: HarmlessRun(s, fs, t) && Loses(t, f)
  }

  lemma LosesNow(s: Bridge, f: Event)
    requires Loses(s, f)
    ensures CanLose(s)
  {
    assert HarmlessRun(s, [], s);
  }

  lemma LosesLater(s: Bridge, e: Event)
    requires Enabled(s, e) && Harmless(s, e) && CanLose(Next(s, e))
    ensures CanLose(s)
  {
    var fs, t, f :| HarmlessRun(Next(s, e), fs, t) && Loses(t, f);
    assert ([e] + fs)[1..] == fs;
    assert HarmlessRun(s, [e] + fs, t);
  }

  /** Call `c` waits on the current connection `k`, which has nothing for it yet. */
  predicate Awaits(s: Bridge, k: nat, c: nat, id: nat) {
    && k + 1 == |s.conns| && HasCall(s, c) && s.calls[c].phase == Waiting(k, k, id)
    && s.conns[k].queue == []
  }

  /** Its request is the next one that the backend answers. */
  predicate NextToAnswer(conn: Conn, id: nat) {
    conn.alive && !conn.done && conn.lines == [] && conn.pending != [] && conn.pending[0].id == id
  }

  /** Two calls read the same queue: the older one gets the reply of the other. */
  lemma SharedQueueLoses(s: Bridge, k: nat, c: nat, d: nat, id: nat)
    requires Awaits(s, k, c, id) && NextToAnswer(s.conns[k], id)
    requires HasCall(s, d) && s.calls[d].phase.Waiting? && s.calls[d].phase.queue == k && s.calls[d].phase.id != id
    ensures CanLose(s)
  {
    var t := Next(s, Answer(k, 0));
    assert t.conns[k].lines[0].id == id;
    var u := Next(t, Read(k));
    assert u.conns[k].queue[0].reply.id == id;
    assert c in u.calls && Holding(u.calls[c].phase) && u.calls[c].phase.id == id;
    LosesNow(u, Take(d));
    LosesLater(t, Read(k));
    LosesLater(s, Answer(k, 0));
  }

  /** An unread line with an id that is waited for lands in the queue of another call. */
  lemma {:induction false} UnreadLineLoses(s: Bridge, k: nat, c: nat, id: nat, d: nat, j: nat, i: nat)
    requires Awaits(s, k, c, id) && j < k && !s.conns[j].done && i < |s.conns[j].lines|
    requires forall l :: 0 <= l < |s.conns[j].lines| ==> s.conns[j].lines[l].id != id
    requires HasCall(s, d) && Holding(s.calls[d].phase) && s.calls[d].phase.id == s.conns[j].lines[i].id
    ensures CanLose(s)
    decreases i
  {
    var t := Next(s, Read(j));
    assert t.conns[k].queue == [Response(s.conns[j].lines[0])];
    if i == 0 {
      assert d in t.calls && Holding(t.calls[d].phase) && t.calls[d].phase.id == s.conns[j].lines[0].id;
      LosesNow(t, Take(c));
    } else {
      var u := Next(t, Take(c));
      assert u.conns[j].lines == s.conns[j].lines[1..];
      UnreadLineLoses(u, k, c, id, d, j, i - 1);
      LosesLater(t, Take(c));
    }
    LosesLater(s, Read(j));
  }

  // ----- a second call after the replacement -----

  /** The connection was replaced, and only calls without a request noticed. */
  ghost predicate Replaced(s: Bridge, u: Bridge) {
    && |u.conns| == |s.conns| + 1 && u.conns[..|s.conns|] == s.conns
    && u.conns[|s.conns|] == Conn(s.tcp, !s.tcp, false, [], [], false, [])
    && u.transport == Some(|s.conns|) && u.tcp == s.tcp && u.nextId == s.nextId
    && (forall c :: c in u.calls ==> c in s.calls && (u.calls[c].phase == s.calls[c].phase || u.calls[c].phase.Dialing?))
    && (forall c :: c in s.calls && !s.calls[c].phase.Started? && !s.calls[c].phase.Asking? ==>
          c in u.calls && u.calls[c] == s.calls[c])
  }

  lemma DialReplaces(s: Bridge, c: nat, lost: Option<Loss>)
    requires HasCall(s, c) && (s.calls[c].phase.Started? || s.calls[c].phase.Asking?) && !Alive(s)
    ensures Replaced(s, Dial(s, c, lost))
  {
  }

  lemma ReplacesReplaced(s: Bridge, e: Event)
    requires Enabled(s, e) && Replaces(s, e)
    ensures Replaced(s, Next(s, e))
  {
    if e.Check? {
      assert !Alive(s);
      DialReplaces(s, e.c, if LostUnexpectedly(s) then Some(Loss(s.transport.value, s.lastExit.value)) else None);
    } else if e.Reason? {
      assert !Alive(s);
      DialReplaces(s, e.c, Some(Loss(s.calls[e.c].phase.conn, e.reason)));
    } else {
      assert e.StartEmu?;
    }
  }

  /** The state after a fresh call has sent its request on the new connection. */
  ghost predicate SecondWaits(s: Bridge, v: Bridge, c: nat) {
    var k := |s.conns|;
    && Awaits(v, k, c, s.nextId) && NextToAnswer(v.conns[k], s.nextId) && v.nextId == s.nextId + 1
    && v.conns[..k] == s.conns && v.transport == Some(k) && v.tcp == s.tcp && c !in s.calls
    && (forall d :: d in v.calls && d != c ==>
          d in s.calls && (v.calls[d].phase == s.calls[d].phase || v.calls[d].phase.Dialing?))
    && (forall d :: d in s.calls && !s.calls[d].phase.Started? && !s.calls[d].phase.Asking? ==>
          d in v.calls && v.calls[d] == s.calls[d])
  }

  lemma {:induction false} BoundOf(keys: set<nat>) returns (max: nat)
    ensures forall c :: c in keys ==> c < max
    decreases keys
  {
    max := 0;
    if keys != {} {
      var c :| c in keys;
      var most := BoundOf(keys - {c});
      max := if most < c then c + 1 else most + 1;
      forall d | d in keys ensures d < max {
        if d != c { assert d in keys - {c}; }
      }
    }
  }

  /** A socket is open before it is used. */
  lemma Opens(s: Bridge, u: Bridge) returns (v: Bridge)
    requires Replaced(s, u)
    ensures |v.conns| == |s.conns| + 1 && v.conns[..|s.conns|] == s.conns
    ensures v.conns[|s.conns|] == Conn(false, true, false, [], [], false, [])
    ensures v == u.(conns := v.conns)
    ensures CanLose(v) ==> CanLose(u)
  {
    v := if s.tcp then Next(u, Connects(|s.conns|)) else u;
    if s.tcp && CanLose(v) { LosesLater(u, Connects(|s.conns|)); }
  }

  lemma Begins(s: Bridge, c: nat) returns (t: Bridge)
    requires c !in s.calls
    ensures t == s.(calls := s.calls[c := Call(0, false, Started, None, false)])
    ensures CanLose(t) ==> CanLose(s)
  {
    t := Next(s, Begin(c, 0, false));
    if CanLose(t) { LosesLater(s, Begin(c, 0, false)); }
  }

  lemma Checks(s: Bridge, c: nat) returns (t: Bridge)
    requires Alive(s) && HasCall(s, c) && s.calls[c].phase.Started?
    ensures t == SetPhase(s, c, Queued(Current(s)))
    ensures CanLose(t) ==> CanLose(s)
  {
    t := Next(s, Check(c));
    if CanLose(t) { LosesLater(s, Check(c)); }
  }

  lemma StillAlive(s: Bridge, t: Bridge)
    requires Alive(s) && t.conns == s.conns && t.transport == s.transport
    ensures Alive(t) && Current(t) == Current(s)
  {
  }

  lemma TwiceSet(calls: map<nat, Call>, c: nat, a: Call, b: Call)
    ensures calls[c := a][c := b] == calls[c := b]
  {
  }

  /** A call that joins now. */
  lemma SecondQueues(u: Bridge, c: nat) returns (v: Bridge)
    requires Alive(u) && c !in u.calls
    ensures v == u.(calls := u.calls[c := Call(0, false, Queued(Current(u)), None, false)])
    ensures CanLose(v) ==> CanLose(u)
  {
    var w := Begins(u, c);
    StillAlive(u, w);
    v := Checks(w, c);
    assert w.calls[c].(phase := Queued(Current(w))) == Call(0, false, Queued(Current(u)), None, false);
    TwiceSet(u.calls, c, Call(0, false, Started, None, false), Call(0, false, Queued(Current(u)), None, false));
  }

  lemma NewLockIsFree(s: Bridge, u: Bridge, v: Bridge, c: nat)
    requires Sound(s) && Replaced(s, u) && c !in s.calls
    requires v.calls == u.calls[c := Call(0, false, Queued(|s.conns|), None, false)]
    ensures LockFree(v, |s.conns|)
  {
    forall d | d in v.calls ensures !(Holding(v.calls[d].phase) && v.calls[d].phase.gen == |s.conns|) {
      if d != c && Holding(v.calls[d].phase) { assert CallOk(s, d, s.calls[d]); }
    }
  }

  lemma Acquires(s: Bridge, c: nat) returns (t: Bridge)
    requires Enabled(s, Acquire(c, true))
    ensures t == Sent(s, c, true)
    ensures CanLose(t) ==> CanLose(s)
  {
    t := Next(s, Acquire(c, true));
    if CanLose(t) { LosesLater(s, Acquire(c, true)); }
  }

  lemma Flushes(s: Bridge, c: nat) returns (t: Bridge)
    requires Enabled(s, Flushed(c))
    ensures t == SetPhase(s, c, Waiting(s.calls[c].phase.gen, Current(s), s.calls[c].phase.id))
    ensures CanLose(t) ==> CanLose(s)
  {
    t := Next(s, Flushed(c));
    if CanLose(t) { LosesLater(s, Flushed(c)); }
  }

  /** A call that has the lock sends its request and waits. */
  lemma WritesAndWaits(s: Bridge, c: nat) returns (v: Bridge)
    requires Enabled(s, Acquire(c, true)) && s.transport.value == Current(s)
    ensures var k := Current(s);
            && v.conns == s.conns[k := Written(s.conns[k], Request(s.nextId, s.calls[c].cmd))]
            && v.calls == s.calls[c := s.calls[c].(phase := Waiting(s.calls[c].phase.gen, k, s.nextId))]
            && v.transport == s.transport && v.tcp == s.tcp && v.nextId == s.nextId + 1
    ensures CanLose(v) ==> CanLose(s)
  {
    v := Acquires(s, c);
    if s.tcp { v := Flushes(v, c); }
  }

  lemma SecondSends(s: Bridge, u: Bridge) returns (v: Bridge, c: nat)
    requires Sound(s) && Replaced(s, u)
    ensures SecondWaits(s, v, c)
    ensures CanLose(v) ==> CanLose(u)
  {
    c := BoundOf(s.calls.Keys);
    var x := Opens(s, u);
    var y := SecondQueues(x, c);
    NewLockIsFree(s, u, y, c);
    v := WritesAndWaits(y, c);
  }

  // ----- the four ways to be disturbed -----

  /** Between its write and its wait: the wait begins on the new queue. */
  lemma SendingLoses(s: Bridge, v: Bridge, c: nat, d: nat)
    requires Sound(s) && SecondWaits(s, v, c) && HasCall(s, d) && s.calls[d].phase.Sending?
    ensures CanLose(v)
  {
    assert CallOk(s, d, s.calls[d]);
    SharedQueueLoses(Next(v, Flushed(d)), |s.conns|, c, d, s.nextId);
    LosesLater(v, Flushed(d));
  }

  /** A late reply at the head of its queue: it goes on with the new queue. */
  lemma StaleHeadLoses(s: Bridge, v: Bridge, c: nat, d: nat)
    requires Sound(s) && SecondWaits(s, v, c) && HasCall(s, d) && s.calls[d].phase.Waiting?
    requires !NotStale(s.conns[s.calls[d].phase.queue].queue, s.calls[d].phase.id)
    ensures CanLose(v)
  {
    assert CallOk(s, d, s.calls[d]);
    var q := s.calls[d].phase.queue;
    assert v.conns[q] == s.conns[q];
    SharedQueueLoses(Next(v, Take(d)), |s.conns|, c, d, s.nextId);
    LosesLater(v, Take(d));
  }

  /** Its reply is still on a line. */
  lemma UnreadReplyLoses(s: Bridge, v: Bridge, c: nat, d: nat, j: nat)
    requires Sound(s) && Tidy(s) && SecondWaits(s, v, c) && HasCall(s, d) && s.calls[d].phase.Waiting?
    requires HasConn(s, j) && !OffTheLines(s.conns[j], s.calls[d].phase.id)
    ensures CanLose(v)
  {
    var i :| 0 <= i < |s.conns[j].lines| && s.conns[j].lines[i].id == s.calls[d].phase.id;
    assert v.conns[j] == s.conns[j] && WireOk(s, j) && ConnOk(s, j, s.conns[j]);
    forall l | 0 <= l < |s.conns[j].lines| ensures s.conns[j].lines[l].id != s.nextId {
      assert Known(s, s.conns[j].lines[l].id, s.conns[j].lines[l].cmd, j);
    }
    UnreadLineLoses(v, |s.conns|, c, s.nextId, d, j, i);
  }

  lemma OldLockIsFreed(s: Bridge, v: Bridge, c: nat, h: nat)
    requires Tidy(s) && SecondWaits(s, v, c) && HasCall(v, h) && Holding(v.calls[h].phase) && h != c
    requires v.calls[h].phase.gen < |s.conns|
    ensures LockFree(SetPhase(v, h, Failed), v.calls[h].phase.gen)
  {
    forall f | f in v.calls && f != c && SameLock(v.calls[f], v.calls[h]) ensures f == h {
      assert SameLock(s.calls[f], s.calls[h]);
    }
  }

  lemma LateSenderLoses(s: Bridge, x: Bridge, c: nat, d: nat)
    requires Awaits(x, |s.conns|, c, s.nextId) && NextToAnswer(x.conns[|s.conns|], s.nextId)
    requires x.nextId == s.nextId + 1 && x.transport == Some(|s.conns|) && c != d
    requires HasCall(x, d) && x.calls[d].phase.Queued? && LockFree(x, x.calls[d].phase.gen)
    ensures CanLose(x)
  {
    var y := WritesAndWaits(x, d);
    SharedQueueLoses(y, |s.conns|, c, d, s.nextId);
  }

  /** In line for the old lock: it sends its request on the new connection. */
  lemma QueuedLoses(s: Bridge, v: Bridge, c: nat, d: nat)
    requires Sound(s) && Tidy(s) && SecondWaits(s, v, c) && HasCall(s, d) && s.calls[d].phase.Queued?
    ensures CanLose(v)
  {
    assert CallOk(s, d, s.calls[d]);
    var gen := s.calls[d].phase.gen;
    if LockFree(v, gen) {
      LateSenderLoses(s, v, c, d);
    } else {
      var h :| h in v.calls && Holding(v.calls[h].phase) && v.calls[h].phase.gen == gen;
      OldLockIsFreed(s, v, c, h);
      LateSenderLoses(s, Next(v, Fail(h)), c, d);
      LosesLater(v, Fail(h));
    }
  }

  lemma DisturbedLoses(s: Bridge, e: Event)
    requires Sound(s) && Tidy(s) && Enabled(s, e) && !Harmless(s, e)
    ensures CanLose(Next(s, e))
  {
    var d :| d in s.calls && !Undisturbed(s, s.calls[d]);
    ReplacesReplaced(s, e);
    var v, c := SecondSends(s, Next(s, e));
    match s.calls[d].phase
    case Queued(_) => QueuedLoses(s, v, c, d);
    case Sending(_, _) => SendingLoses(s, v, c, d);
    case Waiting(_, q, id) =>
      if q < |s.conns| && !NotStale(s.conns[q].queue, id) {
        StaleHeadLoses(s, v, c, d);
      } else {
        var j :| 0 <= j < |s.conns| && !OffTheLines(s.conns[j], id);
        UnreadReplyLoses(s, v, c, d, j);
      }
    case _ =>
  }

  lemma {:induction false} HarmlessLosesNothing(s: Bridge, e: Event)
    requires Sound(s) && Tidy(s) && Apart(s) && Enabled(s, e) && Harmless(s, e)
    ensures !CanLose(Next(s, e))
  {
    var u := Next(s, e);
    NextSound(s, e);
    NextTidy(s, e);
    NextApart(s, e);
    forall fs, t, f | HarmlessRun(u, fs, t) ensures !Loses(t, f) {
      HarmlessRunTidy(u, fs, t);
      DiscardsNothingLive(t, f);
    }
  }

  /**
   The guard is exact. After any harmless run, a step is harmless if and only if no
   harmless continuation of it discards a reply that a call still waits for.
   */
  lemma {:induction false} HarmlessIffNothingIsLost(tcp: bool, es: seq<Event>, s: Bridge, e: Event)
    requires HarmlessRun(Init(tcp), es, s) && Enabled(s, e)
    ensures Harmless(s, e) <==> !CanLose(Next(s, e))
  {
    HarmlessRunTidy(Init(tcp), es, s);
    if Harmless(s, e) {
      HarmlessLosesNothing(s, e);
    } else {
      DisturbedLoses(s, e);
    }
  }
}
