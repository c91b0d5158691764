/**
 When a connection may be replaced under waiting requests: the state in which
 that harms nobody, the invariant of the runs in which it is the only one, and
 that such runs discard late replies only.
 */
module McpBridgeReconnect {
  import opened Basics
  import opened McpBridge
  import opened McpBridgeSafety

  // ----- harmless replacements -----

  /** The request with this id is still waited for. */
  ghost predicate Live(s: Bridge, id: nat) {
    exists c :: c in s.calls && Holding(s.calls[c].phase) && s.calls[c].phase.id == id
  }

  predicate Replaces(s: Bridge, e: Event)
    requires Enabled(s, e)
  {
    |Next(s, e).conns| > |s.conns|
  }

  /** The next message is not the reply to another request. */
  predicate NotStale(queue: seq<Message>, id: nat) {
    queue != [] && queue[0].Response? ==> queue[0].reply.id == id
  }

  predicate OffTheLines(conn: Conn, id: nat) {
    forall i :: 0 <= i < |conn.lines| ==> conn.lines[i].id != id
  }

  /**
   A replacement does not concern the call: it does not stand in line for the old
   lock and is not between its write and its wait; and if it waits, its reply is not
   unread on a line, and it would not discard the head of its queue and look up the
   queue anew. All it can still get is its own reply, the sentinel or a timeout.
   */
  predicate Undisturbed(s: Bridge, call: Call) {
    match call.phase
    case Queued(_) => false
    case Sending(_, _) => false
    case Waiting(_, q, id) =>
      && (q < |s.conns| ==> NotStale(s.conns[q].queue, id))
      && (forall k :: 0 <= k < |s.conns| ==> OffTheLines(s.conns[k], id))
    case _ => true
  }

  /** The guard of the step: if it replaces the connection, no call is disturbed. */
  ghost predicate Harmless(s: Bridge, e: Event)
    requires Enabled(s, e)
  {
    Replaces(s, e) ==> forall c :: c in s.calls ==> Undisturbed(s, s.calls[c])
  }

  ghost predicate HarmlessRun(s: Bridge, es: seq<Event>, t: Bridge)
    decreases |es|
  {
    if es == [] then s == t
    else Enabled(s, es[0]) && Harmless(s, es[0]) && HarmlessRun(Next(s, es[0]), es[1..], t)
  }

  // ----- the invariant -----

  predicate SentOn(s: Bridge, id: nat, k: nat) {
    id in s.issued && s.issued[id].conn == k
  }

  predicate AtMost(conn: Conn, max: nat) {
    && (forall i :: 0 <= i < |conn.queue| ==> conn.queue[i].Response? ==> conn.queue[i].reply.id <= max)
    && (forall i :: 0 <= i < |conn.lines| ==> conn.lines[i].id <= max)
    && (forall i :: 0 <= i < |conn.pending| ==> conn.pending[i].id <= max)
  }

  /** What a call that waits on a replaced connection can rely on. */
  predicate LeftAlone(conn: Conn, id: nat) {
    NotStale(conn.queue, id) && OffTheLines(conn, id) && AtMost(conn, id)
  }

  /**
   The lock that is waited for is the current one; a request that is waited for was
   sent on the connection of its lock and queue, and is the newest of all if that
   is the current one.
   */
  predicate Placed(s: Bridge, call: Call) {
    match call.phase
    case Queued(gen) => gen + 1 == |s.conns|
    case Sending(gen, id) => gen + 1 == |s.conns| && id + 1 == s.nextId && SentOn(s, id, gen)
    case Waiting(gen, q, id) =>
      && gen == q < |s.conns| && SentOn(s, id, gen)
      && if gen + 1 == |s.conns| then id + 1 == s.nextId else LeftAlone(s.conns[gen], id)
    case _ => true
  }

  /** Only the current connection, while it is alive, has requests to answer; live or unread ones have a reader. */
  predicate WireOk(s: Bridge, k: nat)
    requires k < |s.conns|
  {
    && (s.conns[k].pending != [] ==> k + 1 == |s.conns| && s.conns[k].alive && s.transport.Some?)
    && (s.conns[k].lines != [] ==> !s.conns[k].done)
    && (s.conns[k].done ==> !s.conns[k].alive && !s.conns[k].connecting)
    && (s.conns[k].connecting ==> s.tcp)
  }

  /** Both hold the same lock. */
  predicate SameLock(a: Call, b: Call) {
    Holding(a.phase) && Holding(b.phase) && a.phase.gen == b.phase.gen
  }

  ghost predicate Tidy(s: Bridge) {
    && (forall c :: c in s.calls ==> Placed(s, s.calls[c]))
    && (forall c, d :: c in s.calls && d in s.calls && SameLock(s.calls[c], s.calls[d]) ==> c == d)
    && (forall k :: 0 <= k < |s.conns| ==> WireOk(s, k))
  }

  // ----- the steps that keep it -----

  /** A step of calls that neither starts nor moves a wait for a reply. */
  lemma CallsTidy(s: Bridge, t: Bridge)
    requires Tidy(s) && t.conns == s.conns && t.nextId == s.nextId && t.issued == s.issued
    requires t.transport == s.transport && t.tcp == s.tcp
    requires forall c :: c in t.calls && Holding(t.calls[c].phase) ==>
               c in s.calls && t.calls[c].phase == s.calls[c].phase
    requires forall c :: c in t.calls && t.calls[c].phase.Queued? ==> t.calls[c].phase.gen + 1 == |t.conns|
    ensures Tidy(t)
  {
    forall c | c in t.calls ensures Placed(t, t.calls[c]) {
      if Holding(t.calls[c].phase) { assert Placed(s, s.calls[c]); }
    }
    forall c, d | c in t.calls && d in t.calls && SameLock(t.calls[c], t.calls[d]) ensures c == d {
      assert SameLock(s.calls[c], s.calls[d]);
    }
    forall k | 0 <= k < |t.conns| ensures WireOk(t, k) { assert WireOk(s, k); }
  }

  /** A step of the backend, of a reader or of emu_stop. */
  lemma WireTidy(s: Bridge, t: Bridge)
    requires Tidy(s) && t.calls == s.calls && |t.conns| == |s.conns| && t.nextId == s.nextId && t.issued == s.issued
    requires forall k :: 0 <= k < |t.conns| ==> WireOk(t, k)
    requires forall k, id: nat :: 0 <= k < |t.conns| - 1 && LeftAlone(s.conns[k], id) ==> LeftAlone(t.conns[k], id)
    ensures Tidy(t)
  {
    forall c | c in t.calls ensures Placed(t, t.calls[c]) {
      assert Placed(s, s.calls[c]);
    }
  }

  lemma OneWireOk(s: Bridge, t: Bridge, k: nat)
    requires Tidy(s) && HasConn(s, k) && |t.conns| == |s.conns| && t.transport == s.transport && t.tcp == s.tcp
    requires forall j :: 0 <= j < |s.conns| && j != k ==> t.conns[j] == s.conns[j]
    requires WireOk(t, k)
    ensures forall j :: 0 <= j < |t.conns| ==> WireOk(t, j)
  {
    forall j | 0 <= j < |t.conns| ensures WireOk(t, j) { assert WireOk(s, j); }
  }

  lemma BackendTidy(s: Bridge, e: Event)
    requires Tidy(s) && Enabled(s, e)
    requires e.Answer? || e.Drop? || e.Die? || e.Connects?
    ensures Tidy(Next(s, e))
  {
    var t := Next(s, e);
    assert WireOk(s, e.k);
    OneWireOk(s, t, e.k);
    WireTidy(s, t);
  }

  lemma EofTidy(s: Bridge, k: nat, reason: int)
    requires Tidy(s) && Enabled(s, Eof(k, reason))
    ensures Tidy(Next(s, Eof(k, reason)))
  {
    var t := Next(s, Eof(k, reason));
    assert WireOk(s, k);
    OneWireOk(s, t, k);
    WireTidy(s, t);
  }

  lemma ReadTidy(s: Bridge, k: nat)
    requires Tidy(s) && Enabled(s, Read(k))
    ensures Tidy(Next(s, Read(k)))
  {
    var t := Next(s, Read(k));
    forall j | 0 <= j < |t.conns| ensures WireOk(t, j) { assert WireOk(s, j); }
    WireTidy(s, t);
  }

  lemma StopTidy(s: Bridge, e: Event)
    requires Tidy(s) && Sound(s) && Enabled(s, e)
    requires e.MarkStop? || e.Detach?
    ensures Tidy(Next(s, e))
  {
    var t := Next(s, e);
    forall j | 0 <= j < |t.conns| ensures WireOk(t, j) { assert WireOk(s, j); }
    WireTidy(s, t);
  }

  /** The other calls when a call of the current lock gets a new request, or a message. */
  lemma OthersPlaced(s: Bridge, t: Bridge, c: nat)
    requires Tidy(s) && HasCall(s, c) && |t.conns| == |s.conns| && s.conns != []
    requires forall id :: id in s.issued ==> id in t.issued && t.issued[id] == s.issued[id]
    requires forall d :: d in s.calls && d != c && Holding(s.calls[d].phase) ==> s.calls[d].phase.gen + 1 < |s.conns|
    requires forall k :: 0 <= k < |s.conns| - 1 ==> t.conns[k] == s.conns[k]
    requires c in t.calls && t.calls == s.calls[c := t.calls[c]] && Placed(t, t.calls[c]) && t.tcp == s.tcp
    requires Holding(t.calls[c].phase) ==> t.calls[c].phase.gen + 1 == |t.conns|
    requires forall k :: 0 <= k < |t.conns| ==> WireOk(t, k)
    ensures Tidy(t)
  {
    forall d | d in t.calls ensures Placed(t, t.calls[d]) {
      if d != c { assert Placed(s, s.calls[d]); }
    }
    forall d, f | d in t.calls && f in t.calls && SameLock(t.calls[d], t.calls[f]) ensures d == f {
      if d != c && f != c { assert SameLock(s.calls[d], s.calls[f]); }
    }
  }

  lemma SentTidy(s: Bridge, c: nat, sent: bool)
    requires Sound(s) && Tidy(s) && Enabled(s, Acquire(c, sent))
    ensures Tidy(Sent(s, c, sent))
  {
    var t := Sent(s, c, sent);
    assert Placed(s, s.calls[c]);
    forall d | d in s.calls && d != c && Holding(s.calls[d].phase) ensures s.calls[d].phase.gen + 1 < |s.conns| {
      assert Placed(s, s.calls[d]);
    }
    forall k | 0 <= k < |t.conns| ensures WireOk(t, k) { assert WireOk(s, k); }
    OthersPlaced(s, t, c);
  }

  /** A call of the current lock holds it alone. */
  lemma Alone(s: Bridge, c: nat)
    requires Tidy(s) && HasCall(s, c) && Holding(s.calls[c].phase) && s.calls[c].phase.gen + 1 == |s.conns|
    ensures forall d :: d in s.calls && d != c && Holding(s.calls[d].phase) ==> s.calls[d].phase.gen + 1 < |s.conns|
  {
    forall d | d in s.calls && d != c && Holding(s.calls[d].phase) ensures s.calls[d].phase.gen + 1 < |s.conns| {
      assert Placed(s, s.calls[d]) && !SameLock(s.calls[c], s.calls[d]);
    }
  }

  lemma FlushedTidy(s: Bridge, c: nat)
    requires Sound(s) && Tidy(s) && Enabled(s, Flushed(c))
    ensures Tidy(Next(s, Flushed(c)))
  {
    var t := Next(s, Flushed(c));
    assert Placed(s, s.calls[c]);
    Alone(s, c);
    forall k | 0 <= k < |t.conns| ensures WireOk(t, k) { assert WireOk(s, k); }
    OthersPlaced(s, t, c);
  }

  /** On a replaced connection a call takes its reply or the sentinel, and is done. */
  lemma TakenFromOldTidy(s: Bridge, c: nat)
    requires Tidy(s) && Enabled(s, Take(c)) && s.calls[c].phase.gen + 1 < |s.conns|
    ensures Tidy(Taken(s, c)) && !Holding(Taken(s, c).calls[c].phase)
  {
    var t := Taken(s, c);
    assert Placed(s, s.calls[c]);
    forall k | 0 <= k < |t.conns| ensures WireOk(t, k) { assert WireOk(s, k); }
    forall d | d in t.calls ensures Placed(t, t.calls[d]) {
      if d != c {
        assert Placed(s, s.calls[d]) && !SameLock(s.calls[c], s.calls[d]);
      }
    }
    forall d, f | d in t.calls && f in t.calls && SameLock(t.calls[d], t.calls[f]) ensures d == f {
      if d != c && f != c { assert SameLock(s.calls[d], s.calls[f]); }
    }
  }

  lemma TakenTidy(s: Bridge, c: nat)
    requires Sound(s) && Tidy(s) && Enabled(s, Take(c))
    ensures Tidy(Taken(s, c))
  {
    var t := Taken(s, c);
    var p := s.calls[c].phase;
    assert Placed(s, s.calls[c]);
    forall k | 0 <= k < |t.conns| ensures WireOk(t, k) { assert WireOk(s, k); }
    if p.gen + 1 == |s.conns| {
      Alone(s, c);
      OthersPlaced(s, t, c);
    } else {
      TakenFromOldTidy(s, c);
    }
  }

  /** Every id that is on the way was issued: none is above the newest. */
  lemma NewestIsGreatest(s: Bridge, k: nat, id: nat)
    requires Sound(s) && HasConn(s, k) && id + 1 == s.nextId
    ensures AtMost(s.conns[k], id)
  {
    var conn := s.conns[k];
    assert ConnOk(s, k, conn);
    forall i | 0 <= i < |conn.queue| && conn.queue[i].Response? ensures conn.queue[i].reply.id <= id {
      assert KnownMessage(s, conn.queue[i]);
    }
    forall i | 0 <= i < |conn.lines| ensures conn.lines[i].id <= id {
      assert Known(s, conn.lines[i].id, conn.lines[i].cmd, k);
    }
    forall i | 0 <= i < |conn.pending| ensures conn.pending[i].id <= id {
      assert Known(s, conn.pending[i].id, conn.pending[i].cmd, k);
    }
  }

  /** A replacement that disturbs nobody leaves the waiting calls behind on their own connections. */
  lemma ReplacedTidy(s: Bridge, t: Bridge)
    requires Sound(s) && Tidy(s) && !Alive(s)
    requires forall c :: c in s.calls ==> Undisturbed(s, s.calls[c])
    requires |t.conns| == |s.conns| + 1 && t.conns[..|s.conns|] == s.conns && t.transport.Some?
    requires t.tcp == s.tcp && t.conns[|s.conns|] == Conn(s.tcp, !s.tcp, false, [], [], false, [])
    requires t.nextId == s.nextId && t.issued == s.issued
    requires forall c :: c in t.calls ==> !t.calls[c].phase.Queued?
    requires forall c :: c in t.calls && Holding(t.calls[c].phase) ==>
               c in s.calls && t.calls[c].phase == s.calls[c].phase
    ensures Tidy(t)
  {
    assert forall k :: 0 <= k < |s.conns| ==> t.conns[k] == s.conns[k];
    forall c | c in t.calls ensures Placed(t, t.calls[c]) {
      if Holding(t.calls[c].phase) {
        var p := s.calls[c].phase;
        assert Undisturbed(s, s.calls[c]) && Placed(s, s.calls[c]);
        if p.gen + 1 == |s.conns| { NewestIsGreatest(s, p.gen, p.id); }
      }
    }
    forall c, d | c in t.calls && d in t.calls && SameLock(t.calls[c], t.calls[d]) ensures c == d {
      assert SameLock(s.calls[c], s.calls[d]);
    }
    forall k | 0 <= k < |t.conns| ensures WireOk(t, k) {
      if k < |s.conns| { assert WireOk(s, k); }
    }
  }

  /** A call starts to wait for the current lock. */
  lemma CallsQueued(s: Bridge, t: Bridge, c: nat)
    requires Tidy(s) && HasCall(s, c) && t.conns == s.conns && t.nextId == s.nextId && t.issued == s.issued
    requires t.transport == s.transport && t.tcp == s.tcp && s.conns != []
    requires t.calls.Keys == s.calls.Keys && t.calls[c].phase == Queued(Current(s))
    requires forall d :: d in s.calls && d != c ==> t.calls[d].phase == s.calls[d].phase
    ensures Tidy(t)
  {
    forall d | d in t.calls && t.calls[d].phase.Queued? ensures t.calls[d].phase.gen + 1 == |t.conns| {
      assert Placed(s, s.calls[d]);
    }
    CallsTidy(s, t);
  }

  lemma DialTidy(s: Bridge, c: nat, lost: Option<Loss>)
    requires Sound(s) && Tidy(s) && HasCall(s, c) && !Holding(s.calls[c].phase)
    requires |Dial(s, c, lost).conns| > |s.conns| ==> forall d :: d in s.calls ==> Undisturbed(s, s.calls[d])
    ensures Tidy(Dial(s, c, lost))
  {
    if Alive(s) {
      CallsQueued(s, Dial(s, c, lost), c);
    } else {
      assert forall d :: d in s.calls ==> Undisturbed(s, s.calls[d]);
      ReplacedTidy(s, Dial(s, c, lost));
    }
  }

  /** One call moves to a phase without a lock. */
  lemma CallStepTidy(s: Bridge, t: Bridge, c: nat)
    requires Tidy(s) && t.conns == s.conns && t.nextId == s.nextId && t.issued == s.issued
    requires t.transport == s.transport && t.tcp == s.tcp && c in t.calls && t.calls.Keys == s.calls.Keys + {c}
    requires !Holding(t.calls[c].phase) && !t.calls[c].phase.Queued?
    requires forall d :: d in s.calls && d != c ==> t.calls[d].phase == s.calls[d].phase
    ensures Tidy(t)
  {
    forall d | d in t.calls && t.calls[d].phase.Queued? ensures t.calls[d].phase.gen + 1 == |t.conns| {
      assert d in s.calls && Placed(s, s.calls[d]);
    }
    CallsTidy(s, t);
  }

  lemma CheckedTidy(s: Bridge, c: nat)
    requires Sound(s) && Tidy(s) && Enabled(s, Check(c)) && Harmless(s, Check(c))
    ensures Tidy(Checked(s, c))
  {
    if Alive(s) {
      CallsQueued(s, Checked(s, c), c);
    } else if !LostUnexpectedly(s) {
      DialTidy(s, c, None);
    } else if s.lastExit.Some? {
      DialTidy(s, c, Some(Loss(s.transport.value, s.lastExit.value)));
    } else {
      CallStepTidy(s, Checked(s, c), c);
    }
  }

  lemma DeliveredKeepsPhases(s: Bridge, c: nat)
    requires HasCall(s, c)
    ensures var t := Delivered(s, c);
            && t.calls.Keys == s.calls.Keys && (forall d :: d in s.calls ==> t.calls[d].phase == s.calls[d].phase)
            && t.conns == s.conns && t.nextId == s.nextId && t.issued == s.issued
            && t.transport == s.transport && t.tcp == s.tcp
  {
  }

  lemma DeliveredTidy(s: Bridge, t: Bridge, c: nat)
    requires Tidy(s) && Enabled(s, Deliver(c)) && t == Delivered(s, c)
    ensures Tidy(t)
  {
    DeliveredKeepsPhases(s, c);
    CallStepTidy(s, t, c);
  }

  lemma StartedTidy(s: Bridge, e: Event)
    requires Sound(s) && Tidy(s) && e.StartEmu? && Enabled(s, e) && Harmless(s, e)
    ensures Tidy(Next(s, e))
  {
    assert forall c :: c in s.calls ==> Undisturbed(s, s.calls[c]);
    ReplacedTidy(s, Next(s, e));
  }

  lemma ReasonTidy(s: Bridge, c: nat, reason: int)
    requires Sound(s) && Tidy(s) && Enabled(s, Reason(c, reason)) && Harmless(s, Reason(c, reason))
    ensures Tidy(Next(s, Reason(c, reason)))
  {
    DialTidy(s, c, Some(Loss(s.calls[c].phase.conn, reason)));
  }

  lemma HelloTidy(s: Bridge, c: nat)
    requires Tidy(s) && Enabled(s, Hello(c))
    ensures Tidy(Next(s, Hello(c)))
  {
    CallsQueued(s, Connected(s, c, s.calls[c].phase.lost), c);
  }

  lemma ConnectTidy(s: Bridge, e: Event)
    requires Sound(s) && Tidy(s) && Enabled(s, e) && Harmless(s, e)
    requires e.Check? || e.Reason? || e.Hello?
    ensures Tidy(Next(s, e))
  {
    if e.Check? {
      CheckedTidy(s, e.c);
    } else if e.Reason? {
      ReasonTidy(s, e.c, e.reason);
    } else {
      HelloTidy(s, e.c);
    }
  }

  lemma WaitTidy(s: Bridge, e: Event)
    requires Sound(s) && Tidy(s) && Enabled(s, e)
    requires e.Acquire? || e.Flushed? || e.Take?
    ensures Tidy(Next(s, e))
  {
    if e.Acquire? {
      SentTidy(s, e.c, e.sent);
    } else if e.Flushed? {
      FlushedTidy(s, e.c);
    } else {
      TakenTidy(s, e.c);
    }
  }

  lemma CallTidy(s: Bridge, e: Event)
    requires Tidy(s) && Enabled(s, e)
    requires e.Begin? || e.Again? || e.Fail? || e.Deliver?
    ensures Tidy(Next(s, e))
  {
    if e.Deliver? {
      DeliveredTidy(s, Next(s, e), e.c);
    } else {
      CallStepTidy(s, Next(s, e), e.c);
    }
  }

  /** Every step that disturbs nobody keeps the invariant. */
  lemma NextTidy(s: Bridge, e: Event)
    requires Sound(s) && Tidy(s) && Enabled(s, e) && Harmless(s, e)
    ensures Tidy(Next(s, e))
  {
    if e.Begin? || e.Again? || e.Fail? || e.Deliver? {
      CallTidy(s, e);
    } else if e.Check? || e.Reason? || e.Hello? {
      ConnectTidy(s, e);
    } else if e.Acquire? || e.Flushed? || e.Take? {
      WaitTidy(s, e);
    } else if e.Answer? || e.Drop? || e.Die? || e.Connects? {
      BackendTidy(s, e);
    } else if e.Read? {
      ReadTidy(s, e.k);
    } else if e.Eof? {
      EofTidy(s, e.k, e.reason);
    } else if e.MarkStop? || e.Detach? {
      StopTidy(s, e);
    } else {
      StartedTidy(s, e);
    }
  }

  // ----- a reply that is waited for is in one queue only -----

  predicate OffTheQueue(conn: Conn, id: nat) {
    forall i :: 0 <= i < |conn.queue| ==> conn.queue[i].Response? ==> conn.queue[i].reply.id != id
  }

  ghost predicate Apart(s: Bridge) {
    forall c, k :: c in s.calls && Holding(s.calls[c].phase) && 0 <= k < |s.conns| && k != s.calls[c].phase.gen ==>
      OffTheQueue(s.conns[k], s.calls[c].phase.id)
  }

  /** The queue has no reply that it had not before. */
  predicate NoNewReply(before: seq<Message>, after: seq<Message>) {
    forall i :: 0 <= i < |after| ==> after[i].Response? ==> after[i] in before
  }

  /** A step that starts no request and puts no reply into a queue. */
  lemma ApartKept(s: Bridge, t: Bridge)
    requires Apart(s)
    requires forall c :: c in t.calls && Holding(t.calls[c].phase) ==>
               && c in s.calls && Holding(s.calls[c].phase)
               && t.calls[c].phase.gen == s.calls[c].phase.gen && t.calls[c].phase.id == s.calls[c].phase.id
    requires forall k :: 0 <= k < |t.conns| ==>
               if k < |s.conns| then NoNewReply(s.conns[k].queue, t.conns[k].queue) else t.conns[k].queue == []
    ensures Apart(t)
  {
    forall c, k | c in t.calls && Holding(t.calls[c].phase) && 0 <= k < |t.conns| && k != t.calls[c].phase.gen
      ensures OffTheQueue(t.conns[k], t.calls[c].phase.id)
    {
      if k < |s.conns| { assert OffTheQueue(s.conns[k], s.calls[c].phase.id); }
    }
  }

  lemma ReadApart(s: Bridge, k: nat)
    requires Sound(s) && Tidy(s) && Apart(s) && Enabled(s, Read(k))
    ensures Apart(Next(s, Read(k)))
  {
    var t := Next(s, Read(k));
    var line := s.conns[k].lines[0];
    assert ConnOk(s, k, s.conns[k]) && Known(s, line.id, line.cmd, k);
    forall c, j | c in t.calls && Holding(t.calls[c].phase) && 0 <= j < |t.conns| && j != t.calls[c].phase.gen
      ensures OffTheQueue(t.conns[j], t.calls[c].phase.id)
    {
      assert OffTheQueue(s.conns[j], s.calls[c].phase.id) && Placed(s, s.calls[c]);
      assert WireOk(s, k);
    }
  }

  lemma NewIdIsNowhere(s: Bridge, k: nat)
    requires Sound(s) && HasConn(s, k)
    ensures OffTheQueue(s.conns[k], s.nextId)
  {
    var conn := s.conns[k];
    assert ConnOk(s, k, conn);
    forall i | 0 <= i < |conn.queue| && conn.queue[i].Response? ensures conn.queue[i].reply.id != s.nextId {
      assert KnownMessage(s, conn.queue[i]);
    }
  }

  lemma SentApart(s: Bridge, c: nat, sent: bool)
    requires Sound(s) && Tidy(s) && Apart(s) && Enabled(s, Acquire(c, sent))
    ensures Apart(Sent(s, c, sent))
  {
    var t := Sent(s, c, sent);
    forall d, k | d in t.calls && Holding(t.calls[d].phase) && 0 <= k < |t.conns| && k != t.calls[d].phase.gen
      ensures OffTheQueue(t.conns[k], t.calls[d].phase.id)
    {
      assert t.conns[k].queue == s.conns[k].queue;
      if d == c {
        NewIdIsNowhere(s, k);
      } else {
        assert OffTheQueue(s.conns[k], s.calls[d].phase.id);
      }
    }
  }

  lemma TakenApart(s: Bridge, c: nat)
    requires Apart(s) && Enabled(s, Take(c))
    ensures Apart(Taken(s, c))
  {
    ApartKept(s, Taken(s, c));
  }

  lemma CallApart(s: Bridge, e: Event)
    requires Apart(s) && Enabled(s, e)
    requires e.Begin? || e.Again? || e.Fail? || e.Deliver? || e.Flushed?
    ensures Apart(Next(s, e))
  {
    if e.Deliver? { DeliveredKeepsPhases(s, e.c); }
    ApartKept(s, Next(s, e));
  }

  lemma DialApart(s: Bridge, c: nat, lost: Option<Loss>)
    requires Apart(s) && HasCall(s, c)
    ensures Apart(Dial(s, c, lost))
  {
    ApartKept(s, Dial(s, c, lost));
  }

  lemma CheckedApart(s: Bridge, c: nat)
    requires Apart(s) && HasCall(s, c)
    ensures Apart(Checked(s, c))
  {
    if !Alive(s) && !LostUnexpectedly(s) {
      DialApart(s, c, None);
    } else if !Alive(s) && s.lastExit.Some? {
      DialApart(s, c, Some(Loss(s.transport.value, s.lastExit.value)));
    } else {
      ApartKept(s, Checked(s, c));
    }
  }

  lemma ConnectApart(s: Bridge, e: Event)
    requires Apart(s) && Enabled(s, e)
    requires e.Check? || e.Reason? || e.Hello? || e.StartEmu?
    ensures Apart(Next(s, e))
  {
    if e.Check? {
      CheckedApart(s, e.c);
    } else if e.Reason? {
      DialApart(s, e.c, Some(Loss(s.calls[e.c].phase.conn, e.reason)));
    } else {
      ApartKept(s, Next(s, e));
    }
  }

  lemma BackendApart(s: Bridge, e: Event)
    requires Apart(s) && Enabled(s, e)
    requires e.Answer? || e.Drop? || e.Die? || e.Connects?
    ensures Apart(Next(s, e))
  {
    ApartKept(s, Next(s, e));
  }

  lemma EndApart(s: Bridge, e: Event)
    requires Apart(s) && Enabled(s, e)
    requires e.Eof? || e.MarkStop? || e.Detach?
    ensures Apart(Next(s, e))
  {
    ApartKept(s, Next(s, e));
  }

  lemma NextApart(s: Bridge, e: Event)
    requires Sound(s) && Tidy(s) && Apart(s) && Enabled(s, e)
    ensures Apart(Next(s, e))
  {
    if e.Begin? || e.Again? || e.Fail? || e.Deliver? || e.Flushed? {
      CallApart(s, e);
    } else if e.Check? || e.Reason? || e.Hello? || e.StartEmu? {
      ConnectApart(s, e);
    } else if e.Acquire? {
      SentApart(s, e.c, e.sent);
    } else if e.Take? {
      TakenApart(s, e.c);
    } else if e.Read? {
      ReadApart(s, e.k);
    } else if e.Answer? || e.Drop? || e.Die? || e.Connects? {
      BackendApart(s, e);
    } else {
      EndApart(s, e);
    }
  }

  lemma {:induction false} HarmlessRunTidy(s: Bridge, es: seq<Event>, t: Bridge)
    requires Sound(s) && Tidy(s) && Apart(s) && HarmlessRun(s, es, t)
    ensures Sound(t) && Tidy(t) && Apart(t)
    decreases |es|
  {
    if es != [] {
      NextSound(s, es[0]);
      NextTidy(s, es[0]);
      NextApart(s, es[0]);
      HarmlessRunTidy(Next(s, es[0]), es[1..], t);
    }
  }

  // ----- discarded replies -----

  /** The step discards the head of the queue of the waiting call. */
  predicate Discards(s: Bridge, e: Event)
    requires Enabled(s, e)
  {
    e.Take? &&
    var p := s.calls[e.c].phase;
    var head := s.conns[p.queue].queue[0];
    head.Response? && head.reply.id != p.id
  }

  function Discarded(s: Bridge, e: Event): nat
    requires Enabled(s, e) && Discards(s, e)
  {
    s.conns[s.calls[e.c].phase.queue].queue[0].reply.id
  }

  /** The step discards a reply that a call still waits for. */
  ghost predicate Loses(s: Bridge, e: Event) {
    Enabled(s, e) && Discards(s, e) && Live(s, Discarded(s, e))
  }

  /** Only the call of the current lock discards, and nothing newer than its own request. */
  lemma DiscardsOlder(s: Bridge, e: Event)
    requires Sound(s) && Tidy(s) && Enabled(s, e) && Discards(s, e)
    ensures var p := s.calls[e.c].phase;
            && p.gen == p.queue == Current(s) && p.id + 1 == s.nextId
            && Discarded(s, e) in s.issued && Discarded(s, e) < p.id
  {
    var p := s.calls[e.c].phase;
    assert Placed(s, s.calls[e.c]);
    assert ConnOk(s, p.queue, s.conns[p.queue]);
    assert KnownMessage(s, s.conns[p.queue].queue[0]);
  }

  lemma DiscardsNothingLive(s: Bridge, e: Event)
    requires Sound(s) && Tidy(s) && Apart(s)
    ensures !Loses(s, e)
  {
    if Enabled(s, e) && Discards(s, e) {
      DiscardsOlder(s, e);
      Alone(s, e.c);
      var k := Current(s);
      forall d | d in s.calls && Holding(s.calls[d].phase) ensures s.calls[d].phase.id != Discarded(s, e) {
        if d != e.c { assert OffTheQueue(s.conns[k], s.calls[d].phase.id); }
      }
    }
  }

  /**
   After any run whose replacements are harmless, a discarded reply is a late one:
   its request is older than the one that is waited for, and no call waits for it
   any more.
   */
  lemma {:induction false} OnlyLateRepliesAreDiscarded(tcp: bool, es: seq<Event>, s: Bridge, e: Event)
    requires HarmlessRun(Init(tcp), es, s) && Enabled(s, e) && Discards(s, e)
    ensures Discarded(s, e) in s.issued && !Live(s, Discarded(s, e))
    ensures Discarded(s, e) < s.calls[e.c].phase.id
  {
    HarmlessRunTidy(Init(tcp), es, s);
    DiscardsOlder(s, e);
    DiscardsNothingLive(s, e);
  }
}
