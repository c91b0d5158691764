/**
 Safety of the bridge over all runs: requests, replies and waits stay tied to the
 call that issued the id.
 */
module McpBridgeSafety {
  import opened Basics
  import opened McpBridge

  // ----- replies and their requests -----

  predicate Known(s: Bridge, id: nat, cmd: int, conn: nat) {
    id in s.issued && s.issued[id].cmd == cmd && s.issued[id].conn == conn
  }

  predicate KnownMessage(s: Bridge, m: Message) {
    m.Response? ==> m.reply.id in s.issued && s.issued[m.reply.id].cmd == m.reply.cmd
  }

  /**
   Everything on connection `k` belongs to a request that was issued with that id
   while `k` was the current connection; a queue may also hold replies of others.
   */
  ghost predicate ConnOk(s: Bridge, k: nat, conn: Conn) {
    && (forall i :: 0 <= i < |conn.pending| ==> Known(s, conn.pending[i].id, conn.pending[i].cmd, k))
    && (forall i :: 0 <= i < |conn.lines| ==> Known(s, conn.lines[i].id, conn.lines[i].cmd, k))
    && (forall i :: 0 <= i < |conn.queue| ==> KnownMessage(s, conn.queue[i]))
  }

  /** The id was given to a request of this call. */
  predicate IssuedTo(s: Bridge, id: nat, c: nat, cmd: int) {
    id in s.issued && s.issued[id].call == c && s.issued[id].cmd == cmd
  }

  /** A waiting call waits for its own id; an answered call holds the answer to its own request. */
  predicate CallOk(s: Bridge, c: nat, call: Call) {
    match call.phase
    case Started => true
    case Asking(k) => k < |s.conns|
    case Dialing(lost) => s.conns != [] && (lost.Some? ==> lost.value.conn < |s.conns|)
    case Queued(gen) => gen < |s.conns|
    case Sending(gen, id) => gen < |s.conns| && IssuedTo(s, id, c, call.cmd)
    case Waiting(gen, q, id) => gen < |s.conns| && q < |s.conns| && IssuedTo(s, id, c, call.cmd)
    case Answered(r) => r.cmd == call.cmd && IssuedTo(s, r.id, c, call.cmd)
    case Failed => true
  }

  ghost predicate Sound(s: Bridge) {
    && (s.transport.Some? ==> s.transport.value + 1 == |s.conns|)
    && (forall id :: id in s.issued ==> id < s.nextId && s.issued[id].conn < |s.conns|)
    && (forall k :: 0 <= k < |s.conns| ==> ConnOk(s, k, s.conns[k]))
    && (forall c :: c in s.calls ==> CallOk(s, c, s.calls[c]))
  }

  ghost predicate Grows(s: Bridge, t: Bridge) {
    && |s.conns| <= |t.conns|
    && forall id :: id in s.issued ==> id in t.issued && t.issued[id] == s.issued[id]
  }

  lemma ConnOkGrows(s: Bridge, t: Bridge, k: nat, conn: Conn)
    requires Grows(s, t) && ConnOk(s, k, conn)
    ensures ConnOk(t, k, conn)
  {
  }

  lemma CallOkGrows(s: Bridge, t: Bridge, c: nat, call: Call)
    requires Grows(s, t) && CallOk(s, c, call)
    ensures CallOk(t, c, call)
  {
  }

  lemma SetPhaseSound(s: Bridge, c: nat, p: Phase)
    requires Sound(s) && HasCall(s, c) && CallOk(s, c, s.calls[c].(phase := p))
    ensures Sound(SetPhase(s, c, p))
  {
    var t := SetPhase(s, c, p);
    forall k | 0 <= k < |t.conns| ensures ConnOk(t, k, t.conns[k]) { ConnOkGrows(s, t, k, s.conns[k]); }
    forall d | d in t.calls ensures CallOk(t, d, t.calls[d]) { CallOkGrows(s, t, d, t.calls[d]); }
  }

  lemma SetConnSound(s: Bridge, k: nat, conn: Conn)
    requires Sound(s) && HasConn(s, k) && ConnOk(s, k, conn)
    ensures Sound(SetConn(s, k, conn))
  {
    var t := SetConn(s, k, conn);
    forall j | 0 <= j < |t.conns| ensures ConnOk(t, j, t.conns[j]) { ConnOkGrows(s, t, j, t.conns[j]); }
    forall d | d in t.calls ensures CallOk(t, d, t.calls[d]) { CallOkGrows(s, t, d, t.calls[d]); }
  }

  lemma NewConnSound(s: Bridge)
    requires Sound(s)
    ensures Sound(NewConn(s))
  {
    var t := NewConn(s);
    forall j | 0 <= j < |t.conns| ensures ConnOk(t, j, t.conns[j]) {
      if j < |s.conns| { ConnOkGrows(s, t, j, s.conns[j]); }
    }
    forall d | d in t.calls ensures CallOk(t, d, t.calls[d]) { CallOkGrows(s, t, d, t.calls[d]); }
  }

  /** Changes outside connections, phases and issued ids. */
  lemma OtherwiseSound(s: Bridge, t: Bridge)
    requires Sound(s) && t.conns == s.conns && t.issued == s.issued && t.nextId == s.nextId
    requires t.transport == s.transport || t.transport == None
    requires forall c :: c in t.calls ==> CallOk(s, c, t.calls[c])
    ensures Sound(t)
  {
    forall j | 0 <= j < |t.conns| ensures ConnOk(t, j, t.conns[j]) { ConnOkGrows(s, t, j, t.conns[j]); }
    forall d | d in t.calls ensures CallOk(t, d, t.calls[d]) { CallOkGrows(s, t, d, t.calls[d]); }
  }

  lemma ConnectedSound(s: Bridge, c: nat, lost: Option<Loss>)
    requires Sound(s) && HasCall(s, c) && s.conns != []
    ensures Sound(Connected(s, c, lost))
  {
    OtherwiseSound(s, Connected(s, c, lost));
  }

  lemma DialSound(s: Bridge, c: nat, lost: Option<Loss>)
    requires Sound(s) && HasCall(s, c) && (lost.Some? ==> lost.value.conn < |s.conns|)
    ensures Sound(Dial(s, c, lost))
  {
    if Alive(s) {
      ConnectedSound(s, c, lost);
    } else {
      NewConnSound(s);
      SetPhaseSound(NewConn(s), c, Dialing(lost));
    }
  }

  lemma CheckedSound(s: Bridge, c: nat)
    requires Sound(s) && HasCall(s, c)
    ensures Sound(Checked(s, c))
  {
    if Alive(s) {
      SetPhaseSound(s, c, Queued(Current(s)));
    } else if !LostUnexpectedly(s) {
      DialSound(s, c, None);
    } else if s.lastExit.Some? {
      DialSound(s, c, Some(Loss(s.transport.value, s.lastExit.value)));
    } else {
      SetPhaseSound(s, c, Asking(s.transport.value));
    }
  }

  lemma IssueSound(s: Bridge, c: nat)
    requires Sound(s) && HasCall(s, c) && s.conns != []
    ensures Sound(Issued(s, c))
  {
    var t := Issued(s, c);
    forall j | 0 <= j < |t.conns| ensures ConnOk(t, j, t.conns[j]) { ConnOkGrows(s, t, j, t.conns[j]); }
    forall d | d in t.calls ensures CallOk(t, d, t.calls[d]) { CallOkGrows(s, t, d, t.calls[d]); }
  }

  /** The new request joins the pending ones of a live connection. */
  lemma RequestSound(s1: Bridge, t: nat, r: Request)
    requires Sound(s1) && HasConn(s1, t) && Known(s1, r.id, r.cmd, t)
    ensures Sound(SetConn(s1, t, Written(s1.conns[t], r)))
  {
    assert ConnOk(s1, t, s1.conns[t]);
    SetConnSound(s1, t, Written(s1.conns[t], r));
  }

  lemma SentSound(s: Bridge, c: nat, sent: bool)
    requires Sound(s) && Enabled(s, Acquire(c, sent))
    ensures Sound(Sent(s, c, sent))
  {
    var call := s.calls[c];
    IssueSound(s, c);
    var s1 := Issued(s, c);
    if sent {
      var t := s.transport.value;
      RequestSound(s1, t, Request(s.nextId, call.cmd));
      var s2 := SetConn(s1, t, Written(s.conns[t], Request(s.nextId, call.cmd)));
      SetPhaseSound(s2, c, if s.tcp then Sending(call.phase.gen, s.nextId)
                           else Waiting(call.phase.gen, Current(s), s.nextId));
    } else {
      SetPhaseSound(s1, c, Failed);
    }
  }

  lemma TakenSound(s: Bridge, c: nat)
    requires Sound(s) && Enabled(s, Take(c))
    ensures Sound(Taken(s, c))
  {
    var p := s.calls[c].phase;
    var conn := s.conns[p.queue];
    assert ConnOk(s, p.queue, conn) && KnownMessage(s, conn.queue[0]);
    SetConnSound(s, p.queue, conn.(queue := conn.queue[1..]));
    var s1 := SetConn(s, p.queue, conn.(queue := conn.queue[1..]));
    assert CallOk(s, c, s.calls[c]);
    match conn.queue[0]
    case Closed(_) => SetPhaseSound(s1, c, Failed);
    case Response(r) =>
      if r.id == p.id {
        SetPhaseSound(s1, c, Answered(r));
      } else {
        SetPhaseSound(s1, c, Waiting(p.gen, Current(s), p.id));
      }
  }

  lemma ReadSound(s: Bridge, k: nat)
    requires Sound(s) && Enabled(s, Read(k))
    ensures Sound(Next(s, Read(k)))
  {
    var conn := s.conns[k];
    assert ConnOk(s, k, conn) && Known(s, conn.lines[0].id, conn.lines[0].cmd, k);
    SetConnSound(s, k, conn.(lines := conn.lines[1..]));
    var s1 := SetConn(s, k, conn.(lines := conn.lines[1..]));
    var cur := s1.conns[Current(s)];
    assert ConnOk(s1, Current(s), cur) && KnownMessage(s1, Response(conn.lines[0]));
    SetConnSound(s1, Current(s), cur.(queue := cur.queue + [Response(conn.lines[0])]));
  }

  lemma BackendSound(s: Bridge, e: Event)
    requires Sound(s) && Enabled(s, e)
    requires e.Answer? || e.Drop? || e.Die? || e.Connects?
    ensures Sound(Next(s, e))
  {
    var conn := s.conns[e.k];
    assert ConnOk(s, e.k, conn);
    match e
    case Answer(k, body) =>
      var q := conn.pending[0];
      assert Known(s, q.id, q.cmd, k);
      SetConnSound(s, k, conn.(pending := conn.pending[1..], lines := conn.lines + [Reply(q.id, q.cmd, body)]));
    case Drop(k) => SetConnSound(s, k, conn.(pending := conn.pending[1..]));
    case Die(k) => SetConnSound(s, k, conn.(alive := false, pending := []));
    case Connects(k) => SetConnSound(s, k, conn.(connecting := false, alive := true));
    case _ =>
  }

  lemma EofSound(s: Bridge, k: nat, reason: int)
    requires Sound(s) && Enabled(s, Eof(k, reason))
    ensures Sound(Next(s, Eof(k, reason)))
  {
    var conn := s.conns[k];
    assert ConnOk(s, k, conn) && KnownMessage(s, Closed(reason));
    SetConnSound(s, k, conn.(done := true, queue := conn.queue + [Closed(reason)]));
    OtherwiseSound(SetConn(s, k, conn.(done := true, queue := conn.queue + [Closed(reason)])), Next(s, Eof(k, reason)));
  }

  lemma EndSound(s: Bridge, e: Event)
    requires Sound(s) && Enabled(s, e)
    requires e.MarkStop? || e.Detach? || e.StartEmu?
    ensures Sound(Next(s, e))
  {
    match e
    case MarkStop =>
      assert ConnOk(s, s.transport.value, s.conns[s.transport.value]);
      SetConnSound(s, s.transport.value, s.conns[s.transport.value].(expected := true));
    case Detach =>
      var k := s.transport.value;
      assert ConnOk(s, k, s.conns[k]);
      SetConnSound(s, k, s.conns[k].(alive := false, pending := [], lines := [], done := true));
      OtherwiseSound(SetConn(s, k, s.conns[k].(alive := false, pending := [], lines := [], done := true)), Next(s, e));
    case StartEmu =>
      OtherwiseSound(s, s.(lastExit := None, notice := None));
      NewConnSound(s.(lastExit := None, notice := None));
    case _ =>
  }

  lemma CallSound(s: Bridge, e: Event)
    requires Sound(s) && Enabled(s, e)
    requires e.Begin? || e.Again? || e.Fail? || e.Deliver? || e.Hello?
    ensures Sound(Next(s, e))
  {
    if e.Hello? {
      ConnectedSound(s, e.c, s.calls[e.c].phase.lost);
    } else {
      OtherwiseSound(s, Next(s, e));
    }
  }

  lemma RequestStepSound(s: Bridge, e: Event)
    requires Sound(s) && Enabled(s, e)
    requires e.Check? || e.Reason? || e.Acquire? || e.Flushed? || e.Take?
    ensures Sound(Next(s, e))
  {
    assert CallOk(s, e.c, s.calls[e.c]);
    if e.Check? {
      CheckedSound(s, e.c);
    } else if e.Reason? {
      DialSound(s, e.c, Some(Loss(s.calls[e.c].phase.conn, e.reason)));
    } else if e.Acquire? {
      SentSound(s, e.c, e.sent);
    } else if e.Flushed? {
      SetPhaseSound(s, e.c, Waiting(s.calls[e.c].phase.gen, Current(s), s.calls[e.c].phase.id));
    } else {
      TakenSound(s, e.c);
    }
  }

  /** Every step of any task, of the backend or of a reader keeps the replies matched to their requests. */
  lemma NextSound(s: Bridge, e: Event)
    requires Sound(s) && Enabled(s, e)
    ensures Sound(Next(s, e))
  {
    if e.Begin? || e.Again? || e.Fail? || e.Deliver? || e.Hello? {
      CallSound(s, e);
    } else if e.Check? || e.Reason? || e.Acquire? || e.Flushed? || e.Take? {
      RequestStepSound(s, e);
    } else if e.Answer? || e.Drop? || e.Die? || e.Connects? {
      BackendSound(s, e);
    } else if e.Read? {
      ReadSound(s, e.k);
    } else if e.Eof? {
      EofSound(s, e.k, e.reason);
    } else {
      EndSound(s, e);
    }
  }

  lemma {:induction false} RunSound(s: Bridge, es: seq<Event>, t: Bridge)
    requires Sound(s) && Run(s, es, t)
    ensures Sound(t)
    decreases |es|
  {
    if es != [] {
      NextSound(s, es[0]);
      RunSound(Next(s, es[0]), es[1..], t);
    }
  }

  /**
   No cross-talk, in any run with any reconnects: the reply a call returns is the
   backend's answer to that call's own request, and no two calls get the same one.
   */
  lemma {:induction false} AnswersAreOwn(tcp: bool, es: seq<Event>, t: Bridge, c: nat, d: nat)
    requires Run(Init(tcp), es, t)
    requires HasCall(t, c) && t.calls[c].phase.Answered?
    ensures var r := t.calls[c].phase.reply;
            IssuedTo(t, r.id, c, t.calls[c].cmd) && r.cmd == t.calls[c].cmd
    ensures HasCall(t, d) && t.calls[d].phase.Answered? && t.calls[d].phase.reply.id == t.calls[c].phase.reply.id
            ==> c == d
  {
    RunSound(Init(tcp), es, t);
    assert CallOk(t, c, t.calls[c]);
    assert HasCall(t, d) ==> CallOk(t, d, t.calls[d]);
  }
}
