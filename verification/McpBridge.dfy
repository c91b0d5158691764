/**
 The request side of the MCP bridge (mcp-server/mcp_server.py) as a state
 machine. A step is what one task does between two awaits, or a step of the
 backend, of a reader task or of a clock; any interleaving is a run. All
 calls share the globals _transport, _response_queue, _send_lock, _next_req_id,
 _last_exit and _restart_notice.
 */
module McpBridge {
  import opened Basics

  datatype Request = Request(id: nat, cmd: int)

  /** A backend's answer to the request with this id and command. */
  datatype Reply = Reply(id: nat, cmd: int, body: int)

  /** A message of a response queue: a reply, or the sentinel of a closed transport. */
  datatype Message = Response(reply: Reply) | Closed(reason: int)

  /**
   One connection: the transport, the response queue and the send lock that
   _ensure_connected() creates together, and the two directions of the wire.
   */
  datatype Conn = Conn(
    connecting: bool,          // TCP only: the connection is being opened
    alive: bool,
    expected: bool,            // expected_exit
    pending: seq<Request>,     // sent, not answered
    lines: seq<Reply>,         // answered, not read by the reader task
    done: bool,                // the reader task has ended
    queue: seq<Message>)

  /** A backend that was found dead although its end was not requested. */
  datatype Loss = Loss(conn: nat, reason: int)

  datatype Notice = Notice(serial: nat, maker: nat, loss: Loss)

  datatype Phase =
    | Started                                  // before the connection check
    | Asking(conn: nat)                        // awaiting exit_reason() of the dead transport
    | Dialing(lost: Option<Loss>)              // in _ensure_connected(), up to the hello
    | Queued(gen: nat)                         // awaiting the send lock of connection gen
    | Sending(gen: nat, id: nat)               // TCP only: holding that lock, in drain() after the write
    | Waiting(gen: nat, queue: nat, id: nat)   // holding that lock, awaiting a message of a queue
    | Answered(reply: Reply)
    | Failed

  /** One tool call or resource read; `holder` is the dict of _restart_holder, tool calls only. */
  datatype Call = Call(cmd: int, tool: bool, phase: Phase, holder: Option<Notice>, told: bool)

  /** The call that numbered a request, and the connection that was the current one then. */
  datatype Issue = Issue(call: nat, cmd: int, conn: nat)

  /** `issued` and `delivered` record the history; no step reads them. */
  datatype Bridge = Bridge(
    tcp: bool,
    conns: seq<Conn>,
    transport: Option<nat>,
    calls: map<nat, Call>,
    nextId: nat,
    lastExit: Option<int>,
    notice: Option<Notice>,
    nextNotice: nat,
    issued: map<nat, Issue>,
    delivered: seq<(nat, Notice)>)

  function Init(tcp: bool): Bridge {
    Bridge(tcp, [], None, map[], 1, None, None, 0, map[], [])
  }

  // ----- steps -----

  datatype Event =
    | Begin(c: nat, cmd: int, tool: bool)   // a tool call or a resource read sends its first request
    | Again(c: nat, cmd: int)               // a call that has its answer sends another request
    | Check(c: nat)                         // the connection check of _send_request()
    | Reason(c: nat, reason: int)           // exit_reason() returns
    | Connects(k: nat)                      // a TCP connection is open
    | Hello(c: nat)                         // _ensure_connected() has its hello
    | Acquire(c: nat, sent: bool)           // the lock is taken, the request is numbered and written
    | Flushed(c: nat)                       // drain() returns, the wait for the reply begins
    | Take(c: nat)                          // the waiting call gets the next message of its queue
    | Fail(c: nat)                          // timeout, cancellation or an error while connecting
    | Deliver(c: nat)                       // the tool wrapper attaches a notice to result or error
    | Answer(k: nat, body: int)             // the backend answers its oldest request
    | Drop(k: nat)                          // the backend will never answer its oldest request
    | Read(k: nat)                          // the reader task of connection k reads a line
    | Die(k: nat)                           // the backend ends
    | Eof(k: nat, reason: int)              // the reader task of connection k sees the end
    | MarkStop                              // emu_stop announces the end
    | Detach                                // emu_stop drops the transport and cancels the reader
    | StartEmu                              // emu_start forgets the past and connects

  predicate Alive(s: Bridge) {
    s.transport.Some? && s.transport.value < |s.conns| && s.conns[s.transport.value].alive
  }

  function Current(s: Bridge): nat
    requires s.conns != []
  {
    |s.conns| - 1
  }

  /** A request is numbered and the send lock is held for it. */
  predicate Holding(p: Phase) {
    p.Sending? || p.Waiting?
  }

  predicate LockFree(s: Bridge, gen: nat) {
    forall c :: c in s.calls ==> !(Holding(s.calls[c].phase) && s.calls[c].phase.gen == gen)
  }

  predicate HasCall(s: Bridge, c: nat) {
    c in s.calls
  }

  predicate HasConn(s: Bridge, k: nat) {
    k < |s.conns|
  }

  predicate Enabled(s: Bridge, e: Event) {
    match e
    case Begin(c, _, _) => c !in s.calls
    case Again(c, _) => HasCall(s, c) && !s.calls[c].told && (s.calls[c].phase.Answered? || s.calls[c].phase.Failed?)
    case Check(c) => HasCall(s, c) && s.calls[c].phase.Started?
    case Reason(c, _) => HasCall(s, c) && s.calls[c].phase.Asking?
    case Connects(k) => HasConn(s, k) && s.conns[k].connecting
    case Hello(c) => HasCall(s, c) && s.calls[c].phase.Dialing? && s.conns != []
    case Acquire(c, sent) =>
      && HasCall(s, c) && s.calls[c].phase.Queued? && LockFree(s, s.calls[c].phase.gen)
      && s.conns != []
      && (sent ==> s.transport.Some? && HasConn(s, s.transport.value))
    case Flushed(c) => HasCall(s, c) && s.calls[c].phase.Sending? && s.conns != []
    case Take(c) =>
      && HasCall(s, c) && s.calls[c].phase.Waiting?
      && HasConn(s, s.calls[c].phase.queue) && s.conns[s.calls[c].phase.queue].queue != []
    case Fail(c) => HasCall(s, c) && !s.calls[c].phase.Answered? && !s.calls[c].phase.Failed?
    case Deliver(c) =>
      HasCall(s, c) && s.calls[c].tool && !s.calls[c].told && (s.calls[c].phase.Answered? || s.calls[c].phase.Failed?)
    case Answer(k, _) => HasConn(s, k) && s.conns[k].alive && s.conns[k].pending != []
    case Drop(k) => HasConn(s, k) && s.conns[k].alive && s.conns[k].pending != []
    case Read(k) => HasConn(s, k) && !s.conns[k].done && s.conns[k].lines != []
    case Die(k) => HasConn(s, k) && s.conns[k].alive
    case Eof(k, _) =>
      && HasConn(s, k) && !s.conns[k].alive && !s.conns[k].connecting && !s.conns[k].done
      && s.conns[k].lines == []
    case MarkStop => !s.tcp && Alive(s)
    case Detach => !s.tcp && s.transport.Some? && HasConn(s, s.transport.value)
    case StartEmu => !s.tcp && !Alive(s)
  }

  function SetPhase(s: Bridge, c: nat, p: Phase): Bridge
    requires HasCall(s, c)
  {
    s.(calls := s.calls[c := s.calls[c].(phase := p)])
  }

  function SetConn(s: Bridge, k: nat, conn: Conn): Bridge
    requires HasConn(s, k)
  {
    s.(conns := s.conns[k := conn])
  }

  /** The new connection of _ensure_connected(); a child process is alive at once, a socket only when it is open. */
  function NewConn(s: Bridge): Bridge {
    s.(conns := s.conns + [Conn(s.tcp, !s.tcp, false, [], [], false, [])], transport := Some(|s.conns|))
  }

  /** After _ensure_connected(): the notice of a lost backend, then the wait for the current send lock. */
  function Connected(s: Bridge, c: nat, lost: Option<Loss>): Bridge
    requires HasCall(s, c) && s.conns != []
  {
    var call := s.calls[c].(phase := Queued(Current(s)));
    if lost == None then s.(calls := s.calls[c := call])
    else
      var n := Notice(s.nextNotice, c, lost.value);
      var s1 := s.(lastExit := None, nextNotice := s.nextNotice + 1);
      if call.tool then s1.(calls := s.calls[c := call.(holder := Some(n))])
      else s1.(calls := s.calls[c := call], notice := Some(n))
  }

  /** _ensure_connected() up to its first await. */
  function Dial(s: Bridge, c: nat, lost: Option<Loss>): Bridge
    requires HasCall(s, c)
  {
    if Alive(s) then Connected(s, c, lost) else SetPhase(NewConn(s), c, Dialing(lost))
  }

  /** The transport is there, and its end was not requested. */
  predicate LostUnexpectedly(s: Bridge) {
    s.transport.Some? && HasConn(s, s.transport.value) && !s.conns[s.transport.value].expected
  }

  function Checked(s: Bridge, c: nat): Bridge
    requires HasCall(s, c)
  {
    if Alive(s) then SetPhase(s, c, Queued(Current(s)))
    else if !LostUnexpectedly(s) then Dial(s, c, None)
    else if s.lastExit.Some? then Dial(s, c, Some(Loss(s.transport.value, s.lastExit.value)))
    else SetPhase(s, c, Asking(s.transport.value))
  }

  /** The request of call `c` gets its number. */
  function Issued(s: Bridge, c: nat): Bridge
    requires HasCall(s, c) && s.conns != []
  {
    s.(nextId := s.nextId + 1, issued := s.issued[s.nextId := Issue(c, s.calls[c].cmd, Current(s))])
  }

  /** The connection after a line was written to it. */
  function Written(conn: Conn, r: Request): Conn {
    if conn.alive then conn.(pending := conn.pending + [r]) else conn
  }

  /**
   The request goes out on the current transport. On a pipe the write has no await
   in it and the wait begins at once; drain() of a socket may give way to others.
   */
  function Sent(s: Bridge, c: nat, sent: bool): Bridge
    requires Enabled(s, Acquire(c, sent))
  {
    var call := s.calls[c];
    var s1 := Issued(s, c);
    if !sent then SetPhase(s1, c, Failed)
    else
      var t := s.transport.value;
      var s2 := SetConn(s1, t, Written(s.conns[t], Request(s.nextId, call.cmd)));
      SetPhase(s2, c, if s.tcp then Sending(call.phase.gen, s.nextId)
                      else Waiting(call.phase.gen, Current(s), s.nextId))
  }

  function Taken(s: Bridge, c: nat): Bridge
    requires Enabled(s, Take(c))
  {
    var p := s.calls[c].phase;
    var conn := s.conns[p.queue];
    var s1 := SetConn(s, p.queue, conn.(queue := conn.queue[1..]));
    match conn.queue[0]
    case Closed(_) => SetPhase(s1, c, Failed)
    case Response(r) =>
      if r.id == p.id then SetPhase(s1, c, Answered(r))
      else SetPhase(s1, c, Waiting(p.gen, Current(s), p.id))   // discarded; the loop reads the global queue again
  }

  /** _take_restart_notice() and the attachment to the result or to the error text. */
  function Delivered(s: Bridge, c: nat): Bridge
    requires HasCall(s, c)
  {
    var call := s.calls[c].(told := true);
    if call.holder.Some? then
      s.(calls := s.calls[c := call.(holder := None)], delivered := s.delivered + [(c, call.holder.value)])
    else if s.notice.Some? then
      s.(calls := s.calls[c := call], notice := None, delivered := s.delivered + [(c, s.notice.value)])
    else s.(calls := s.calls[c := call])
  }

  function Next(s: Bridge, e: Event): Bridge
    requires Enabled(s, e)
  {
    match e
    case Begin(c, cmd, tool) => s.(calls := s.calls[c := Call(cmd, tool, Started, None, false)])
    case Again(c, cmd) => s.(calls := s.calls[c := s.calls[c].(cmd := cmd, phase := Started)])
    case Check(c) => Checked(s, c)
    case Reason(c, reason) => Dial(s, c, Some(Loss(s.calls[c].phase.conn, reason)))
    case Connects(k) => SetConn(s, k, s.conns[k].(connecting := false, alive := true))
    case Hello(c) => Connected(s, c, s.calls[c].phase.lost)
    case Acquire(c, sent) => Sent(s, c, sent)
    case Flushed(c) =>
      // the queue is looked up when the wait begins
      SetPhase(s, c, Waiting(s.calls[c].phase.gen, Current(s), s.calls[c].phase.id))
    case Take(c) => Taken(s, c)
    case Fail(c) => SetPhase(s, c, Failed)
    case Deliver(c) => Delivered(s, c)
    case Answer(k, body) =>
      var conn := s.conns[k];
      var q := conn.pending[0];
      SetConn(s, k, conn.(pending := conn.pending[1..], lines := conn.lines + [Reply(q.id, q.cmd, body)]))
    case Drop(k) => SetConn(s, k, s.conns[k].(pending := s.conns[k].pending[1..]))
    case Read(k) =>
      // the reader reads its own transport but puts the reply into the global queue
      var conn := s.conns[k];
      var s1 := SetConn(s, k, conn.(lines := conn.lines[1..]));
      var cur := s1.conns[Current(s)];
      SetConn(s1, Current(s), cur.(queue := cur.queue + [Response(conn.lines[0])]))
    case Die(k) => SetConn(s, k, s.conns[k].(alive := false, pending := []))
    case Eof(k, reason) =>
      // the sentinel goes into the queue of the reader's own connection
      var conn := s.conns[k];
      var s1 := SetConn(s, k, conn.(done := true, queue := conn.queue + [Closed(reason)]));
      if conn.expected then s1 else s1.(lastExit := Some(reason))
    case MarkStop => SetConn(s, s.transport.value, s.conns[s.transport.value].(expected := true))
    case Detach =>
      var k := s.transport.value;
      SetConn(s, k, s.conns[k].(alive := false, pending := [], lines := [], done := true)).(transport := None)
    case StartEmu => NewConn(s.(lastExit := None, notice := None))
  }

  ghost predicate Run(s: Bridge, es: seq<Event>, t: Bridge)
    decreases |es|
  {
    if es == [] then s == t else Enabled(s, es[0]) && Run(Next(s, es[0]), es[1..], t)
  }
}
