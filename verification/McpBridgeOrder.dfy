/**
 What is on its way to the calls: how it dwindles, in which order it comes, and
 what an accepted reply leaves behind.
 */
module McpBridgeOrder {
  import opened Basics
  import opened McpBridge
  import opened McpBridgeSafety
  import opened McpBridgeReconnect
  import opened McpBridgeRuns

  // ----- what is on its way -----

  function MessageIds(m: Message): seq<nat> {
    if m.Response? then [m.reply.id] else []
  }

  function QueueIds(q: seq<Message>): seq<nat> {
    if q == [] then [] else MessageIds(q[0]) + QueueIds(q[1..])
  }

  function LineIds(ls: seq<Reply>): seq<nat> {
    seq(|ls|, i requires 0 <= i < |ls| => ls[i].id)
  }

  function PendingIds(ps: seq<Request>): seq<nat> {
    seq(|ps|, i requires 0 <= i < |ps| => ps[i].id)
  }

  /** The ids that the reader of the connection has not read yet, the next one first. */
  function Wire(conn: Conn): seq<nat> {
    LineIds(conn.lines) + PendingIds(conn.pending)
  }

  function Stream(conn: Conn): seq<nat> {
    QueueIds(conn.queue) + Wire(conn)
  }

  lemma {:induction false} QueueIdsAppends(q: seq<Message>, m: Message)
    ensures QueueIds(q + [m]) == QueueIds(q) + MessageIds(m)
  {
    if q == [] {
      assert q + [m] == [m] && [m][1..] == [];
    } else {
      assert (q + [m])[1..] == q[1..] + [m];
      QueueIdsAppends(q[1..], m);
    }
  }

  lemma {:induction false} QueueIdsAreOfReplies(q: seq<Message>, i: nat)
    requires i < |QueueIds(q)|
    ensures exists j :: 0 <= j < |q| && q[j].Response? && q[j].reply.id == QueueIds(q)[i]
  {
    if i < |MessageIds(q[0])| {
      assert q[0].Response? && q[0].reply.id == QueueIds(q)[i];
    } else {
      QueueIdsAreOfReplies(q[1..], i - |MessageIds(q[0])|);
      var j :| 0 <= j < |q[1..]| && q[1..][j].Response? && q[1..][j].reply.id == QueueIds(q)[i];
      assert q[j + 1] == q[1..][j];
    }
  }

  lemma WireIsOwn(s: Bridge, k: nat)
    requires Sound(s) && HasConn(s, k)
    ensures forall i :: 0 <= i < |Wire(s.conns[k])| ==> SentOn(s, Wire(s.conns[k])[i], k)
  {
    var conn := s.conns[k];
    assert ConnOk(s, k, conn);
    forall i | 0 <= i < |Wire(conn)| ensures SentOn(s, Wire(conn)[i], k) {
      if i < |conn.lines| {
        assert Known(s, conn.lines[i].id, conn.lines[i].cmd, k);
      } else {
        assert Known(s, conn.pending[i - |conn.lines|].id, conn.pending[i - |conn.lines|].cmd, k);
      }
    }
  }

  lemma StreamIsIssued(s: Bridge, k: nat)
    requires Sound(s) && HasConn(s, k)
    ensures forall i :: 0 <= i < |Stream(s.conns[k])| ==> Stream(s.conns[k])[i] in s.issued
  {
    var conn := s.conns[k];
    WireIsOwn(s, k);
    forall i | 0 <= i < |Stream(conn)| ensures Stream(conn)[i] in s.issued {
      if i < |QueueIds(conn.queue)| {
        QueueIdsAreOfReplies(conn.queue, i);
        var j :| 0 <= j < |conn.queue| && conn.queue[j].Response? && conn.queue[j].reply.id == Stream(conn)[i];
        assert ConnOk(s, k, conn) && KnownMessage(s, conn.queue[j]);
      } else {
        assert Stream(conn)[i] == Wire(conn)[i - |QueueIds(conn.queue)|];
      }
    }
  }

  // ----- steps that shorten a stream -----

  /** `a` is `b` without `n` ids at `k`. */
  predicate IsWithout(a: seq<nat>, b: seq<nat>, k: int, n: int) {
    0 <= k && 0 <= n && k + n <= |b| && a == b[..k] + b[k + n..]
  }

  ghost predicate Shortens(a: seq<nat>, b: seq<nat>) {
    exists k, n :: IsWithout(a, b, k, n)
  }

  lemma SameIsShort(a: seq<nat>)
    ensures Shortens(a, a)
  {
    assert IsWithout(a, a, 0, 0) by { assert a == a[..0] + a[0 + 0..]; }
  }

  lemma HeadIsShort(head: seq<nat>, rest: seq<nat>)
    ensures Shortens(rest, head + rest)
  {
    assert IsWithout(rest, head + rest, 0, |head|) by {
      assert (head + rest)[..0] + (head + rest)[0 + |head|..] == rest;
    }
  }

  lemma TailIsShort(front: seq<nat>, tail: seq<nat>)
    ensures Shortens(front, front + tail)
  {
    assert IsWithout(front, front + tail, |front|, |tail|) by {
      assert (front + tail)[..|front|] + (front + tail)[|front| + |tail|..] == front;
    }
  }

  lemma MiddleIsShort(front: seq<nat>, x: nat, tail: seq<nat>)
    ensures Shortens(front + tail, front + ([x] + tail))
  {
    var b := front + ([x] + tail);
    assert IsWithout(front + tail, b, |front|, 1) by {
      assert b[..|front|] == front && b[|front| + 1..] == tail;
    }
  }

  lemma AnswerShortens(conn: Conn, body: int)
    requires conn.pending != []
    ensures var q := conn.pending[0];
            Stream(conn.(pending := conn.pending[1..], lines := conn.lines + [Reply(q.id, q.cmd, body)])) == Stream(conn)
  {
    var q := conn.pending[0];
    var next := conn.(pending := conn.pending[1..], lines := conn.lines + [Reply(q.id, q.cmd, body)]);
    assert Wire(next) == Wire(conn);
  }

  lemma ReadShortens(conn: Conn)
    requires conn.lines != []
    ensures Stream(conn.(lines := conn.lines[1..], queue := conn.queue + [Response(conn.lines[0])])) == Stream(conn)
    ensures |Stream(conn.(lines := conn.lines[1..]))| + 1 == |Stream(conn)|
    ensures Shortens(Stream(conn.(lines := conn.lines[1..])), Stream(conn))
  {
    QueueIdsAppends(conn.queue, Response(conn.lines[0]));
    var rest := Wire(conn.(lines := conn.lines[1..]));
    assert Wire(conn) == [conn.lines[0].id] + rest;
    MiddleIsShort(QueueIds(conn.queue), conn.lines[0].id, rest);
  }

  lemma DropShortens(conn: Conn)
    requires conn.pending != []
    ensures Shortens(Stream(conn.(pending := conn.pending[1..])), Stream(conn))
  {
    var front, rest := QueueIds(conn.queue) + LineIds(conn.lines), PendingIds(conn.pending[1..]);
    MiddleIsShort(front, conn.pending[0].id, rest);
    assert Stream(conn) == front + ([conn.pending[0].id] + rest);
    assert Stream(conn.(pending := conn.pending[1..])) == front + rest;
  }

  lemma DieShortens(conn: Conn)
    ensures Shortens(Stream(conn.(alive := false, pending := [])), Stream(conn))
  {
    var front := QueueIds(conn.queue) + LineIds(conn.lines);
    TailIsShort(front, PendingIds(conn.pending));
    assert Stream(conn) == front + PendingIds(conn.pending);
    assert Stream(conn.(alive := false, pending := [])) == front;
  }

  lemma DetachShortens(conn: Conn)
    ensures Shortens(Stream(conn.(alive := false, pending := [], lines := [], done := true)), Stream(conn))
  {
    TailIsShort(QueueIds(conn.queue), Wire(conn));
    assert Stream(conn.(alive := false, pending := [], lines := [], done := true)) == QueueIds(conn.queue);
  }

  lemma EofShortens(conn: Conn, reason: int)
    ensures Stream(conn.(done := true, queue := conn.queue + [Closed(reason)])) == Stream(conn)
  {
    QueueIdsAppends(conn.queue, Closed(reason));
    assert QueueIds(conn.queue) + [] == QueueIds(conn.queue);
  }

  lemma TakeShortens(conn: Conn)
    requires conn.queue != []
    ensures Stream(conn) == MessageIds(conn.queue[0]) + Stream(conn.(queue := conn.queue[1..]))
    ensures Shortens(Stream(conn.(queue := conn.queue[1..])), Stream(conn))
  {
    var rest := Stream(conn.(queue := conn.queue[1..]));
    assert Stream(conn) == MessageIds(conn.queue[0]) + rest;
    HeadIsShort(MessageIds(conn.queue[0]), rest);
  }

  predicate TouchesOne(e: Event) {
    e.Answer? || e.Drop? || e.Die? || e.Connects? || e.Eof? || e.MarkStop? || e.Detach? || e.Take?
  }

  /** The connection that such a step touches. */
  function Touched(s: Bridge, e: Event): (k: nat)
    requires Enabled(s, e) && TouchesOne(e)
    ensures HasConn(s, k)
  {
    if e.Take? then s.calls[e.c].phase.queue
    else if e.MarkStop? || e.Detach? then s.transport.value
    else e.k
  }

  predicate OneChanged(s: Bridge, t: Bridge, k: nat) {
    && k < |s.conns| == |t.conns| && t.conns == s.conns[k := t.conns[k]]
    && t.issued == s.issued && t.nextId == s.nextId
  }

  lemma TakeTouchesOne(s: Bridge, c: nat)
    requires Enabled(s, Take(c))
    ensures OneChanged(s, Taken(s, c), s.calls[c].phase.queue)
  {
  }

  lemma TouchesNoOther(s: Bridge, e: Event)
    requires Enabled(s, e) && TouchesOne(e)
    ensures OneChanged(s, Next(s, e), Touched(s, e))
  {
    if e.Take? { TakeTouchesOne(s, e.c); }
  }

  lemma TouchedShortens(s: Bridge, e: Event)
    requires Enabled(s, e) && TouchesOne(e)
    ensures var (t, k) := (Next(s, e), Touched(s, e));
            |t.conns| == |s.conns| && Shortens(Stream(t.conns[k]), Stream(s.conns[k]))
  {
    var conn := s.conns[Touched(s, e)];
    SameIsShort(Stream(conn));
    if e.Answer? {
      AnswerShortens(conn, e.body);
    } else if e.Drop? {
      DropShortens(conn);
    } else if e.Die? {
      DieShortens(conn);
    } else if e.Eof? {
      EofShortens(conn, e.reason);
    } else if e.Detach? {
      DetachShortens(conn);
    } else if e.Take? {
      TakeShortens(conn);
    }
  }

  lemma ReadHere(s: Bridge, k: nat)
    requires Enabled(s, Read(k)) && k == Current(s)
    ensures OneChanged(s, Next(s, Read(k)), k) && Stream(Next(s, Read(k)).conns[k]) == Stream(s.conns[k])
  {
    ReadShortens(s.conns[k]);
  }

  /** The reader of a replaced connection feeds the current queue. */
  lemma ReadThere(s: Bridge, k: nat)
    requires Enabled(s, Read(k)) && k != Current(s)
    ensures var (t, cur, x) := (Next(s, Read(k)), Current(s), s.conns[k].lines[0].id);
            && |t.conns| == |s.conns| && t.issued == s.issued && t.nextId == s.nextId
            && t.conns == s.conns[k := t.conns[k]][cur := t.conns[cur]]
            && Shortens(Stream(t.conns[k]), Stream(s.conns[k]))
            && |Stream(t.conns[k])| + 1 == |Stream(s.conns[k])|
            && Stream(t.conns[cur]) == QueueIds(s.conns[cur].queue) + ([x] + Wire(s.conns[cur]))
  {
    var conn, cur := s.conns[k], s.conns[Current(s)];
    ReadShortens(conn);
    QueueIdsAppends(cur.queue, Response(conn.lines[0]));
    assert QueueIds(cur.queue) + [conn.lines[0].id] + Wire(cur) == QueueIds(cur.queue) + ([conn.lines[0].id] + Wire(cur));
  }

  /** A request that is written joins the end of the stream of the transport. */
  lemma SentStream(s: Bridge, c: nat)
    requires Enabled(s, Acquire(c, true))
    ensures var (t, k) := (Sent(s, c, true), s.transport.value);
            && |t.conns| == |s.conns| && t.conns == s.conns[k := t.conns[k]]
            && (Stream(t.conns[k]) == Stream(s.conns[k]) || Stream(t.conns[k]) == Stream(s.conns[k]) + [s.nextId])
  {
    var conn := s.conns[s.transport.value];
    if conn.alive {
      var q := Request(s.nextId, s.calls[c].cmd);
      assert PendingIds(conn.pending + [q]) == PendingIds(conn.pending) + [s.nextId];
      assert Stream(Written(conn, q)) == Stream(conn) + [s.nextId];
    }
  }

  // ----- it dwindles -----

  function OnTheWay(conns: seq<Conn>): nat {
    if conns == [] then 0 else OnTheWay(conns[..|conns| - 1]) + |Stream(conns[|conns| - 1])|
  }

  lemma {:induction false} OnTheWayUpdates(conns: seq<Conn>, k: nat, conn: Conn)
    requires k < |conns|
    ensures OnTheWay(conns[k := conn]) + |Stream(conns[k])| == OnTheWay(conns) + |Stream(conn)|
  {
    var n := |conns| - 1;
    if k == n {
      assert conns[k := conn][..n] == conns[..n];
    } else {
      assert conns[k := conn][..n] == conns[..n][k := conn];
      OnTheWayUpdates(conns[..n], k, conn);
    }
  }

  predicate TakesReply(s: Bridge, e: Event)
    requires Enabled(s, e)
  {
    e.Take? && s.conns[s.calls[e.c].phase.queue].queue[0].Response?
  }

  function One(b: bool): nat {
    if b then 1 else 0
  }

  lemma TouchedDwindles(s: Bridge, e: Event)
    requires Enabled(s, e) && TouchesOne(e)
    ensures OnTheWay(Next(s, e).conns) + One(TakesReply(s, e)) <= OnTheWay(s.conns)
  {
    var t, k := Next(s, e), Touched(s, e);
    TouchesNoOther(s, e);
    TouchedShortens(s, e);
    OnTheWayUpdates(s.conns, k, t.conns[k]);
    if e.Take? { TakeShortens(s.conns[k]); }
  }

  lemma ReadKeepsAll(s: Bridge, k: nat)
    requires Enabled(s, Read(k))
    ensures OnTheWay(Next(s, Read(k)).conns) == OnTheWay(s.conns)
  {
    var t, cur := Next(s, Read(k)), Current(s);
    if k == cur {
      ReadHere(s, k);
      OnTheWayUpdates(s.conns, k, t.conns[k]);
    } else {
      ReadThere(s, k);
      OnTheWayUpdates(s.conns, k, t.conns[k]);
      OnTheWayUpdates(s.conns[k := t.conns[k]], cur, t.conns[cur]);
    }
  }

  lemma SentAddsOne(s: Bridge, c: nat, sent: bool)
    requires Enabled(s, Acquire(c, sent))
    ensures OnTheWay(Sent(s, c, sent).conns) <= OnTheWay(s.conns) + 1
  {
    if sent {
      SentStream(s, c);
      OnTheWayUpdates(s.conns, s.transport.value, Sent(s, c, true).conns[s.transport.value]);
    }
  }

  predicate OnlyCalls(e: Event) {
    e.Begin? || e.Again? || e.Check? || e.Reason? || e.Hello? || e.Flushed? || e.Fail? || e.Deliver? || e.StartEmu?
  }

  /** The other steps change no connection, and may open one. */
  lemma OnlyCallsOpen(s: Bridge, e: Event)
    requires Enabled(s, e) && OnlyCalls(e)
    ensures Next(s, e).issued == s.issued && Next(s, e).nextId == s.nextId
    ensures Next(s, e).conns == s.conns || Next(s, e).conns == NewConn(s).conns
  {
  }

  lemma NewConnAddsNothing(s: Bridge)
    ensures OnTheWay(NewConn(s).conns) == OnTheWay(s.conns)
    ensures Stream(NewConn(s).conns[|s.conns|]) == []
  {
    assert NewConn(s).conns[..|s.conns|] == s.conns;
  }

  /** Only a request that is sent adds to what is on the way, and that by one. */
  lemma StepDwindles(s: Bridge, e: Event)
    requires Enabled(s, e)
    ensures OnTheWay(Next(s, e).conns) + One(TakesReply(s, e)) <= OnTheWay(s.conns) + One(e.Acquire?)
  {
    if TouchesOne(e) {
      TouchedDwindles(s, e);
    } else if e.Read? {
      ReadKeepsAll(s, e.k);
    } else if e.Acquire? {
      SentAddsOne(s, e.c, e.sent);
    } else {
      OnlyCallsOpen(s, e);
      NewConnAddsNothing(s);
    }
  }

  /** How many replies the calls take in a run, and how many requests they number. */
  ghost function Takes(s: Bridge, es: seq<Event>): nat
    decreases |es|
  {
    if es == [] || !Enabled(s, es[0]) then 0 else One(TakesReply(s, es[0])) + Takes(Next(s, es[0]), es[1..])
  }

  function Sends(es: seq<Event>): nat {
    if es == [] then 0 else One(es[0].Acquire?) + Sends(es[1..])
  }

  /**
   In any run, with any replacements: every reply that is taken, accepted or
   discarded, or is still on its way in any connection, is paid for by a request.
   */
  lemma {:induction false} RepliesArePaidFor(s: Bridge, es: seq<Event>, t: Bridge)
    requires Run(s, es, t)
    ensures Takes(s, es) + OnTheWay(t.conns) <= OnTheWay(s.conns) + Sends(es)
    decreases |es|
  {
    if es != [] {
      StepDwindles(s, es[0]);
      RepliesArePaidFor(Next(s, es[0]), es[1..], t);
    }
  }

  /** The call holds the current lock all along. */
  ghost predicate KeepsLock(s: Bridge, es: seq<Event>, c: nat)
    decreases |es|
  {
    && HasCall(s, c) && Holding(s.calls[c].phase) && s.calls[c].phase.gen + 1 == |s.conns|
    && (es != [] ==> Enabled(s, es[0]) && KeepsLock(Next(s, es[0]), es[1..], c))
  }

  lemma NobodyElseSends(s: Bridge, c: nat, e: Event)
    requires Tidy(s) && Enabled(s, e)
    requires HasCall(s, c) && Holding(s.calls[c].phase) && s.calls[c].phase.gen + 1 == |s.conns|
    ensures !e.Acquire?
  {
    assert !LockFree(s, s.calls[c].phase.gen);
    forall d | d in s.calls && s.calls[d].phase.Queued? ensures s.calls[d].phase.gen == s.calls[c].phase.gen {
      assert Placed(s, s.calls[d]);
    }
  }

  lemma {:induction false} WaitDwindles(s: Bridge, es: seq<Event>, t: Bridge, c: nat)
    requires Sound(s) && Tidy(s) && HarmlessRun(s, es, t) && KeepsLock(s, es, c)
    ensures Takes(s, es) + OnTheWay(t.conns) <= OnTheWay(s.conns)
    decreases |es|
  {
    if es != [] {
      NobodyElseSends(s, c, es[0]);
      StepDwindles(s, es[0]);
      NextSound(s, es[0]);
      NextTidy(s, es[0]);
      WaitDwindles(Next(s, es[0]), es[1..], t, c);
    }
  }

  /**
   No permanent off-by-one: while a call holds the current lock nothing is sent, and
   every reply it discards makes what is on the way one less. So it discards no more
   than was on the way when it got the lock.
   */
  lemma {:induction false} StreamHealsItself(tcp: bool, es: seq<Event>, s: Bridge, fs: seq<Event>, t: Bridge, c: nat)
    requires HarmlessRun(Init(tcp), es, s) && HarmlessRun(s, fs, t) && KeepsLock(s, fs, c)
    ensures Takes(s, fs) + OnTheWay(t.conns) <= OnTheWay(s.conns)
  {
    HarmlessRunTidy(Init(tcp), es, s);
    WaitDwindles(s, fs, t, c);
  }

  // ----- its order -----

  /** The ids that were sent on connection `k` increase. */
  predicate OwnOrder(s: Bridge, k: nat, ids: seq<nat>) {
    forall i, j :: 0 <= i < j < |ids| && SentOn(s, ids[i], k) && SentOn(s, ids[j], k) ==> ids[i] < ids[j]
  }

  ghost predicate InOrder(s: Bridge) {
    forall k :: 0 <= k < |s.conns| ==> OwnOrder(s, k, Stream(s.conns[k]))
  }

  lemma ShorterInOrder(s: Bridge, k: nat, a: seq<nat>, b: seq<nat>)
    requires OwnOrder(s, k, b) && Shortens(a, b)
    ensures OwnOrder(s, k, a)
  {
    var at, n :| IsWithout(a, b, at, n);
    assert forall i :: 0 <= i < |a| ==> a[i] == b[if i < at then i else i + n];
  }

  lemma StrayInOrder(s: Bridge, k: nat, front: seq<nat>, x: nat, tail: seq<nat>)
    requires OwnOrder(s, k, front + tail) && !SentOn(s, x, k)
    ensures OwnOrder(s, k, front + ([x] + tail))
  {
    var a, b := front + ([x] + tail), front + tail;
    assert forall i :: 0 <= i < |a| && i != |front| ==> a[i] == b[if i < |front| then i else i - 1];
  }

  lemma GrownInOrder(s: Bridge, t: Bridge, k: nat, ids: seq<nat>)
    requires OwnOrder(s, k, ids) && forall i :: 0 <= i < |ids| ==> ids[i] in s.issued
    requires forall id :: id in s.issued ==> id in t.issued && t.issued[id] == s.issued[id]
    ensures OwnOrder(t, k, ids)
  {
    forall i, j | 0 <= i < j < |ids| && SentOn(t, ids[i], k) && SentOn(t, ids[j], k) ensures ids[i] < ids[j] {
      assert SentOn(s, ids[i], k) && SentOn(s, ids[j], k);
    }
  }

  lemma NewestInOrder(s: Bridge, k: nat, ids: seq<nat>, id: nat)
    requires OwnOrder(s, k, ids) && forall i :: 0 <= i < |ids| ==> ids[i] < id
    ensures OwnOrder(s, k, ids + [id])
  {
  }

  lemma SameOrder(s: Bridge, t: Bridge, k: nat, ids: seq<nat>)
    requires OwnOrder(s, k, ids) && t.issued == s.issued
    ensures OwnOrder(t, k, ids)
  {
    forall i, j | 0 <= i < j < |ids| && SentOn(t, ids[i], k) && SentOn(t, ids[j], k) ensures ids[i] < ids[j] {
      assert SentOn(s, ids[i], k) && SentOn(s, ids[j], k);
    }
  }

  lemma TouchedInOrder(s: Bridge, e: Event)
    requires InOrder(s) && Enabled(s, e) && TouchesOne(e)
    ensures InOrder(Next(s, e))
  {
    var t, k := Next(s, e), Touched(s, e);
    TouchesNoOther(s, e);
    TouchedShortens(s, e);
    forall j | 0 <= j < |t.conns| ensures OwnOrder(t, j, Stream(t.conns[j])) {
      SameOrder(s, t, j, Stream(s.conns[j]));
      if j == k { ShorterInOrder(t, k, Stream(t.conns[k]), Stream(s.conns[k])); }
    }
  }

  lemma ReadHereInOrder(s: Bridge, k: nat)
    requires InOrder(s) && Enabled(s, Read(k)) && k == Current(s)
    ensures InOrder(Next(s, Read(k)))
  {
    var t := Next(s, Read(k));
    ReadHere(s, k);
    forall j | 0 <= j < |t.conns| ensures OwnOrder(t, j, Stream(t.conns[j])) {
      SameOrder(s, t, j, Stream(s.conns[j]));
    }
  }

  lemma ReadThereInOrder(s: Bridge, k: nat)
    requires Sound(s) && InOrder(s) && Enabled(s, Read(k)) && k != Current(s)
    ensures InOrder(Next(s, Read(k)))
  {
    var t, cur, x := Next(s, Read(k)), Current(s), s.conns[k].lines[0].id;
    ReadThere(s, k);
    WireIsOwn(s, k);
    assert Wire(s.conns[k])[0] == x;
    forall j | 0 <= j < |t.conns| ensures OwnOrder(t, j, Stream(t.conns[j])) {
      SameOrder(s, t, j, Stream(s.conns[j]));
      if j == cur {
        StrayInOrder(t, cur, QueueIds(s.conns[cur].queue), x, Wire(s.conns[cur]));
      } else if j == k {
        ShorterInOrder(t, k, Stream(t.conns[k]), Stream(s.conns[k]));
      }
    }
  }

  lemma SentInOrder(s: Bridge, c: nat, sent: bool)
    requires Sound(s) && InOrder(s) && Enabled(s, Acquire(c, sent))
    ensures InOrder(Sent(s, c, sent))
  {
    var t := Sent(s, c, sent);
    if sent { SentStream(s, c); }
    forall j | 0 <= j < |t.conns| ensures OwnOrder(t, j, Stream(t.conns[j])) {
      StreamIsIssued(s, j);
      GrownInOrder(s, t, j, Stream(s.conns[j]));
      NewestInOrder(t, j, Stream(s.conns[j]), s.nextId);
    }
  }

  lemma CallsInOrder(s: Bridge, e: Event)
    requires InOrder(s) && Enabled(s, e) && OnlyCalls(e)
    ensures InOrder(Next(s, e))
  {
    var t := Next(s, e);
    OnlyCallsOpen(s, e);
    NewConnAddsNothing(s);
    forall j | 0 <= j < |t.conns| ensures OwnOrder(t, j, Stream(t.conns[j])) {
      if j < |s.conns| { SameOrder(s, t, j, Stream(s.conns[j])); }
    }
  }

  /** In every step the requests of a connection are answered, read and taken in the order they were sent. */
  lemma NextInOrder(s: Bridge, e: Event)
    requires Sound(s) && InOrder(s) && Enabled(s, e)
    ensures InOrder(Next(s, e))
  {
    if TouchesOne(e) {
      TouchedInOrder(s, e);
    } else if e.Read? && e.k == Current(s) {
      ReadHereInOrder(s, e.k);
    } else if e.Read? {
      ReadThereInOrder(s, e.k);
    } else if e.Acquire? {
      SentInOrder(s, e.c, e.sent);
    } else {
      CallsInOrder(s, e);
    }
  }

  lemma {:induction false} RunInOrder(s: Bridge, es: seq<Event>, t: Bridge)
    requires Sound(s) && InOrder(s) && Run(s, es, t)
    ensures InOrder(t)
    decreases |es|
  {
    if es != [] {
      NextSound(s, es[0]);
      NextInOrder(s, es[0]);
      RunInOrder(Next(s, es[0]), es[1..], t);
    }
  }

  // ----- what an accepted reply leaves -----

  /** The step accepts the head of the queue as the reply of the waiting call. */
  predicate Accepts(s: Bridge, e: Event)
    requires Enabled(s, e)
  {
    TakesReply(s, e) && s.conns[s.calls[e.c].phase.queue].queue[0].reply.id == s.calls[e.c].phase.id
  }

  function Wires(conns: seq<Conn>): seq<nat> {
    if conns == [] then [] else Wires(conns[..|conns| - 1]) + Wire(conns[|conns| - 1])
  }

  /** What can still get to the call that reads the current queue. */
  function Arriving(s: Bridge): seq<nat>
    requires s.conns != []
  {
    QueueIds(s.conns[Current(s)].queue) + Wires(s.conns)
  }

  /** Those of the ids that were not sent on connection `k`. */
  function NotSentOn(s: Bridge, k: nat, ids: seq<nat>): seq<nat> {
    if ids == [] then []
    else (if SentOn(s, ids[0], k) then [] else [ids[0]]) + NotSentOn(s, k, ids[1..])
  }

  /** Late replies of replaced connections: already in the current queue, or still unread. */
  function Strays(s: Bridge): seq<nat>
    requires s.conns != []
  {
    var k := Current(s);
    NotSentOn(s, k, QueueIds(s.conns[k].queue)) + Wires(s.conns[..k])
  }

  lemma StreamAtMost(conn: Conn, max: nat)
    requires AtMost(conn, max)
    ensures forall i :: 0 <= i < |Stream(conn)| ==> Stream(conn)[i] <= max
  {
    forall i | 0 <= i < |Stream(conn)| ensures Stream(conn)[i] <= max {
      if i < |QueueIds(conn.queue)| { QueueIdsAreOfReplies(conn.queue, i); }
    }
  }

  lemma NewestIsLast(s: Bridge, k: nat, id: nat, rest: seq<nat>)
    requires OwnOrder(s, k, [id] + rest) && SentOn(s, id, k) && forall i :: 0 <= i < |rest| ==> rest[i] <= id
    ensures forall i :: 0 <= i < |rest| ==> !SentOn(s, rest[i], k) && rest[i] < id
  {
    var ids := [id] + rest;
    forall i | 0 <= i < |rest| ensures !SentOn(s, rest[i], k) {
      assert ids[0] == id && ids[i + 1] == rest[i];
    }
  }

  lemma OwnAtTheEnd(s: Bridge, k: nat, front: seq<nat>, own: seq<nat>)
    ensures own != [] && (forall i :: 0 <= i < |own| ==> SentOn(s, own[i], k)) ==>
              exists i :: 0 <= i < |front + own| && SentOn(s, (front + own)[i], k)
  {
    if own != [] { assert (front + own)[|front|] == own[0]; }
  }

  /** The accepted id is the newest on its connection, so it is the last of that connection. */
  lemma AcceptedIsLast(s: Bridge, e: Event)
    requires Sound(s) && Tidy(s) && InOrder(s) && Enabled(s, e) && Accepts(s, e)
    ensures var p := s.calls[e.c].phase;
            var rest := QueueIds(s.conns[p.queue].queue[1..]);
            && p.gen == p.queue && SentOn(s, p.id, p.queue) && Wire(s.conns[p.queue]) == []
            && QueueIds(s.conns[p.queue].queue) == [p.id] + rest
            && (forall i :: 0 <= i < |rest| ==> !SentOn(s, rest[i], p.queue) && rest[i] < p.id)
  {
    var p := s.calls[e.c].phase;
    var conn := s.conns[p.queue];
    assert Placed(s, s.calls[e.c]);
    if p.gen + 1 == |s.conns| { NewestIsGreatest(s, p.queue, p.id); }
    StreamAtMost(conn, p.id);
    WireIsOwn(s, p.queue);
    var rest, wire := QueueIds(conn.queue[1..]), Wire(conn);
    var ids := Stream(conn);
    assert ids == [p.id] + rest + wire && ids[0] == p.id;
    var others := rest + wire;
    assert [p.id] + others == ids;
    assert forall i :: 0 <= i < |others| ==> others[i] == ids[i + 1];
    NewestIsLast(s, p.queue, p.id, others);
    assert forall i :: 0 <= i < |rest| ==> rest[i] == others[i];
    OwnAtTheEnd(s, p.queue, rest, wire);
  }

  predicate AllSentOn(s: Bridge, k: nat, ids: seq<nat>) {
    forall i :: 0 <= i < |ids| ==> SentOn(s, ids[i], k)
  }

  lemma {:induction false} NoneSentOn(s: Bridge, k: nat, ids: seq<nat>)
    ensures (forall i :: 0 <= i < |ids| ==> !SentOn(s, ids[i], k)) ==> NotSentOn(s, k, ids) == ids
    ensures NotSentOn(s, k, ids) == [] <==> AllSentOn(s, k, ids)
  {
    if ids != [] {
      NoneSentOn(s, k, ids[1..]);
      assert ids == [ids[0]] + ids[1..];
    }
  }

  lemma {:induction false} WiresAreOlder(s: Bridge, n: nat, i: nat)
    requires Sound(s) && n <= |s.conns| && i < |Wires(s.conns[..n])|
    ensures Wires(s.conns[..n])[i] in s.issued && s.issued[Wires(s.conns[..n])[i]].conn < n
  {
    assert s.conns[..n][..n - 1] == s.conns[..n - 1];
    if i < |Wires(s.conns[..n - 1])| {
      WiresAreOlder(s, n - 1, i);
    } else {
      WireIsOwn(s, n - 1);
      assert Wires(s.conns[..n])[i] == Wire(s.conns[n - 1])[i - |Wires(s.conns[..n - 1])|];
    }
  }

  predicate Drained(conn: Conn) {
    conn.lines == [] && conn.pending == []
  }

  lemma {:induction false} WiresEmptyIff(conns: seq<Conn>)
    ensures Wires(conns) == [] <==> forall j :: 0 <= j < |conns| ==> Drained(conns[j])
  {
    if conns != [] {
      var n := |conns| - 1;
      WiresEmptyIff(conns[..n]);
      assert Wire(conns[n]) == [] <==> Drained(conns[n]);
      assert forall j :: 0 <= j < n ==> conns[..n][j] == conns[j];
    }
  }

  predicate AllDrained(conns: seq<Conn>, n: nat)
    requires n <= |conns|
  {
    forall j :: 0 <= j < n ==> Drained(conns[j])
  }

  /** The replaced connections are drained, and the current queue has nothing of them. */
  predicate OthersDrained(s: Bridge)
    requires s.conns != []
  {
    AllSentOn(s, Current(s), QueueIds(s.conns[Current(s)].queue)) && AllDrained(s.conns, Current(s))
  }

  lemma WiresBeforeEmptyIff(conns: seq<Conn>, n: nat)
    requires n <= |conns|
    ensures Wires(conns[..n]) == [] <==> AllDrained(conns, n)
  {
    WiresEmptyIff(conns[..n]);
    assert forall j :: 0 <= j < n ==> conns[..n][j] == conns[j];
  }

  lemma BothEmpty(a: seq<nat>, b: seq<nat>)
    ensures a + b == [] <==> a == [] && b == []
  {
  }

  lemma NoStraysIff(s: Bridge)
    requires s.conns != []
    ensures Strays(s) == [] <==> OthersDrained(s)
  {
    var k := Current(s);
    var ids := QueueIds(s.conns[k].queue);
    NoneSentOn(s, k, ids);
    WiresBeforeEmptyIff(s.conns, k);
    BothEmpty(NotSentOn(s, k, ids), Wires(s.conns[..k]));
  }

  lemma {:induction false} EmptyWireIsLast(conns: seq<Conn>, before: seq<Conn>)
    requires conns != [] && conns[..|conns| - 1] == before && Wire(conns[|conns| - 1]) == []
    ensures Wires(conns) == Wires(before)
  {
    assert Wires(before) + [] == Wires(before);
  }

  lemma {:induction false} OwnHeadIsSkipped(s: Bridge, k: nat, id: nat, rest: seq<nat>)
    requires SentOn(s, id, k)
    ensures NotSentOn(s, k, [id] + rest) == NotSentOn(s, k, rest)
  {
    assert ([id] + rest)[1..] == rest;
    assert [] + NotSentOn(s, k, rest) == NotSentOn(s, k, rest);
  }

  /** The strays at an acceptance: what is behind the accepted reply, and what the replaced connections still hold. */
  lemma StraysInPlace(s: Bridge, e: Event)
    requires Sound(s) && Tidy(s) && InOrder(s) && Enabled(s, e) && Accepts(s, e)
    requires s.calls[e.c].phase.queue == Current(s)
    ensures Strays(s) == QueueIds(s.conns[Current(s)].queue[1..]) + Wires(s.conns[..Current(s)])
  {
    var k, p := Current(s), s.calls[e.c].phase;
    var rest := QueueIds(s.conns[k].queue[1..]);
    AcceptedIsLast(s, e);
    NoneSentOn(s, k, rest);
    OwnHeadIsSkipped(s, k, p.id, rest);
  }

  lemma AcceptLeavesStrays(s: Bridge, e: Event)
    requires Sound(s) && Tidy(s) && InOrder(s) && Enabled(s, e) && Accepts(s, e)
    requires s.calls[e.c].phase.queue == Current(s)
    ensures Arriving(Next(s, e)) == Strays(s)
  {
    var t, k := Next(s, e), Current(s);
    AcceptedIsLast(s, e);
    StraysInPlace(s, e);
    assert t.conns[..k] == s.conns[..k] && Wire(t.conns[k]) == Wire(s.conns[k]);
    EmptyWireIsLast(t.conns, s.conns[..k]);
  }

  /** An old reply of a replaced connection. */
  predicate Outdated(s: Bridge, id: nat, newest: nat) {
    id in s.issued && s.issued[id].conn < Max(0, |s.conns| - 1) && id < newest
  }

  lemma BehindIsOutdated(s: Bridge, e: Event, i: nat)
    requires Sound(s) && Tidy(s) && InOrder(s) && Enabled(s, e) && Accepts(s, e)
    requires s.calls[e.c].phase.queue == Current(s) && i < |QueueIds(s.conns[Current(s)].queue[1..])|
    ensures Outdated(s, QueueIds(s.conns[Current(s)].queue[1..])[i], s.calls[e.c].phase.id)
  {
    var k := Current(s);
    AcceptedIsLast(s, e);
    StreamIsIssued(s, k);
    assert Stream(s.conns[k])[i + 1] == QueueIds(s.conns[k].queue[1..])[i];
  }

  lemma UnreadIsOutdated(s: Bridge, newest: nat, i: nat)
    requires Sound(s) && s.conns != [] && newest + 1 == s.nextId && SentOn(s, newest, Current(s))
    requires i < |Wires(s.conns[..Current(s)])|
    ensures Outdated(s, Wires(s.conns[..Current(s)])[i], newest)
  {
    WiresAreOlder(s, Current(s), i);
  }

  lemma StraysAreOutdated(s: Bridge, e: Event, i: nat)
    requires Sound(s) && Tidy(s) && InOrder(s) && Enabled(s, e) && Accepts(s, e)
    requires s.calls[e.c].phase.queue == Current(s) && i < |Strays(s)|
    ensures Outdated(s, Strays(s)[i], s.calls[e.c].phase.id)
  {
    var n := |QueueIds(s.conns[Current(s)].queue[1..])|;
    StraysInPlace(s, e);
    if i < n {
      BehindIsOutdated(s, e, i);
    } else {
      assert Placed(s, s.calls[e.c]);
      UnreadIsOutdated(s, s.calls[e.c].phase.id, i - n);
    }
  }

  /**
   What an accepted reply leaves, after any harmless run. Nothing that was sent on
   its connection is left there. If that is the current one, then exactly the
   strays of replaced connections can still arrive, all of them older; so nothing
   can, if and only if the replaced connections had been drained.
   */
  lemma {:induction false} AcceptanceLeavesOnlyStrays(tcp: bool, es: seq<Event>, s: Bridge, e: Event)
    requires HarmlessRun(Init(tcp), es, s) && Enabled(s, e) && Accepts(s, e)
    ensures var (p, left) := (s.calls[e.c].phase, Stream(Next(s, e).conns[s.calls[e.c].phase.queue]));
            forall i :: 0 <= i < |left| ==> !SentOn(s, left[i], p.queue)
    ensures s.calls[e.c].phase.queue == Current(s) ==>
              && Arriving(Next(s, e)) == Strays(s)
              && (forall i :: 0 <= i < |Strays(s)| ==> Outdated(s, Strays(s)[i], s.calls[e.c].phase.id))
              && (Arriving(Next(s, e)) == [] <==> OthersDrained(s))
  {
    HarmlessRunTidy(Init(tcp), es, s);
    HarmlessRunRuns(Init(tcp), es, s);
    RunInOrder(Init(tcp), es, s);
    AcceptedIsLast(s, e);
    if s.calls[e.c].phase.queue == Current(s) {
      AcceptLeavesStrays(s, e);
      NoStraysIff(s);
      forall i | 0 <= i < |Strays(s)| ensures Outdated(s, Strays(s)[i], s.calls[e.c].phase.id) {
        StraysAreOutdated(s, e, i);
      }
    }
  }
}
