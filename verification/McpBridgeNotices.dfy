/**
 Restart notices under interleaved tool calls, resource reads, crashes, stops
 and starts.
 */
module McpBridgeNotices {
  import opened Basics
  import opened McpBridge

  /** The end of this backend was not requested, and cannot be requested any more. */
  predicate Unexpected(s: Bridge, k: nat) {
    HasConn(s, k) && !s.conns[k].expected && (s.tcp || !s.conns[k].alive)
  }

  predicate NoticeOk(s: Bridge, n: Notice) {
    n.serial < s.nextNotice && Unexpected(s, n.loss.conn)
  }

  /** Was the notice made outside of any tool call? */
  predicate MadeByRead(s: Bridge, n: Notice) {
    n.maker in s.calls && !s.calls[n.maker].tool
  }

  predicate PhaseOk(s: Bridge, p: Phase) {
    match p
    case Asking(k) => Unexpected(s, k)
    case Dialing(lost) => lost.Some? ==> Unexpected(s, lost.value.conn)
    case _ => true
  }

  /** A held notice belongs to the call that holds it. */
  predicate HolderOk(s: Bridge, c: nat, call: Call) {
    call.holder.Some? ==> NoticeOk(s, call.holder.value) && call.holder.value.maker == c && call.tool
  }

  predicate DeliveryOk(s: Bridge, d: (nat, Notice)) {
    NoticeOk(s, d.1) && (d.1.maker == d.0 || MadeByRead(s, d.1))
  }

  predicate HoldsSerial(call: Call, serial: nat) {
    call.holder.Some? && call.holder.value.serial == serial
  }

  predicate SameHolder(a: Call, b: Call) {
    a.holder.Some? && HoldsSerial(b, a.holder.value.serial)
  }

  /** A serial is in at most one place: one holder, the global, or one delivery. */
  ghost predicate Unique(s: Bridge) {
    && (forall c, d :: c in s.calls && d in s.calls && SameHolder(s.calls[c], s.calls[d]) ==> c == d)
    && (forall i, j :: 0 <= i < j < |s.delivered| ==> s.delivered[i].1.serial != s.delivered[j].1.serial)
    && (forall i, c :: 0 <= i < |s.delivered| && c in s.calls ==> !HoldsSerial(s.calls[c], s.delivered[i].1.serial))
    && (s.notice.Some? ==>
          && (forall c :: c in s.calls ==> !HoldsSerial(s.calls[c], s.notice.value.serial))
          && (forall i :: 0 <= i < |s.delivered| ==> s.delivered[i].1.serial != s.notice.value.serial))
  }

  ghost predicate Proper(s: Bridge) {
    && (forall k :: 0 <= k < |s.conns| ==> if s.tcp then !s.conns[k].expected else !s.conns[k].connecting)
    && (forall c :: c in s.calls ==> PhaseOk(s, s.calls[c].phase) && HolderOk(s, c, s.calls[c]))
    && (forall i :: 0 <= i < |s.delivered| ==> DeliveryOk(s, s.delivered[i]))
    && (s.notice.Some? ==> NoticeOk(s, s.notice.value) && MadeByRead(s, s.notice.value))
    && Unique(s)
  }

  /** What a step may do to the past: no dead backend becomes expected, no call changes its kind. */
  ghost predicate Keeps(s: Bridge, t: Bridge) {
    && t.tcp == s.tcp && s.nextNotice <= t.nextNotice
    && (forall k: nat :: Unexpected(s, k) ==> Unexpected(t, k))
    && (forall c :: c in s.calls ==> c in t.calls && t.calls[c].tool == s.calls[c].tool)
  }

  /** A step that leaves the notices where they are. */
  lemma SamePlaces(s: Bridge, t: Bridge)
    requires Proper(s) && Keeps(s, t) && t.delivered == s.delivered
    requires t.notice == s.notice || t.notice == None
    requires forall c :: c in t.calls ==> t.calls[c].holder == (if c in s.calls then s.calls[c].holder else None)
    requires forall c :: c in t.calls ==> PhaseOk(t, t.calls[c].phase)
    requires forall k :: 0 <= k < |t.conns| ==> if t.tcp then !t.conns[k].expected else !t.conns[k].connecting
    ensures Proper(t)
  {
    forall c | c in t.calls ensures HolderOk(t, c, t.calls[c]) {
      if c in s.calls { assert HolderOk(s, c, s.calls[c]); }
    }
    forall i | 0 <= i < |t.delivered| ensures DeliveryOk(t, t.delivered[i]) {
      assert DeliveryOk(s, s.delivered[i]);
    }
    forall i, c | 0 <= i < |t.delivered| && c in t.calls ensures !HoldsSerial(t.calls[c], t.delivered[i].1.serial) {
      if c in s.calls { assert !HoldsSerial(s.calls[c], s.delivered[i].1.serial); }
    }
    if t.notice.Some? {
      forall c | c in t.calls ensures !HoldsSerial(t.calls[c], t.notice.value.serial) {
        if c in s.calls { assert !HoldsSerial(s.calls[c], s.notice.value.serial); }
      }
    }
  }

  lemma PhasesKept(s: Bridge, t: Bridge)
    requires Proper(s) && Keeps(s, t)
    ensures forall c :: c in s.calls ==> PhaseOk(t, s.calls[c].phase)
  {
    forall c | c in s.calls ensures PhaseOk(t, s.calls[c].phase) {
      assert PhaseOk(s, s.calls[c].phase);
    }
  }

  lemma HolderKept(s: Bridge, t: Bridge, c: nat, call: Call)
    requires Keeps(s, t) && HolderOk(s, c, call)
    ensures HolderOk(t, c, call)
  {
  }

  lemma DeliveriesKept(s: Bridge, t: Bridge)
    requires Proper(s) && Keeps(s, t)
    ensures forall i :: 0 <= i < |s.delivered| ==> DeliveryOk(t, s.delivered[i])
  {
    forall i | 0 <= i < |s.delivered| ensures DeliveryOk(t, s.delivered[i]) {
      assert DeliveryOk(s, s.delivered[i]);
    }
  }

  lemma IdsDoNotMatter(s: Bridge, next: nat, issued: map<nat, Issue>)
    requires Proper(s)
    ensures Proper(s.(nextId := next, issued := issued))
  {
    PhasesKept(s, s.(nextId := next, issued := issued));
    SamePlaces(s, s.(nextId := next, issued := issued));
  }

  lemma SetPhaseProper(s: Bridge, c: nat, p: Phase)
    requires Proper(s) && HasCall(s, c) && PhaseOk(s, p)
    ensures Proper(SetPhase(s, c, p))
  {
    PhasesKept(s, SetPhase(s, c, p));
    SamePlaces(s, SetPhase(s, c, p));
  }

  lemma NewConnProper(s: Bridge)
    requires Proper(s)
    ensures Proper(NewConn(s)) && Keeps(s, NewConn(s))
  {
    PhasesKept(s, NewConn(s));
    SamePlaces(s, NewConn(s));
  }

  /** The serial of a new notice is in no place yet. */
  lemma NewSerial(s: Bridge)
    requires Proper(s)
    ensures forall c :: c in s.calls ==> !HoldsSerial(s.calls[c], s.nextNotice)
    ensures forall i :: 0 <= i < |s.delivered| ==> s.delivered[i].1.serial < s.nextNotice
    ensures s.notice.Some? ==> s.notice.value.serial < s.nextNotice
  {
    forall c | c in s.calls ensures !HoldsSerial(s.calls[c], s.nextNotice) {
      assert HolderOk(s, c, s.calls[c]);
    }
    forall i | 0 <= i < |s.delivered| ensures s.delivered[i].1.serial < s.nextNotice {
      assert DeliveryOk(s, s.delivered[i]);
    }
  }

  lemma ConnectedKeeps(s: Bridge, c: nat, lost: Loss)
    requires Proper(s) && HasCall(s, c) && s.conns != []
    ensures Keeps(s, Connected(s, c, Some(lost))) && Connected(s, c, Some(lost)).conns == s.conns
  {
  }

  lemma ConnectedPlaces(s: Bridge, c: nat, lost: Loss)
    requires Proper(s) && HasCall(s, c) && s.conns != [] && Unexpected(s, lost.conn)
    ensures var t := Connected(s, c, Some(lost));
            && Keeps(s, t) && t.conns == s.conns
            && (forall d :: d in t.calls ==> PhaseOk(t, t.calls[d].phase) && HolderOk(t, d, t.calls[d]))
            && (forall i :: 0 <= i < |t.delivered| ==> DeliveryOk(t, t.delivered[i]))
            && (t.notice.Some? ==> NoticeOk(t, t.notice.value) && MadeByRead(t, t.notice.value))
  {
    var t := Connected(s, c, Some(lost));
    ConnectedKeeps(s, c, lost);
    PhasesKept(s, t);
    DeliveriesKept(s, t);
    forall d | d in t.calls ensures HolderOk(t, d, t.calls[d]) {
      HolderKept(s, t, d, s.calls[d]);
    }
  }

  /** A tool call holds the new notice itself. */
  lemma HeldUnique(s: Bridge, t: Bridge, c: nat, call: Call)
    requires Proper(s) && HasCall(s, c) && t.calls == s.calls[c := call]
    requires HoldsSerial(call, s.nextNotice) && t.notice == s.notice && t.delivered == s.delivered
    ensures Unique(t)
  {
    NewSerial(s);
    forall i, d | 0 <= i < |t.delivered| && d in t.calls ensures !HoldsSerial(t.calls[d], t.delivered[i].1.serial) {
      if d != c { assert !HoldsSerial(s.calls[d], s.delivered[i].1.serial); }
    }
  }

  /** A resource read leaves it in the global place. */
  lemma PendingUnique(s: Bridge, t: Bridge, c: nat, call: Call)
    requires Proper(s) && HasCall(s, c) && t.calls == s.calls[c := call] && call.holder == s.calls[c].holder
    requires t.notice.Some? && t.notice.value.serial == s.nextNotice && t.delivered == s.delivered
    ensures Unique(t)
  {
    NewSerial(s);
    forall i, d | 0 <= i < |t.delivered| && d in t.calls ensures !HoldsSerial(t.calls[d], t.delivered[i].1.serial) {
      assert !HoldsSerial(s.calls[d], s.delivered[i].1.serial);
    }
    forall d, f | d in t.calls && f in t.calls && SameHolder(t.calls[d], t.calls[f]) ensures d == f {
      assert SameHolder(s.calls[d], s.calls[f]);
    }
  }

  lemma ConnectedUnique(s: Bridge, c: nat, lost: Loss)
    requires Proper(s) && HasCall(s, c) && s.conns != []
    ensures Unique(Connected(s, c, Some(lost)))
  {
    var t := Connected(s, c, Some(lost));
    if s.calls[c].tool {
      HeldUnique(s, t, c, t.calls[c]);
    } else {
      PendingUnique(s, t, c, t.calls[c]);
    }
  }

  lemma ConnectedProper(s: Bridge, c: nat, lost: Option<Loss>)
    requires Proper(s) && HasCall(s, c) && s.conns != []
    requires lost.Some? ==> Unexpected(s, lost.value.conn)
    ensures Proper(Connected(s, c, lost))
  {
    if lost == None {
      PhasesKept(s, Connected(s, c, lost));
      SamePlaces(s, Connected(s, c, lost));
    } else {
      ConnectedPlaces(s, c, lost.value);
      ConnectedUnique(s, c, lost.value);
    }
  }

  lemma DialProper(s: Bridge, c: nat, lost: Option<Loss>)
    requires Proper(s) && HasCall(s, c)
    requires lost.Some? ==> Unexpected(s, lost.value.conn)
    ensures Proper(Dial(s, c, lost))
  {
    if Alive(s) {
      ConnectedProper(s, c, lost);
    } else {
      NewConnProper(s);
      SetPhaseProper(NewConn(s), c, Dialing(lost));
    }
  }

  /** A loss is noted only for a transport whose end was not requested. */
  lemma CheckedProper(s: Bridge, c: nat)
    requires Proper(s) && HasCall(s, c)
    ensures Proper(Checked(s, c))
  {
    if Alive(s) {
      SetPhaseProper(s, c, Queued(Current(s)));
    } else if !LostUnexpectedly(s) {
      DialProper(s, c, None);
    } else if s.lastExit.Some? {
      DialProper(s, c, Some(Loss(s.transport.value, s.lastExit.value)));
    } else {
      SetPhaseProper(s, c, Asking(s.transport.value));
    }
  }

  lemma DeliveredKeeps(s: Bridge, c: nat)
    requires Enabled(s, Deliver(c))
    ensures Keeps(s, Delivered(s, c)) && Delivered(s, c).conns == s.conns
  {
  }

  /** A step that keeps the past, moves held notices nowhere else and delivers only proper ones. */
  lemma PlacesKept(s: Bridge, t: Bridge)
    requires Proper(s) && Keeps(s, t) && t.calls.Keys == s.calls.Keys
    requires forall d :: d in s.calls ==>
               t.calls[d].phase == s.calls[d].phase && (t.calls[d].holder == s.calls[d].holder || t.calls[d].holder == None)
    ensures forall d :: d in t.calls ==> PhaseOk(t, t.calls[d].phase) && HolderOk(t, d, t.calls[d])
  {
    PhasesKept(s, t);
    forall d | d in t.calls ensures HolderOk(t, d, t.calls[d]) {
      HolderKept(s, t, d, s.calls[d]);
    }
  }

  lemma DeliveredPlaces(s: Bridge, c: nat)
    requires Proper(s) && Enabled(s, Deliver(c))
    ensures var t := Delivered(s, c);
            && Keeps(s, t) && t.conns == s.conns
            && (forall d :: d in t.calls ==> PhaseOk(t, t.calls[d].phase) && HolderOk(t, d, t.calls[d]))
            && (forall i :: 0 <= i < |t.delivered| ==> DeliveryOk(t, t.delivered[i]))
            && (t.notice.Some? ==> NoticeOk(t, t.notice.value) && MadeByRead(t, t.notice.value))
  {
    var t := Delivered(s, c);
    DeliveredKeeps(s, c);
    PlacesKept(s, t);
    DeliveriesKept(s, t);
    assert HolderOk(s, c, s.calls[c]);
  }

  lemma DeliveredUnique(s: Bridge, c: nat)
    requires Proper(s) && Enabled(s, Deliver(c))
    ensures Unique(Delivered(s, c))
  {
    var t := Delivered(s, c);
    forall i, d | 0 <= i < |t.delivered| && d in t.calls ensures !HoldsSerial(t.calls[d], t.delivered[i].1.serial) {
      if i < |s.delivered| { assert !HoldsSerial(s.calls[d], s.delivered[i].1.serial); }
    }
    forall i, j | 0 <= i < j < |t.delivered| ensures t.delivered[i].1.serial != t.delivered[j].1.serial {
      if j == |s.delivered| && s.calls[c].holder.Some? {
        assert !HoldsSerial(s.calls[c], s.delivered[i].1.serial);
      }
    }
    if t.notice.Some? {
      forall d | d in t.calls ensures !HoldsSerial(t.calls[d], t.notice.value.serial) {
        assert !HoldsSerial(s.calls[d], s.notice.value.serial);
      }
      forall i | 0 <= i < |t.delivered| ensures t.delivered[i].1.serial != t.notice.value.serial {
        if i == |s.delivered| { assert !HoldsSerial(s.calls[c], s.notice.value.serial); }
      }
    }
  }

  lemma DeliveredProper(s: Bridge, c: nat)
    requires Proper(s) && Enabled(s, Deliver(c))
    ensures Proper(Delivered(s, c))
  {
    DeliveredPlaces(s, c);
    DeliveredUnique(s, c);
  }

  /** A step on one connection that does not request its end and, for a child process, does not revive it. */
  lemma SetConnProper(s: Bridge, k: nat, conn: Conn)
    requires Proper(s) && HasConn(s, k) && conn.expected == s.conns[k].expected
    requires s.tcp || ((conn.alive ==> s.conns[k].alive) && !conn.connecting)
    ensures Proper(SetConn(s, k, conn))
  {
    PhasesKept(s, SetConn(s, k, conn));
    SamePlaces(s, SetConn(s, k, conn));
  }

  /** The steps of the backend and of the readers. */
  lemma WireProper(s: Bridge, e: Event)
    requires Proper(s) && Enabled(s, e)
    requires e.Answer? || e.Drop? || e.Die? || e.Connects?
    ensures Proper(Next(s, e))
  {
    SetConnProper(s, e.k, Next(s, e).conns[e.k]);
  }

  lemma ReadProper(s: Bridge, k: nat)
    requires Proper(s) && Enabled(s, Read(k))
    ensures Proper(Next(s, Read(k)))
  {
    var conn := s.conns[k];
    var s1 := SetConn(s, k, conn.(lines := conn.lines[1..]));
    SetConnProper(s, k, conn.(lines := conn.lines[1..]));
    var cur := s1.conns[Current(s)];
    SetConnProper(s1, Current(s), cur.(queue := cur.queue + [Response(conn.lines[0])]));
  }

  lemma EofProper(s: Bridge, k: nat, reason: int)
    requires Proper(s) && Enabled(s, Eof(k, reason))
    ensures Proper(Next(s, Eof(k, reason)))
  {
    var conn := s.conns[k];
    var s1 := SetConn(s, k, conn.(done := true, queue := conn.queue + [Closed(reason)]));
    SetConnProper(s, k, conn.(done := true, queue := conn.queue + [Closed(reason)]));
    PhasesKept(s1, Next(s, Eof(k, reason)));
    SamePlaces(s1, Next(s, Eof(k, reason)));
  }

  lemma StopProper(s: Bridge, e: Event)
    requires Proper(s) && Enabled(s, e)
    requires e.MarkStop? || e.Detach? || e.StartEmu?
    ensures Proper(Next(s, e))
  {
    var t := Next(s, e);
    assert Keeps(s, t);
    PhasesKept(s, t);
    SamePlaces(s, t);
  }

  lemma CallProper(s: Bridge, e: Event)
    requires Proper(s) && Enabled(s, e)
    requires e.Begin? || e.Again? || e.Fail? || e.Flushed?
    ensures Proper(Next(s, e))
  {
    PhasesKept(s, Next(s, e));
    SamePlaces(s, Next(s, e));
  }

  lemma SentProper(s: Bridge, c: nat, sent: bool)
    requires Proper(s) && Enabled(s, Acquire(c, sent))
    ensures Proper(Sent(s, c, sent))
  {
    var t := Sent(s, c, sent);
    var a := s;
    if sent && s.conns[s.transport.value].alive {
      var conn := s.conns[s.transport.value];
      var conn' := conn.(pending := conn.pending + [Request(s.nextId, s.calls[c].cmd)]);
      SetConnProper(s, s.transport.value, conn');
      a := SetConn(s, s.transport.value, conn');
    }
    var p := t.calls[c].phase;
    assert PhaseOk(a, p);
    SetPhaseProper(a, c, p);
    IdsDoNotMatter(SetPhase(a, c, p), t.nextId, t.issued);
    assert t == SetPhase(a, c, p).(nextId := t.nextId, issued := t.issued);
  }

  lemma TakenProper(s: Bridge, c: nat)
    requires Proper(s) && Enabled(s, Take(c))
    ensures Proper(Taken(s, c))
  {
    var p := s.calls[c].phase;
    var conn := s.conns[p.queue];
    var s1 := SetConn(s, p.queue, conn.(queue := conn.queue[1..]));
    SetConnProper(s, p.queue, conn.(queue := conn.queue[1..]));
    match conn.queue[0]
    case Closed(_) => SetPhaseProper(s1, c, Failed);
    case Response(r) => SetPhaseProper(s1, c, if r.id == p.id then Answered(r) else Waiting(p.gen, Current(s), p.id));
  }

  lemma NextProper(s: Bridge, e: Event)
    requires Proper(s) && Enabled(s, e)
    ensures Proper(Next(s, e))
  {
    if e.Check? {
      CheckedProper(s, e.c);
    } else if e.Reason? {
      assert PhaseOk(s, s.calls[e.c].phase);
      DialProper(s, e.c, Some(Loss(s.calls[e.c].phase.conn, e.reason)));
    } else if e.Hello? {
      assert PhaseOk(s, s.calls[e.c].phase);
      ConnectedProper(s, e.c, s.calls[e.c].phase.lost);
    } else if e.Take? {
      TakenProper(s, e.c);
    } else if e.Deliver? {
      DeliveredProper(s, e.c);
    } else if e.Acquire? {
      SentProper(s, e.c, e.sent);
    } else if e.Read? {
      ReadProper(s, e.k);
    } else if e.Eof? {
      EofProper(s, e.k, e.reason);
    } else if e.Begin? || e.Again? || e.Fail? || e.Flushed? {
      CallProper(s, e);
    } else if e.MarkStop? || e.Detach? || e.StartEmu? {
      StopProper(s, e);
    } else {
      WireProper(s, e);
    }
  }

  lemma {:induction false} RunProper(s: Bridge, es: seq<Event>, t: Bridge)
    requires Proper(s) && Run(s, es, t)
    ensures Proper(t)
    decreases |es|
  {
    if es != [] {
      NextProper(s, es[0]);
      RunProper(Next(s, es[0]), es[1..], t);
    }
  }

  /**
   In any run: a notice made for a tool call is only ever returned by that call,
   any other was made by a resource read; no notice is returned twice; and every
   notice is about a backend whose end the wrapper never requested.
   */
  lemma {:induction false} NoticesAreOwnAndOnce(tcp: bool, es: seq<Event>, t: Bridge, i: nat, j: nat)
    requires Run(Init(tcp), es, t) && i < |t.delivered| && j < |t.delivered|
    ensures var (c, n) := t.delivered[i]; n.maker == c || MadeByRead(t, n)
    ensures t.delivered[i].1.serial == t.delivered[j].1.serial ==> i == j
    ensures var k := t.delivered[i].1.loss.conn; HasConn(t, k) && !t.conns[k].expected
  {
    RunProper(Init(tcp), es, t);
    assert DeliveryOk(t, t.delivered[i]);
  }

  /** In any run, the notice waiting in the global place was made by a resource read, not by a tool call. */
  lemma {:induction false} PendingNoticeIsOfARead(tcp: bool, es: seq<Event>, t: Bridge)
    requires Run(Init(tcp), es, t) && t.notice.Some?
    ensures MadeByRead(t, t.notice.value)
    ensures forall i :: 0 <= i < |t.delivered| ==> t.delivered[i].1.serial != t.notice.value.serial
  {
    RunProper(Init(tcp), es, t);
  }

  lemma DialNotice(s: Bridge, c: nat, lost: Option<Loss>)
    requires HasCall(s, c)
    ensures var t := Dial(s, c, lost);
            t.notice != s.notice ==>
              t.notice.Some? && t.notice.value.serial == s.nextNotice && MadeByRead(t, t.notice.value)
  {
  }

  /**
   A pending global notice stays through every step, also when a call delivers its
   own, except that it is delivered to a call without one, replaced by the notice
   of a later resource read, or forgotten by emu_start.
   */
  lemma PendingNoticeStays(s: Bridge, e: Event)
    requires Enabled(s, e) && s.notice.Some? && Next(s, e).notice != s.notice
    ensures var t := Next(s, e);
            || e.StartEmu?
            || (e.Deliver? && s.calls[e.c].holder == None && t.notice == None
                && t.delivered == s.delivered + [(e.c, s.notice.value)])
            || (t.notice.Some? && t.notice.value.serial == s.nextNotice && MadeByRead(t, t.notice.value))
  {
    match e
    case Check(c) => DialNotice(s, c, if s.lastExit.Some? && s.transport.Some? then Some(Loss(s.transport.value, s.lastExit.value)) else None);
    case Reason(c, reason) => DialNotice(s, c, Some(Loss(s.calls[c].phase.conn, reason)));
    case _ =>
  }
}
