/**
 Two runs of the bridge, step by step: one in which a reply that is still waited
 for is discarded, and a harmless one in which an accepted reply leaves a stray.
 */
module McpBridgeExamples {
  import opened Basics
  import opened McpBridge
  import opened McpBridgeSafety
  import opened McpBridgeReconnect
  import opened McpBridgeRuns
  import opened McpBridgeOrder

  // ----- the first call -----

  const FIRST := Call(10, true, Waiting(0, 0, 1), None, false)

  function OneCall(conn: Conn, first: Call): Bridge {
    Bridge(false, [conn], Some(0), map[1 := first], 2, None, None, 0, map[1 := Issue(1, 10, 0)], [])
  }

  /** The first call has sent its request. */
  const SENT := OneCall(Conn(false, true, false, [Request(1, 10)], [], false, []), FIRST)

  lemma FirstCallDials() returns (t: Bridge)
    ensures HarmlessRun(Init(false), [Begin(1, 10, true), Check(1)], t)
    ensures t == Bridge(false, [Conn(false, true, false, [], [], false, [])], Some(0),
                        map[1 := Call(10, true, Dialing(None), None, false)], 1, None, None, 0, map[], [])
  {
    var s := Next(Init(false), Begin(1, 10, true));
    TwoSteps(Init(false), Begin(1, 10, true), Check(1));
    t := Next(s, Check(1));
    assert t.conns == [Conn(false, true, false, [], [], false, [])];
    assert t.calls == map[1 := Call(10, true, Dialing(None), None, false)];
  }

  lemma {:induction false} FirstCallWrites(s: Bridge)
    requires s == Bridge(false, [Conn(false, true, false, [], [], false, [])], Some(0),
                         map[1 := Call(10, true, Dialing(None), None, false)], 1, None, None, 0, map[], [])
    ensures HarmlessRun(s, [Hello(1), Acquire(1, true)], SENT)
  {
    var t := Next(s, Hello(1));
    TwoSteps(s, Hello(1), Acquire(1, true));
    var u := Next(t, Acquire(1, true));
    assert [] + [Request(1, 10)] == [Request(1, 10)];
    assert u.conns == SENT.conns && u.calls == SENT.calls && u.issued == SENT.issued;
  }

  const FIRST_SENDS := [Begin(1, 10, true), Check(1)] + [Hello(1), Acquire(1, true)]

  lemma FirstCallSends()
    ensures HarmlessRun(Init(false), FIRST_SENDS, SENT) && Run(Init(false), FIRST_SENDS, SENT)
  {
    var t := FirstCallDials();
    FirstCallWrites(t);
    HarmlessRunsJoin(Init(false), [Begin(1, 10, true), Check(1)], t, [Hello(1), Acquire(1, true)], SENT);
    HarmlessRunRuns(Init(false), FIRST_SENDS, SENT);
  }

  /** The connection whose backend has answered and then died; the answer is not read yet. */
  const LEFT := Conn(false, false, false, [], [Reply(1, 10, 7)], false, [])

  lemma BackendDies()
    ensures HarmlessRun(SENT, [Answer(0, 7), Die(0)], OneCall(LEFT, FIRST))
  {
    TwoSteps(SENT, Answer(0, 7), Die(0));
    var s := Next(SENT, Answer(0, 7));
    assert [] + [Reply(1, 10, 7)] == [Reply(1, 10, 7)] && [Request(1, 10)][1..] == [];
    assert s.conns[0] == Conn(false, true, false, [], [Reply(1, 10, 7)], false, []);
    var t := Next(s, Die(0));
    assert t.conns == [LEFT];
  }

  const GIVEN_UP := FIRST.(phase := Failed)

  lemma FirstCallFails()
    ensures HarmlessRun(OneCall(LEFT, FIRST), [Fail(1)], OneCall(LEFT, GIVEN_UP))
  {
    OneStep(OneCall(LEFT, FIRST), Fail(1));
    assert Next(OneCall(LEFT, FIRST), Fail(1)).calls == map[1 := GIVEN_UP];
  }

  // ----- the second call -----

  const OPEN := Conn(false, true, false, [], [], false, [])

  /** The second call dials, because the transport is dead. */
  predicate SecondDials(s: Bridge, first: Call) {
    && s.conns == [LEFT, OPEN] && s.transport == Some(1) && !s.tcp
    && s.calls == map[1 := first, 2 := Call(20, true, Dialing(Some(Loss(0, 99))), None, false)]
    && s.nextId == 2 && s.issued == map[1 := Issue(1, 10, 0)]
  }

  lemma SecondCallAsks(first: Call) returns (t: Bridge)
    ensures HarmlessRun(OneCall(LEFT, first), [Begin(2, 20, true), Check(2)], t)
    ensures t == OneCall(LEFT, first).(calls := map[1 := first, 2 := Call(20, true, Asking(0), None, false)])
  {
    var s := OneCall(LEFT, first);
    TwoSteps(s, Begin(2, 20, true), Check(2));
    t := Next(Next(s, Begin(2, 20, true)), Check(2));
    assert t.calls == map[1 := first, 2 := Call(20, true, Asking(0), None, false)];
  }

  lemma SecondCallDials(first: Call, s: Bridge) returns (t: Bridge)
    requires s == OneCall(LEFT, first).(calls := map[1 := first, 2 := Call(20, true, Asking(0), None, false)])
    ensures Run(s, [Reason(2, 99)], t) && SecondDials(t, first)
    ensures first.phase.Failed? ==> HarmlessRun(s, [Reason(2, 99)], t)
  {
    OneStep(s, Reason(2, 99));
    t := Next(s, Reason(2, 99));
    assert t.conns == [LEFT, OPEN];
  }

  /** The second call has sent its request on the new connection. */
  predicate SecondSent(s: Bridge, first: Call) {
    && s.conns == [LEFT, OPEN.(pending := [Request(2, 20)])] && s.transport == Some(1)
    && s.calls.Keys == {1, 2} && s.calls[1] == first && s.calls[2].phase == Waiting(1, 1, 2)
  }

  lemma SecondCallSends(first: Call, s: Bridge) returns (t: Bridge)
    requires SecondDials(s, first) && first.phase != Queued(1) && (Holding(first.phase) ==> first.phase.gen == 0)
    ensures HarmlessRun(s, [Hello(2), Acquire(2, true)], t) && SecondSent(t, first)
  {
    var u := Next(s, Hello(2));
    assert u.calls[2].phase == Queued(1) && u.calls[1] == first && u.calls.Keys == {1, 2};
    TwoSteps(s, Hello(2), Acquire(2, true));
    t := Next(u, Acquire(2, true));
    assert [] + [Request(2, 20)] == [Request(2, 20)];
    assert t.conns[1] == OPEN.(pending := [Request(2, 20)]);
  }

  const DIES := [Answer(0, 7), Die(0)]
  const ASKS := [Begin(2, 20, true), Check(2)]
  const DIALS := [Reason(2, 99)]
  const SENDS := [Hello(2), Acquire(2, true)]

  lemma SecondCallWaits(first: Call) returns (t: Bridge)
    requires first.phase != Queued(1) && (Holding(first.phase) ==> first.phase.gen == 0)
    ensures Run(OneCall(LEFT, first), ASKS + DIALS + SENDS, t) && SecondSent(t, first)
    ensures first.phase.Failed? ==> HarmlessRun(OneCall(LEFT, first), ASKS + DIALS + SENDS, t)
  {
    var s := OneCall(LEFT, first);
    var asking := SecondCallAsks(first);
    var dialing := SecondCallDials(first, asking);
    t := SecondCallSends(first, dialing);
    HarmlessRunRuns(s, ASKS, asking);
    HarmlessRunRuns(dialing, SENDS, t);
    RunsJoin(s, ASKS, asking, DIALS, dialing);
    RunsJoin(s, ASKS + DIALS, dialing, SENDS, t);
    if first.phase.Failed? {
      HarmlessRunsJoin(s, ASKS, asking, DIALS, dialing);
      HarmlessRunsJoin(s, ASKS + DIALS, dialing, SENDS, t);
    }
  }

  lemma FirstBackendDies()
    ensures HarmlessRun(Init(false), FIRST_SENDS + DIES, OneCall(LEFT, FIRST))
    ensures Run(Init(false), FIRST_SENDS + DIES, OneCall(LEFT, FIRST))
  {
    FirstCallSends();
    BackendDies();
    HarmlessRunsJoin(Init(false), FIRST_SENDS, SENT, DIES, OneCall(LEFT, FIRST));
    HarmlessRunRuns(Init(false), FIRST_SENDS + DIES, OneCall(LEFT, FIRST));
  }

  // ----- a live reply is lost -----

  /** The reader of the dead connection puts the first call's reply into the new queue. */
  lemma LateRead(s: Bridge, first: Call) returns (t: Bridge)
    requires SecondSent(s, first)
    ensures Run(s, [Read(0)], t) && HarmlessRun(s, [Read(0)], t)
    ensures t.calls == s.calls && |t.conns| == 2 && t.conns[1].queue == [Response(Reply(1, 10, 7))]
  {
    OneStep(s, Read(0));
    t := Next(s, Read(0));
    assert [] + [Response(Reply(1, 10, 7))] == [Response(Reply(1, 10, 7))];
  }

  lemma SecondCallDiscards(s: Bridge)
    requires s.calls.Keys == {1, 2} && s.calls[1] == FIRST && s.calls[2].phase == Waiting(1, 1, 2)
    requires |s.conns| == 2 && s.conns[1].queue == [Response(Reply(1, 10, 7))]
    ensures Loses(s, Take(2)) && Discarded(s, Take(2)) == FIRST.phase.id
  {
    assert 1 in s.calls && Holding(s.calls[1].phase) && s.calls[1].phase.id == 1;
  }

  /**
   A run of the code as written in which the reply of a call that still waits for
   it is discarded by another call.
   */
  lemma LiveReplyCanBeDiscarded() returns (s: Bridge)
    ensures Run(Init(false), FIRST_SENDS + DIES + (ASKS + DIALS + SENDS) + [Read(0)], s)
    ensures HasCall(s, 1) && s.calls[1] == FIRST
    ensures Loses(s, Take(2)) && Discarded(s, Take(2)) == FIRST.phase.id
  {
    FirstBackendDies();
    var t := SecondCallWaits(FIRST);
    s := LateRead(t, FIRST);
    RunsJoin(Init(false), FIRST_SENDS + DIES, OneCall(LEFT, FIRST), ASKS + DIALS + SENDS, t);
    RunsJoin(Init(false), FIRST_SENDS + DIES + (ASKS + DIALS + SENDS), t, [Read(0)], s);
    SecondCallDiscards(s);
  }

  // ----- an accepted reply leaves a stray -----

  lemma BothRepliesArrive(s: Bridge) returns (t: Bridge)
    requires SecondSent(s, GIVEN_UP)
    ensures HarmlessRun(s, [Answer(1, 8), Read(1)] + [Read(0)], t)
    ensures t.calls == s.calls
    ensures t.conns == [LEFT.(lines := []), OPEN.(queue := [Response(Reply(2, 20, 8)), Response(Reply(1, 10, 7))])]
  {
    TwoSteps(s, Answer(1, 8), Read(1));
    var u := Next(s, Answer(1, 8));
    assert [] + [Reply(2, 20, 8)] == [Reply(2, 20, 8)] && [Request(2, 20)][1..] == [];
    assert u.conns == [LEFT, OPEN.(lines := [Reply(2, 20, 8)])];
    var v := Next(u, Read(1));
    assert [] + [Response(Reply(2, 20, 8))] == [Response(Reply(2, 20, 8))] && [Reply(2, 20, 8)][1..] == [];
    assert v.conns == [LEFT, OPEN.(queue := [Response(Reply(2, 20, 8))])];
    OneStep(v, Read(0));
    t := Next(v, Read(0));
    assert [Response(Reply(2, 20, 8))] + [Response(Reply(1, 10, 7))] == [Response(Reply(2, 20, 8)), Response(Reply(1, 10, 7))];
    assert [Reply(1, 10, 7)][1..] == [];
    assert t.conns[0] == LEFT.(lines := []);
    HarmlessRunsJoin(s, [Answer(1, 8), Read(1)], v, [Read(0)], t);
  }

  lemma StrayStays(s: Bridge)
    requires s.calls.Keys == {1, 2} && s.calls[2].phase == Waiting(1, 1, 2)
    requires s.conns == [LEFT.(lines := []), OPEN.(queue := [Response(Reply(2, 20, 8)), Response(Reply(1, 10, 7))])]
    ensures Enabled(s, Take(2)) && Accepts(s, Take(2)) && Arriving(Next(s, Take(2))) == [1]
  {
    var t := Next(s, Take(2));
    var late := Response(Reply(1, 10, 7));
    assert t.conns[1].queue == [late] && [late][1..] == [];
    assert QueueIds([late]) == [1];
    assert forall j :: 0 <= j < |t.conns| ==> Drained(t.conns[j]);
    WiresEmptyIff(t.conns);
  }

  /** A harmless run after which a reply is accepted, and the late reply of a replaced backend stays in the queue. */
  lemma AcceptanceCanLeaveAStray() returns (s: Bridge)
    ensures HarmlessRun(Init(false),
                        FIRST_SENDS + DIES + [Fail(1)] + (ASKS + DIALS + SENDS) + ([Answer(1, 8), Read(1)] + [Read(0)]), s)
    ensures Enabled(s, Take(2)) && Accepts(s, Take(2)) && Arriving(Next(s, Take(2))) == [1]
  {
    FirstBackendDies();
    FirstCallFails();
    var t := SecondCallWaits(GIVEN_UP);
    s := BothRepliesArrive(t);
    var es := FIRST_SENDS + DIES;
    HarmlessRunsJoin(Init(false), es, OneCall(LEFT, FIRST), [Fail(1)], OneCall(LEFT, GIVEN_UP));
    HarmlessRunsJoin(Init(false), es + [Fail(1)], OneCall(LEFT, GIVEN_UP), ASKS + DIALS + SENDS, t);
    HarmlessRunsJoin(Init(false), es + [Fail(1)] + (ASKS + DIALS + SENDS), t, [Answer(1, 8), Read(1)] + [Read(0)], s);
    StrayStays(s);
  }
}
