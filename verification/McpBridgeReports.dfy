/**
 That the end of a backend is reported: a notice is made for it, and the call it
 was made for, or the next one without its own, returns it.
 */
module McpBridgeReports {
  import opened Basics
  import opened McpBridge
  import opened McpBridgeNotices

  // ----- what a connection check finds -----

  /** The current transport has ended although its end was not requested. */
  predicate Crashed(s: Bridge, k: nat) {
    s.transport == Some(k) && HasConn(s, k) && !s.conns[k].alive && !s.conns[k].expected
  }

  /** The loss a check finds: with the reason the reader has left, or the one the transport is asked for. */
  lemma CheckFindsTheLoss(s: Bridge, c: nat, k: nat, reason: int)
    requires Enabled(s, Check(c)) && Crashed(s, k)
    ensures s.lastExit.Some? ==> Next(s, Check(c)).calls[c].phase == Dialing(Some(Loss(k, s.lastExit.value)))
    ensures s.lastExit == None ==>
              && Next(s, Check(c)).calls[c].phase == Asking(k)
              && Enabled(Next(s, Check(c)), Reason(c, reason))
              && Next(Next(s, Check(c)), Reason(c, reason)).calls[c].phase == Dialing(Some(Loss(k, reason)))
  {
  }

  /** An end that was requested, or no transport at all, is no loss. */
  lemma CheckFindsNoLoss(s: Bridge, c: nat)
    requires Enabled(s, Check(c)) && !Alive(s)
    requires s.transport.Some? ==> HasConn(s, s.transport.value) && s.conns[s.transport.value].expected
    ensures Next(s, Check(c)).calls[c].phase == Dialing(None)
  {
  }

  // ----- the notice is made -----

  /** The call has its connection, after its check has found a loss. */
  predicate Recovers(s: Bridge, e: Event, c: nat)
    requires Enabled(s, e)
  {
    || (e == Hello(c) && s.calls[c].phase.lost.Some?)
    || (e.Reason? && e.c == c && Alive(s))
  }

  function LossOf(s: Bridge, e: Event, c: nat): Loss
    requires Enabled(s, e) && Recovers(s, e, c)
  {
    if e.Hello? then s.calls[c].phase.lost.value else Loss(s.calls[c].phase.conn, e.reason)
  }

  predicate IsAbout(n: Notice, c: nat, l: Loss) {
    n.maker == c && n.loss == l
  }

  /** A tool call holds its notice, a resource read leaves it in the global place. */
  lemma NoticeIsMade(s: Bridge, e: Event, c: nat)
    requires Enabled(s, e) && Recovers(s, e, c)
    ensures var t := Next(s, e);
            && HasCall(t, c) && t.calls[c].tool == s.calls[c].tool && t.calls[c].told == s.calls[c].told
            && t.calls[c].phase.Queued?
            && if s.calls[c].tool
               then t.calls[c].holder.Some? && IsAbout(t.calls[c].holder.value, c, LossOf(s, e, c))
               else t.notice.Some? && IsAbout(t.notice.value, c, LossOf(s, e, c))
    ensures Next(s, e).lastExit == None
  {
  }

  // ----- the notice of a tool call -----

  predicate SameHolding(s: Bridge, t: Bridge, c: nat) {
    && HasCall(s, c) && HasCall(t, c)
    && t.calls[c].holder == s.calls[c].holder && t.calls[c].tool == s.calls[c].tool && t.calls[c].told == s.calls[c].told
  }

  lemma ConnectingKeepsHolder(s: Bridge, e: Event, c: nat)
    requires Enabled(s, e) && HasCall(s, c) && !Recovers(s, e, c)
    requires e.Check? || e.Reason? || e.Hello?
    ensures SameHolding(s, Next(s, e), c)
  {
  }

  lemma HolderStays(s: Bridge, e: Event, c: nat)
    requires Enabled(s, e) && HasCall(s, c) && e != Deliver(c) && !Recovers(s, e, c)
    ensures SameHolding(s, Next(s, e), c)
  {
    if e.Check? || e.Reason? || e.Hello? { ConnectingKeepsHolder(s, e, c); }
  }

  /** A run in which the call neither delivers nor recovers again. */
  ghost predicate Meanwhile(s: Bridge, es: seq<Event>, t: Bridge, c: nat)
    decreases |es|
  {
    if es == [] then s == t
    else Enabled(s, es[0]) && es[0] != Deliver(c) && !Recovers(s, es[0], c) && Meanwhile(Next(s, es[0]), es[1..], t, c)
  }

  lemma {:induction false} HolderStaysMeanwhile(s: Bridge, es: seq<Event>, t: Bridge, c: nat)
    requires HasCall(s, c) && Meanwhile(s, es, t, c)
    ensures SameHolding(s, t, c)
    decreases |es|
  {
    if es != [] {
      HolderStays(s, es[0], c);
      HolderStaysMeanwhile(Next(s, es[0]), es[1..], t, c);
    }
  }

  /**
   A tool call that has reconnected after a loss returns the notice of that loss
   with its next result or error, whatever other calls do in between.
   */
  lemma {:induction false} ToolReportsTheLoss(s: Bridge, e: Event, c: nat, es: seq<Event>, t: Bridge) returns (n: Notice)
    requires Enabled(s, e) && Recovers(s, e, c) && s.calls[c].tool
    requires Meanwhile(Next(s, e), es, t, c) && Enabled(t, Deliver(c))
    ensures Next(t, Deliver(c)).delivered == t.delivered + [(c, n)] && IsAbout(n, c, LossOf(s, e, c))
  {
    NoticeIsMade(s, e, c);
    HolderStaysMeanwhile(Next(s, e), es, t, c);
    n := t.calls[c].holder.value;
  }

  ghost predicate NoReaderEnds(es: seq<Event>) {
    forall i :: 0 <= i < |es| ==> !es[i].Eof?
  }

  lemma NothingIsLearnt(s: Bridge, e: Event)
    requires Enabled(s, e) && s.lastExit == None && !e.Eof?
    ensures Next(s, e).lastExit == None
  {
  }

  /** A reason is used up by its notice: only the end of another reader leaves one for a later check. */
  lemma {:induction false} ReasonIsUsedOnce(s: Bridge, es: seq<Event>, t: Bridge)
    requires Run(s, es, t) && NoReaderEnds(es) && s.lastExit == None
    ensures t.lastExit == None
    decreases |es|
  {
    if es != [] {
      NothingIsLearnt(s, es[0]);
      ReasonIsUsedOnce(Next(s, es[0]), es[1..], t);
    }
  }

  lemma {:induction false} NextReasonIsAsked(s: Bridge, e: Event, c: nat, es: seq<Event>, t: Bridge, d: nat)
    requires Enabled(s, e) && Recovers(s, e, c) && Run(Next(s, e), es, t) && NoReaderEnds(es)
    requires Enabled(t, Check(d)) && !Alive(t) && LostUnexpectedly(t)
    ensures Next(t, Check(d)).calls[d].phase == Asking(t.transport.value)
  {
    NoticeIsMade(s, e, c);
    ReasonIsUsedOnce(Next(s, e), es, t);
  }

  // ----- one result -----

  predicate Told(s: Bridge, c: nat) {
    HasCall(s, c) && s.calls[c].told
  }

  lemma ToldStays(s: Bridge, e: Event, c: nat)
    requires Enabled(s, e) && Told(s, c)
    ensures Told(Next(s, e), c)
  {
    if Recovers(s, e, c) {
      NoticeIsMade(s, e, c);
    } else if e != Deliver(c) {
      HolderStays(s, e, c);
    }
  }

  /** A call has one result: after it nothing more is delivered to it, nor sent for it. */
  lemma {:induction false} DeliversOnce(s: Bridge, c: nat, es: seq<Event>, t: Bridge, cmd: int)
    requires Told(s, c) || (Enabled(s, Deliver(c)) && es != [] && es[0] == Deliver(c))
    requires Run(s, es, t)
    ensures !Enabled(t, Deliver(c)) && !Enabled(t, Again(c, cmd))
    decreases |es|
  {
    if es != [] {
      if Told(s, c) { ToldStays(s, es[0], c); }
      DeliversOnce(Next(s, es[0]), c, es[1..], t, cmd);
    }
  }

  // ----- the notice of a resource read -----

  /** The steps that take the global notice away: a delivery to a call without its own, a later read, emu_start. */
  predicate Displaces(s: Bridge, e: Event)
    requires Enabled(s, e)
  {
    || e.StartEmu?
    || (e.Deliver? && s.calls[e.c].holder == None)
    || ((e.Hello? || e.Reason?) && Recovers(s, e, e.c) && !s.calls[e.c].tool)
  }

  lemma GlobalNoticeStays(s: Bridge, e: Event)
    requires Enabled(s, e) && !Displaces(s, e)
    ensures Next(s, e).notice == s.notice
  {
  }

  ghost predicate Undisplaced(s: Bridge, es: seq<Event>, t: Bridge)
    decreases |es|
  {
    if es == [] then s == t
    else Enabled(s, es[0]) && !Displaces(s, es[0]) && Undisplaced(Next(s, es[0]), es[1..], t)
  }

  lemma {:induction false} GlobalNoticeStaysOn(s: Bridge, es: seq<Event>, t: Bridge)
    requires Undisplaced(s, es, t)
    ensures t.notice == s.notice
    decreases |es|
  {
    if es != [] {
      GlobalNoticeStays(s, es[0]);
      GlobalNoticeStaysOn(Next(s, es[0]), es[1..], t);
    }
  }

  /**
   After a resource read has reconnected, the next tool call that has no notice of
   its own returns the notice of the loss, and it is gone.
   */
  lemma {:induction false} NextToolReportsTheLoss(s: Bridge, e: Event, c: nat, es: seq<Event>, t: Bridge, d: nat)
      returns (n: Notice)
    requires Enabled(s, e) && Recovers(s, e, c) && !s.calls[c].tool
    requires Undisplaced(Next(s, e), es, t) && Enabled(t, Deliver(d)) && t.calls[d].holder == None
    ensures Next(t, Deliver(d)).delivered == t.delivered + [(d, n)] && IsAbout(n, c, LossOf(s, e, c))
    ensures Next(t, Deliver(d)).notice == None
  {
    NoticeIsMade(s, e, c);
    GlobalNoticeStaysOn(Next(s, e), es, t);
    n := t.notice.value;
  }

  // ----- a requested end is not reported -----

  predicate Expected(s: Bridge, k: nat) {
    HasConn(s, k) && s.conns[k].expected
  }

  lemma WireKeepsExpected(s: Bridge, e: Event, k: nat)
    requires Enabled(s, e) && Expected(s, k)
    requires e.Connects? || e.Answer? || e.Drop? || e.Read? || e.Die? || e.Eof? || e.MarkStop? || e.Detach?
    ensures Expected(Next(s, e), k)
  {
  }

  lemma ConnectingKeepsExpected(s: Bridge, e: Event, k: nat)
    requires Enabled(s, e) && Expected(s, k)
    requires e.Check? || e.Reason? || e.Hello? || e.StartEmu?
    ensures Expected(Next(s, e), k)
  {
  }

  lemma ExpectedStays(s: Bridge, e: Event, k: nat)
    requires Enabled(s, e) && Expected(s, k)
    ensures Expected(Next(s, e), k)
  {
    if e.Connects? || e.Answer? || e.Drop? || e.Read? || e.Die? || e.Eof? || e.MarkStop? || e.Detach? {
      WireKeepsExpected(s, e, k);
    } else if e.Check? || e.Reason? || e.Hello? || e.StartEmu? {
      ConnectingKeepsExpected(s, e, k);
    }
  }

  lemma {:induction false} ExpectedStaysOn(s: Bridge, es: seq<Event>, t: Bridge, k: nat)
    requires Run(s, es, t) && Expected(s, k)
    ensures Expected(t, k)
    decreases |es|
  {
    if es != [] {
      ExpectedStays(s, es[0], k);
      ExpectedStaysOn(Next(s, es[0]), es[1..], t, k);
    }
  }

  lemma {:induction false} RunGoesOn(s: Bridge, es: seq<Event>, t: Bridge, e: Event, fs: seq<Event>, u: Bridge)
    requires Run(s, es, t) && Enabled(t, e) && Run(Next(t, e), fs, u)
    ensures Run(s, es + [e] + fs, u)
    decreases |es|
  {
    if es == [] {
      assert ([] + [e] + fs)[1..] == fs;
    } else {
      assert (es + [e] + fs)[1..] == es[1..] + [e] + fs;
      RunGoesOn(Next(s, es[0]), es[1..], t, e, fs, u);
    }
  }

  /** Once emu_stop has announced the end of a backend, no call ever returns a notice about it. */
  lemma {:induction false} StopIsNeverReported(tcp: bool, es: seq<Event>, s: Bridge, fs: seq<Event>, t: Bridge, i: nat)
    requires Run(Init(tcp), es, s) && Enabled(s, MarkStop) && Run(Next(s, MarkStop), fs, t) && i < |t.delivered|
    ensures t.delivered[i].1.loss.conn != s.transport.value
  {
    RunGoesOn(Init(tcp), es, s, MarkStop, fs, t);
    NoticesAreOwnAndOnce(tcp, es + [MarkStop] + fs, t, i, i);
    ExpectedStaysOn(Next(s, MarkStop), fs, t, s.transport.value);
  }

  /** After emu_stop has dropped the transport the next call starts a backend of its own and has no loss to report. */
  lemma StopIsNoLoss(s: Bridge, c: nat)
    requires Enabled(s, Detach) && Enabled(s, Check(c))
    ensures var t := Next(s, Detach);
            && Enabled(t, Check(c)) && !Alive(t)
            && Next(t, Check(c)).calls[c].phase == Dialing(None)
            && Alive(Next(t, Check(c))) && |Next(t, Check(c)).conns| == |s.conns| + 1
  {
  }

  /** emu_start forgets: the new backend is there, and a call without its own notice has nothing to return. */
  lemma StartForgets(s: Bridge, c: nat)
    requires Enabled(s, StartEmu) && HasCall(s, c) && s.calls[c].holder == None
    ensures var t := Next(s, StartEmu);
            && Alive(t) && t.lastExit == None
            && (Enabled(t, Deliver(c)) ==> Next(t, Deliver(c)).delivered == s.delivered)
  {
  }
}
