/** Putting runs together. */
module McpBridgeRuns {
  import opened McpBridge
  import opened McpBridgeReconnect

  lemma {:induction false} HarmlessRunRuns(s: Bridge, es: seq<Event>, t: Bridge)
    requires HarmlessRun(s, es, t)
    ensures Run(s, es, t)
    decreases |es|
  {
    if es != [] { HarmlessRunRuns(Next(s, es[0]), es[1..], t); }
  }

  lemma {:induction false} HarmlessRunsJoin(s: Bridge, es: seq<Event>, t: Bridge, fs: seq<Event>, u: Bridge)
    requires HarmlessRun(s, es, t) && HarmlessRun(t, fs, u)
    ensures HarmlessRun(s, es + fs, u)
    decreases |es|
  {
    if es == [] {
      assert es + fs == fs;
    } else {
      assert (es + fs)[1..] == es[1..] + fs;
      HarmlessRunsJoin(Next(s, es[0]), es[1..], t, fs, u);
    }
  }

  lemma {:induction false} RunsJoin(s: Bridge, es: seq<Event>, t: Bridge, fs: seq<Event>, u: Bridge)
    requires Run(s, es, t) && Run(t, fs, u)
    ensures Run(s, es + fs, u)
    decreases |es|
  {
    if es == [] {
      assert es + fs == fs;
    } else {
      assert (es + fs)[1..] == es[1..] + fs;
      RunsJoin(Next(s, es[0]), es[1..], t, fs, u);
    }
  }

  lemma {:induction false} OneStep(s: Bridge, e: Event)
    requires Enabled(s, e)
    ensures Run(s, [e], Next(s, e))
    ensures Harmless(s, e) ==> HarmlessRun(s, [e], Next(s, e))
  {
    assert [e][1..] == [];
  }

  lemma {:induction false} TwoSteps(s: Bridge, e: Event, f: Event)
    requires Enabled(s, e) && Enabled(Next(s, e), f)
    ensures Run(s, [e, f], Next(Next(s, e), f))
    ensures Harmless(s, e) && Harmless(Next(s, e), f) ==> HarmlessRun(s, [e, f], Next(Next(s, e), f))
  {
    OneStep(Next(s, e), f);
    assert [e, f][1..] == [f];
  }
}
