/**
 The emulator state of every frame of a recording and the overlay drawn from it
 (state_timeline, overlay_intervals and the time windows of overlay_filters in
 docs/tools/videorec_export.py).
 */
module StateTimeline {
  import opened Basics

  datatype Kind = Timebase | Speed | PauseStart | PauseEnd | OtherKind

  datatype Event = Event(frame: int, kind: Kind, value: string)

  datatype State = State(paused: bool, speed: string, timebase: string)

  datatype Interval = Interval(start: int, end: int, state: State)

  const INITIAL := State(false, "100", "emulated")

  function Apply(s: State, e: Event): State {
    match e.kind
    case Timebase => s.(timebase := e.value)
    case Speed => s.(speed := e.value)
    case PauseStart => s.(paused := true)
    case PauseEnd => s.(paused := false)
    case OtherKind => s
  }

  function Fold(s: State, es: seq<Event>): State {
    if es == [] then s else Apply(Fold(s, es[..|es| - 1]), es[|es| - 1])
  }

  // ----- the reference: the last event that sets a field -----

  datatype Field = Paused | SpeedField | TimebaseField

  predicate Sets(e: Event, f: Field) {
    match f
    case Paused => e.kind == PauseStart || e.kind == PauseEnd
    case SpeedField => e.kind == Speed
    case TimebaseField => e.kind == Timebase
  }

  datatype Found = NoEvent | Found(event: Event)

  /**
   Of the events up to frame `k` that set the field, the one with the greatest
   frame, the last in file order among equals.
   */
  function Latest(es: seq<Event>, k: int, f: Field): Found {
    if es == [] then NoEvent
    else
      var before := Latest(es[..|es| - 1], k, f);
      var e := es[|es| - 1];
      if e.frame <= k && Sets(e, f) && (before == NoEvent || before.event.frame <= e.frame) then Found(e) else before
  }

  /** The state at frame `k`, field by field, straight from the events of the file. */
  function StateAt(es: seq<Event>, k: int): State {
    State(match Latest(es, k, Paused) case NoEvent => false case Found(e) => e.kind == PauseStart,
          match Latest(es, k, SpeedField) case NoEvent => "100" case Found(e) => e.value,
          match Latest(es, k, TimebaseField) case NoEvent => "emulated" case Found(e) => e.value)
  }

  /** Event `i` sets the field by frame `k`. */
  predicate Counts(es: seq<Event>, i: nat, k: int, f: Field)
    requires i < |es|
  {
    es[i].frame <= k && Sets(es[i], f)
  }

  /** Event `i` is behind all the others that set the field by frame `k`: a greater frame, or a later place in the file. */
  ghost predicate IsLatest(es: seq<Event>, i: nat, k: int, f: Field) {
    && i < |es| && Counts(es, i, k, f)
    && forall j :: 0 <= j < |es| && j != i && Counts(es, j, k, f) ==>
         es[j].frame < es[i].frame || (es[j].frame == es[i].frame && j < i)
  }

  lemma {:induction false} LatestIsLatest(es: seq<Event>, k: int, f: Field) returns (i: nat)
    ensures Latest(es, k, f).NoEvent? <==> forall j :: 0 <= j < |es| ==> !Counts(es, j, k, f)
    ensures Latest(es, k, f).Found? ==> IsLatest(es, i, k, f) && Latest(es, k, f).event == es[i]
  {
    i := 0;
    if es != [] {
      var n := |es| - 1;
      var front := es[..n];
      var before := LatestIsLatest(front, k, f);
      assert forall j :: 0 <= j < n ==> Counts(front, j, k, f) == Counts(es, j, k, f);
      i := if Counts(es, n, k, f) && Latest(es, k, f) == Found(es[n])
              && (Latest(front, k, f).NoEvent? || front[before].frame <= es[n].frame) then n else before;
    }
  }

  // ----- sorted() -----

  /** Inserts behind all events of the same or an earlier frame. */
  function Insert(e: Event, es: seq<Event>): seq<Event> {
    if es == [] then [e]
    else if es[|es| - 1].frame <= e.frame then es + [e]
    else Insert(e, es[..|es| - 1]) + [es[|es| - 1]]
  }

  /** sorted(events, key=frame): stable. */
  function Sorted(es: seq<Event>): seq<Event> {
    if es == [] then [] else Insert(es[|es| - 1], Sorted(es[..|es| - 1]))
  }

  ghost predicate InFrameOrder(es: seq<Event>) {
    forall i, j :: 0 <= i < j < |es| ==> es[i].frame <= es[j].frame
  }

  lemma {:induction false} InsertKeepsOrder(e: Event, es: seq<Event>)
    requires InFrameOrder(es)
    ensures InFrameOrder(Insert(e, es)) && |Insert(e, es)| == |es| + 1
    ensures forall i :: 0 <= i < |Insert(e, es)| ==> Insert(e, es)[i] == e || Insert(e, es)[i] in es
  {
    if es != [] && es[|es| - 1].frame > e.frame {
      var front := es[..|es| - 1];
      InsertKeepsOrder(e, front);
      var r := Insert(e, front);
      forall i | 0 <= i < |r| ensures r[i].frame <= es[|es| - 1].frame {
        if r[i] != e { assert r[i] in es; }
      }
    }
  }

  lemma {:induction false} SortedIsOrdered(es: seq<Event>)
    ensures InFrameOrder(Sorted(es)) && |Sorted(es)| == |es|
  {
    if es != [] {
      SortedIsOrdered(es[..|es| - 1]);
      InsertKeepsOrder(es[|es| - 1], Sorted(es[..|es| - 1]));
    }
  }

  /** The events of a sorted list up to frame `k`. */
  function UpTo(es: seq<Event>, k: int): seq<Event> {
    if es == [] then []
    else UpTo(es[..|es| - 1], k) + (if es[|es| - 1].frame <= k then [es[|es| - 1]] else [])
  }

  function LastSetter(es: seq<Event>, f: Field): Found {
    if es == [] then NoEvent
    else if Sets(es[|es| - 1], f) then Found(es[|es| - 1])
    else LastSetter(es[..|es| - 1], f)
  }

  lemma {:induction false} FoldByLastSetters(es: seq<Event>)
    ensures var s := Fold(INITIAL, es);
            && s.paused == (match LastSetter(es, Paused) case NoEvent => false case Found(e) => e.kind == PauseStart)
            && s.speed == (match LastSetter(es, SpeedField) case NoEvent => "100" case Found(e) => e.value)
            && s.timebase == (match LastSetter(es, TimebaseField) case NoEvent => "emulated" case Found(e) => e.value)
  {
    if es != [] { FoldByLastSetters(es[..|es| - 1]); }
  }

  /** The last setter among the events up to frame `k`. */
  function SetterUpTo(es: seq<Event>, k: int, f: Field): Found {
    if es == [] then NoEvent
    else if es[|es| - 1].frame <= k && Sets(es[|es| - 1], f) then Found(es[|es| - 1])
    else SetterUpTo(es[..|es| - 1], k, f)
  }

  lemma {:induction false} SetterOfUpTo(es: seq<Event>, k: int, f: Field)
    ensures LastSetter(UpTo(es, k), f) == SetterUpTo(es, k, f)
  {
    if es != [] {
      var front, e := es[..|es| - 1], es[|es| - 1];
      var u := UpTo(front, k);
      SetterOfUpTo(front, k, f);
      if e.frame <= k { assert (u + [e])[..|u|] == u; } else { assert u + [] == u; }
    }
  }

  lemma {:induction false} SnocSetter(es: seq<Event>, e: Event, k: int, f: Field)
    ensures SetterUpTo(es + [e], k, f) == if e.frame <= k && Sets(e, f) then Found(e) else SetterUpTo(es, k, f)
  {
    assert (es + [e])[..|es|] == es;
  }

  /** No setter of a sorted list is behind its last event. */
  lemma {:induction false} SetterIsEarlier(es: seq<Event>, k: int, f: Field)
    requires InFrameOrder(es)
    ensures var l := SetterUpTo(es, k, f); l.Found? ==> es != [] && l.event.frame <= es[|es| - 1].frame
  {
    if es != [] { SetterIsEarlier(es[..|es| - 1], k, f); }
  }

  /** Stable insertion changes the last setter exactly as the reference does. */
  lemma {:induction false} InsertIsLatest(e: Event, es: seq<Event>, k: int, f: Field)
    requires InFrameOrder(es)
    ensures var before := SetterUpTo(es, k, f);
            SetterUpTo(Insert(e, es), k, f) ==
            if e.frame <= k && Sets(e, f) && (before == NoEvent || before.event.frame <= e.frame) then Found(e) else before
  {
    SetterIsEarlier(es, k, f);
    if es == [] {
      SnocSetter([], e, k, f);
      assert [] + [e] == [e];
    } else {
      var front, last := es[..|es| - 1], es[|es| - 1];
      if last.frame <= e.frame {
        SnocSetter(es, e, k, f);
      } else {
        InsertIsLatest(e, front, k, f);
        SnocSetter(Insert(e, front), last, k, f);
      }
    }
  }

  lemma {:induction false} SortedIsLatest(es: seq<Event>, k: int, f: Field)
    ensures SetterUpTo(Sorted(es), k, f) == Latest(es, k, f)
  {
    if es != [] {
      var front := es[..|es| - 1];
      SortedIsLatest(front, k, f);
      SortedIsOrdered(front);
      InsertIsLatest(es[|es| - 1], Sorted(front), k, f);
    }
  }

  /** Folding the sorted events up to frame `k` gives the state of the reference. */
  lemma {:induction false} FoldIsStateAt(es: seq<Event>, k: int)
    ensures Fold(INITIAL, UpTo(Sorted(es), k)) == StateAt(es, k)
  {
    FoldByLastSetters(UpTo(Sorted(es), k));
    forall f: Field ensures LastSetter(UpTo(Sorted(es), k), f) == Latest(es, k, f) {
      SetterOfUpTo(Sorted(es), k, f);
      SortedIsLatest(es, k, f);
    }
  }

  // ----- the timeline -----

  /** Interval `i` starts where the one before ends, with another state. */
  predicate Joins(out: seq<Interval>, i: int)
    requires 0 < i < |out|
  {
    out[i - 1].end == out[i].start && out[i - 1].state != out[i].state
  }

  /** Nonempty intervals that follow each other from 0 to `pos`, neighbours differing. */
  ghost predicate Tiles(out: seq<Interval>, pos: int) {
    && (out == [] ==> pos <= 0)
    && (out != [] ==> out[0].start == 0 && out[|out| - 1].end == pos)
    && (forall i :: 0 <= i < |out| ==> 0 <= out[i].start < out[i].end <= pos)
    && (forall i {:trigger Joins(out, i)} :: 0 < i < |out| ==> Joins(out, i))
  }

  ghost predicate Shows(out: seq<Interval>, es: seq<Event>) {
    forall i, k :: 0 <= i < |out| && out[i].start <= k < out[i].end ==> out[i].state == Fold(INITIAL, UpTo(es, k))
  }

  /** emit(): the state holds from `pos` to `upto`. */
  function Emitted(out: seq<Interval>, pos: int, upto: int, state: State, total: int): seq<Interval> {
    var to := Min(upto, total);
    if to <= pos then out
    else if out != [] && out[|out| - 1].end == pos && out[|out| - 1].state == state then
      out[|out| - 1 := out[|out| - 1].(end := to)]
    else out + [Interval(pos, to, state)]
  }

  lemma EmittedTiles(out: seq<Interval>, pos: int, upto: int, state: State, total: int)
    requires Tiles(out, pos) && 0 <= pos && (0 < total ==> pos <= total) && (total <= 0 ==> pos == 0)
    ensures Tiles(Emitted(out, pos, upto, state, total), Max(pos, Min(upto, total)))
  {
    var r := Emitted(out, pos, upto, state, total);
    forall i | 0 < i < |r| ensures Joins(r, i) {
      if i < |out| { assert Joins(out, i); }
    }
  }

  /** Between two neighbouring frames of the sorted events nothing changes. */
  lemma {:induction false} UpToSplits(es: seq<Event>, i: nat, k: int)
    requires i <= |es|
    requires forall j :: 0 <= j < i ==> es[j].frame <= k
    requires forall j :: i <= j < |es| ==> k < es[j].frame
    ensures UpTo(es, k) == es[..i]
  {
    if es != [] {
      var front := es[..|es| - 1];
      if i == |es| {
        UpToSplits(front, i - 1, k);
        assert es[..i] == front[..i - 1] + [es[i - 1]];
      } else {
        UpToSplits(front, i, k);
        assert front[..i] == es[..i] && front[..i] + [] == front[..i];
      }
    }
  }

  lemma EmittedShows(out: seq<Interval>, pos: int, upto: int, total: int, es: seq<Event>, i: nat)
    requires Tiles(out, pos) && Shows(out, es) && 0 <= pos && i <= |es|
    requires forall j :: 0 <= j < i ==> es[j].frame <= pos
    requires pos < Min(upto, total) ==> forall j :: i <= j < |es| ==> Min(upto, total) <= es[j].frame
    ensures Shows(Emitted(out, pos, upto, Fold(INITIAL, es[..i]), total), es)
  {
    var r := Emitted(out, pos, upto, Fold(INITIAL, es[..i]), total);
    forall j, k | 0 <= j < |r| && r[j].start <= k < r[j].end ensures r[j].state == Fold(INITIAL, UpTo(es, k)) {
      if pos <= k {
        UpToSplits(es, i, k);
      } else {
        assert j < |out| && out[j].start <= k < out[j].end;
      }
    }
  }

  /** The intervals after the first `i` events: up to `pos`, no further than the recording. */
  ghost predicate Emits(out: seq<Interval>, pos: int, es: seq<Event>, i: nat, total: int)
    requires i <= |es|
  {
    && Tiles(out, pos) && Shows(out, es)
    && 0 <= pos && (0 < total ==> pos <= total) && (total <= 0 ==> pos == 0)
    && (pos < total ==> forall j :: 0 <= j < i ==> es[j].frame <= pos)
  }

  lemma OneEvent(out: seq<Interval>, pos: int, es: seq<Event>, i: nat, total: int)
    requires InFrameOrder(es) && i < |es| && Emits(out, pos, es, i, total)
    ensures var f := Max(0, es[i].frame);
            Emits(Emitted(out, pos, f, Fold(INITIAL, es[..i]), total), Max(pos, Min(f, total)), es, i + 1, total)
    ensures Fold(INITIAL, es[..i + 1]) == Apply(Fold(INITIAL, es[..i]), es[i])
  {
    var f := Max(0, es[i].frame);
    EmittedTiles(out, pos, f, Fold(INITIAL, es[..i]), total);
    if pos < total { EmittedShows(out, pos, f, total, es, i); }
    assert es[..i + 1][..i] == es[..i];
  }

  lemma {:induction false} LastInterval(out: seq<Interval>, pos: int, es: seq<Event>, total: int)
    requires Emits(out, pos, es, |es|, total)
    ensures var r := Emitted(out, pos, total, Fold(INITIAL, es), total);
            Tiles(r, Max(0, total)) && Shows(r, es)
  {
    assert es[..|es|] == es;
    EmittedTiles(out, pos, total, Fold(INITIAL, es), total);
    if pos < total { EmittedShows(out, pos, total, total, es, |es|); }
  }

  lemma {:induction false} ShownIsStateAt(out: seq<Interval>, events: seq<Event>)
    requires Shows(out, Sorted(events))
    ensures forall i, k :: 0 <= i < |out| && out[i].start <= k < out[i].end ==> out[i].state == StateAt(events, k)
  {
    forall i, k | 0 <= i < |out| && out[i].start <= k < out[i].end ensures out[i].state == StateAt(events, k) {
      FoldIsStateAt(events, k);
    }
  }

  /**
   state_timeline(). The intervals are nonempty, contiguous, cover exactly
   [0, total) and have no equal neighbours, and every frame has the state given
   by the last event up to it for each field.
   */
  method StateTimeline(total: int, events: seq<Event>) returns (out: seq<Interval>)
    ensures Tiles(out, Max(0, total))
    ensures forall i, k :: 0 <= i < |out| && out[i].start <= k < out[i].end ==> out[i].state == StateAt(events, k)
  {
    var sorted := Sorted(events);
    var state := INITIAL;
    out := [];
    var pos := 0;
    SortedIsOrdered(events);
    for i := 0 to |sorted|
      invariant Emits(out, pos, sorted, i, total) && state == Fold(INITIAL, sorted[..i])
    {
      OneEvent(out, pos, sorted, i, total);
      var f := Max(0, sorted[i].frame);
      out := Emitted(out, pos, f, state, total);
      pos := Max(pos, Min(f, total));
      state := Apply(state, sorted[i]);
    }
    assert sorted[..|sorted|] == sorted;
    LastInterval(out, pos, sorted, total);
    out := Emitted(out, pos, total, state, total);
    ShownIsStateAt(out, events);
  }

  // ----- the timeline is a partition -----

  lemma {:induction false} TilesOrdered(out: seq<Interval>, pos: int, i: nat, j: nat)
    requires Tiles(out, pos) && i < j < |out|
    ensures out[i].end <= out[j].start
    decreases j
  {
    assert Joins(out, j);
    if i < j - 1 { TilesOrdered(out, pos, i, j - 1); }
  }

  lemma {:induction false} IntervalBefore(out: seq<Interval>, pos: int, k: int, last: nat) returns (i: nat)
    requires Tiles(out, pos) && last < |out| && 0 <= k < out[last].end
    ensures i < |out| && out[i].start <= k < out[i].end
  {
    if out[last].start <= k {
      i := last;
    } else {
      assert Joins(out, last);
      i := IntervalBefore(out, pos, k, last - 1);
    }
  }

  /** Every frame of the recording is in one interval, and only one. */
  lemma {:induction false} FrameHasInterval(out: seq<Interval>, pos: int, k: int) returns (i: nat)
    requires Tiles(out, pos) && 0 <= k < pos
    ensures i < |out| && out[i].start <= k < out[i].end
    ensures forall j :: 0 <= j < |out| && out[j].start <= k < out[j].end ==> j == i
  {
    i := IntervalBefore(out, pos, k, |out| - 1);
    forall j | 0 <= j < |out| && out[j].start <= k < out[j].end ensures j == i {
      if i < j { TilesOrdered(out, pos, i, j); }
      if j < i { TilesOrdered(out, pos, j, i); }
    }
  }

  // ----- overlays -----

  /** A drawn indicator: pause icon and text ("" = none); `caption` is speed_label(). */
  datatype Mark = Mark(paused: bool, text: string)

  datatype Overlay = Overlay(start: int, end: int, mark: Mark)

  function MarkOf(s: State, caption: string -> string): Mark {
    var text := if s.timebase != "realtime" then ""
                else if caption(s.speed) == "" then "real-time"
                else "real-time" + "  " + caption(s.speed);
    Mark(s.paused, text)
  }

  predicate Visible(m: Mark) {
    m.paused || m.text != ""
  }

  /** Ordered and disjoint. */
  ghost predicate InTurn(res: seq<Overlay>) {
    && (forall i :: 0 <= i < |res| ==> res[i].start < res[i].end && Visible(res[i].mark))
    && (forall i, j :: 0 <= i < j < |res| ==> res[i].end <= res[j].start)
  }

  predicate Touches(res: seq<Overlay>, i: int)
    requires 0 < i < |res|
  {
    res[i - 1].end == res[i].start
  }

  /** In addition, neighbours that touch differ. */
  ghost predicate Separate(res: seq<Overlay>) {
    && InTurn(res)
    && (forall i {:trigger Touches(res, i)} :: 0 < i < |res| ==> Touches(res, i) ==> res[i - 1].mark != res[i].mark)
  }

  predicate Covers(o: Overlay, k: int) {
    o.start <= k < o.end
  }

  /** Frame `k` carries exactly the indicator of its state. */
  ghost predicate Draws(res: seq<Overlay>, k: int, m: Mark) {
    if Visible(m) then exists i :: 0 <= i < |res| && Covers(res[i], k) && res[i].mark == m
    else forall i :: 0 <= i < |res| ==> !Covers(res[i], k)
  }

  /** The icon is that of the pause; the text is there in real time only, with the caption behind it if there is one. */
  lemma MarkShows(s: State, caption: string -> string)
    ensures var m, c := MarkOf(s, caption), caption(s.speed);
            && (m.paused <==> s.paused)
            && (m.text != "" <==> s.timebase == "realtime")
            && (m.text != "" ==> m.text == if c == "" then "real-time" else "real-time  " + c)
            && (Visible(m) <==> s.paused || s.timebase == "realtime")
  {
    assert "real-time" + "  " == "real-time  ";
  }

  /** One interval of the timeline: left out, merged into the last overlay, or appended. */
  function AddOverlay(res: seq<Overlay>, iv: Interval, caption: string -> string): seq<Overlay> {
    var m := MarkOf(iv.state, caption);
    if !Visible(m) then res
    else if res != [] && res[|res| - 1].end == iv.start && res[|res| - 1].mark == m then
      res[|res| - 1 := res[|res| - 1].(end := iv.end)]
    else res + [Overlay(iv.start, iv.end, m)]
  }

  lemma AddOverlayInTurn(res: seq<Overlay>, iv: Interval, caption: string -> string)
    requires InTurn(res) && iv.start < iv.end
    requires forall i :: 0 <= i < |res| ==> res[i].end <= iv.start
    ensures InTurn(AddOverlay(res, iv, caption))
    ensures forall i :: 0 <= i < |AddOverlay(res, iv, caption)| ==> AddOverlay(res, iv, caption)[i].end <= iv.end
  {
  }

  lemma AddOverlaySeparate(res: seq<Overlay>, iv: Interval, caption: string -> string)
    requires Separate(res) && iv.start < iv.end
    requires forall i :: 0 <= i < |res| ==> res[i].end <= iv.start
    ensures Separate(AddOverlay(res, iv, caption))
    ensures forall i :: 0 <= i < |AddOverlay(res, iv, caption)| ==> AddOverlay(res, iv, caption)[i].end <= iv.end
  {
    var r := AddOverlay(res, iv, caption);
    AddOverlayInTurn(res, iv, caption);
    forall i | 0 < i < |r| && Touches(r, i) ensures r[i - 1].mark != r[i].mark {
      if i < |res| { assert Touches(res, i); }
    }
  }

  lemma AddOverlayDraws(res: seq<Overlay>, iv: Interval, caption: string -> string, k: int, m: Mark)
    requires Separate(res) && iv.start < iv.end
    requires forall i :: 0 <= i < |res| ==> res[i].end <= iv.start
    requires k < iv.start ==> Draws(res, k, m)
    requires iv.start <= k < iv.end ==> m == MarkOf(iv.state, caption)
    requires k < iv.end
    ensures Draws(AddOverlay(res, iv, caption), k, m)
  {
    var r := AddOverlay(res, iv, caption);
    if k < iv.start {
      if Visible(m) {
        var i :| 0 <= i < |res| && Covers(res[i], k) && res[i].mark == m;
        assert Covers(r[i], k) && r[i].mark == m;
      } else {
        forall i | 0 <= i < |r| ensures !Covers(r[i], k) {
          if i < |res| { assert !Covers(res[i], k); }
        }
      }
    } else if Visible(m) {
      assert Covers(r[|r| - 1], k) && r[|r| - 1].mark == m;
    }
  }

  /** Every frame before `upto` carries exactly the indicator of its state. */
  ghost predicate DrawnBefore(res: seq<Overlay>, events: seq<Event>, caption: string -> string, upto: int) {
    forall k :: 0 <= k < upto ==> Draws(res, k, MarkOf(StateAt(events, k), caption))
  }

  /** Nothing is drawn from frame `upto` on. */
  ghost predicate EndsBefore(res: seq<Overlay>, upto: int) {
    forall i :: 0 <= i < |res| ==> 0 <= res[i].start && res[i].end <= upto
  }

  lemma OneInterval(res: seq<Overlay>, iv: Interval, events: seq<Event>, caption: string -> string)
    requires Separate(res) && 0 <= iv.start < iv.end && EndsBefore(res, iv.start)
    requires DrawnBefore(res, events, caption, iv.start)
    requires forall k :: iv.start <= k < iv.end ==> StateAt(events, k) == iv.state
    ensures var r := AddOverlay(res, iv, caption);
            Separate(r) && EndsBefore(r, iv.end) && DrawnBefore(r, events, caption, iv.end)
  {
    AddOverlaySeparate(res, iv, caption);
    forall k | 0 <= k < iv.end ensures Draws(AddOverlay(res, iv, caption), k, MarkOf(StateAt(events, k), caption)) {
      AddOverlayDraws(res, iv, caption, k, MarkOf(StateAt(events, k), caption));
    }
  }

  /** The frame where interval `n` starts. */
  function StartOf(out: seq<Interval>, n: nat): int
    requires n <= |out|
  {
    if n == 0 then 0 else out[n - 1].end
  }

  lemma StartsThere(out: seq<Interval>, pos: int, n: nat)
    requires Tiles(out, pos) && n < |out|
    ensures StartOf(out, n) == out[n].start
  {
    if n > 0 { assert Joins(out, n); }
  }

  lemma NextInterval(res: seq<Overlay>, timeline: seq<Interval>, pos: int, n: nat, events: seq<Event>,
                     caption: string -> string)
    requires Tiles(timeline, pos) && n < |timeline|
    requires forall i, k :: 0 <= i < |timeline| && timeline[i].start <= k < timeline[i].end ==>
               timeline[i].state == StateAt(events, k)
    requires Separate(res) && EndsBefore(res, StartOf(timeline, n)) && DrawnBefore(res, events, caption, StartOf(timeline, n))
    ensures var r := AddOverlay(res, timeline[n], caption);
            && Separate(r) && EndsBefore(r, StartOf(timeline, n + 1))
            && DrawnBefore(r, events, caption, StartOf(timeline, n + 1))
  {
    StartsThere(timeline, pos, n);
    OneInterval(res, timeline[n], events, caption);
  }

  /**
   overlay_intervals(). The overlays are ordered, disjoint and merged, and frame
   `k` carries an indicator if and only if its state has one, and then that one.
   */
  method OverlayIntervals(total: int, events: seq<Event>, caption: string -> string) returns (res: seq<Overlay>)
    ensures Separate(res)
    ensures DrawnBefore(res, events, caption, total)
    ensures EndsBefore(res, Max(0, total))
  {
    var timeline := StateTimeline(total, events);
    res := [];
    for n := 0 to |timeline|
      invariant Separate(res)
      invariant EndsBefore(res, StartOf(timeline, n))
      invariant DrawnBefore(res, events, caption, StartOf(timeline, n))
    {
      NextInterval(res, timeline, Max(0, total), n, events, caption);
      res := AddOverlay(res, timeline[n], caption);
    }
  }

  /** In these terms: an overlay covers a frame when it is paused or in real time, and shows which. */
  lemma OverlaysShowTheState(res: seq<Overlay>, events: seq<Event>, caption: string -> string, total: int, k: int)
    requires Separate(res) && DrawnBefore(res, events, caption, total) && 0 <= k < total
    ensures var s := StateAt(events, k);
            && ((exists i :: 0 <= i < |res| && Covers(res[i], k)) <==> s.paused || s.timebase == "realtime")
            && (forall i :: 0 <= i < |res| && Covers(res[i], k) ==>
                  && (res[i].mark.paused <==> s.paused)
                  && (res[i].mark.text != "" <==> s.timebase == "realtime"))
  {
    var s := StateAt(events, k);
    MarkShows(s, caption);
    assert Draws(res, k, MarkOf(s, caption));
    if Visible(MarkOf(s, caption)) {
      var i :| 0 <= i < |res| && Covers(res[i], k) && res[i].mark == MarkOf(s, caption);
      forall j | 0 <= j < |res| && Covers(res[j], k) ensures j == i {}
    }
  }
}
