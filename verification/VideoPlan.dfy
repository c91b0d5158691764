/**
 Where every segment of a recording lands in the exported video, computed twice:
 by plan_timeline for the chapters and the checks, and by the joining loop of
 build_filtergraph for ffmpeg (docs/tools/videorec_export.py, lines 298-350 and
 656-699). Seconds are real numbers.
 */
module VideoPlan {

  const CARD_SECONDS := 2.0

  datatype Trans = NoTrans | Cut | Fade | Crossfade | Card | Unknown

  /** A segment of the sidecar; "" stands for a missing transition. */
  datatype Footage = Footage(start: int, end: int, transitionIn: string)

  datatype Options = Options(fps: real, d: real, transition: string, defaultTransition: string)

  datatype Segment = Segment(start: int, end: int, dur: real, trans: Trans, outStart: real)

  datatype Plan = Plan(segments: seq<Segment>, d: real, total: real)

  datatype Error = EmptySegment(index: nat) | UnknownTransition(index: nat) | ShorterThanCrossfade(index: nat)
                 | ShorterThanTwice(index: nat)

  datatype Result<T> = Ok(value: T) | Err(error: Error)

  function TransOf(name: string): Trans {
    if name == "cut" || name == "none" then Cut
    else if name == "fade" then Fade
    else if name == "crossfade" then Crossfade
    else if name == "card" then Card
    else Unknown
  }

  function Effective(f: Footage, opts: Options): string {
    if opts.transition != "" then opts.transition
    else if f.transitionIn != "" then f.transitionIn
    else opts.defaultTransition
  }

  // ----- the lengths in closed form -----

  /** What the timeline depends on: the length of a segment and how it is joined. */
  datatype Piece = Piece(dur: real, trans: Trans)

  /** The transition of the first segment is not looked at. */
  function PieceOf(f: Footage, opts: Options, i: nat): Piece
    requires opts.fps != 0.0
  {
    Piece((f.end - f.start) as real / opts.fps, if i == 0 then NoTrans else TransOf(Effective(f, opts)))
  }

  function Pieces(footage: seq<Footage>, opts: Options): seq<Piece>
    requires opts.fps != 0.0
  {
    seq(|footage|, i requires 0 <= i < |footage| => PieceOf(footage[i], opts, i))
  }

  /** What a name of the sidecar or of the options stands for. */
  predicate Names(name: string, t: Trans) {
    match t
    case NoTrans => false
    case Cut => name == "cut" || name == "none"
    case Fade => name == "fade"
    case Crossfade => name == "crossfade"
    case Card => name == "card"
    case Unknown => name != "cut" && name != "none" && name != "fade" && name != "crossfade" && name != "card"
  }

  /**
   The option goes before what the segment says, and that before the default; the
   first segment is not joined to anything.
   */
  lemma ChosenTransition(footage: seq<Footage>, opts: Options, i: nat)
    requires opts.fps != 0.0 && i < |footage|
    ensures var t, own := Pieces(footage, opts)[i].trans, footage[i].transitionIn;
            && (t == NoTrans <==> i == 0)
            && (i > 0 && opts.transition != "" ==> Names(opts.transition, t))
            && (i > 0 && opts.transition == "" && own != "" ==> Names(own, t))
            && (i > 0 && opts.transition == "" && own == "" ==> Names(opts.defaultTransition, t))
  {
  }

  /** The footage of the first `n` segments. */
  function Durations(ps: seq<Piece>, n: nat): real
    requires n <= |ps|
  {
    if n == 0 then 0.0 else Durations(ps, n - 1) + ps[n - 1].dur
  }

  function Count(ps: seq<Piece>, n: nat, t: Trans): nat
    requires n <= |ps|
  {
    if n == 0 then 0 else Count(ps, n - 1, t) + if ps[n - 1].trans == t then 1 else 0
  }

  /** What the transitions of the first `n` segments add: a card its seconds, a crossfade -D. */
  function Joints(ps: seq<Piece>, d: real, n: nat): real
    requires n <= |ps|
  {
    if n == 0 then 0.0
    else Joints(ps, d, n - 1) + match ps[n - 1].trans case Crossfade => -d case Card => CARD_SECONDS case _ => 0.0
  }

  /** The length of the first `n` segments joined. */
  function Length(ps: seq<Piece>, d: real, n: nat): real
    requires n <= |ps|
  {
    Durations(ps, n) + Joints(ps, d, n)
  }

  lemma OneMoreTimes(d: real, c: nat)
    ensures d * (c + 1) as real == d * c as real + d
  {
    var x := c as real;
    assert (c + 1) as real == x + 1.0;
    assert d * (x + 1.0) == d * x + d;
  }

  /** All the footage, less D for every crossfade, plus two seconds for every card. */
  lemma {:induction false} LengthInClosedForm(ps: seq<Piece>, d: real, n: nat)
    requires n <= |ps|
    ensures Length(ps, d, n)
            == Durations(ps, n) - d * Count(ps, n, Crossfade) as real + 2.0 * Count(ps, n, Card) as real
  {
    if n > 0 {
      LengthInClosedForm(ps, d, n - 1);
      OneMoreTimes(d, Count(ps, n - 1, Crossfade));
    }
  }

  /** A segment ends where the video joined so far ends. */
  function OutStart(ps: seq<Piece>, d: real, i: nat): real
    requires i < |ps|
  {
    Length(ps, d, i + 1) - ps[i].dur
  }

  lemma LengthStep(ps: seq<Piece>, d: real, i: nat)
    requires i < |ps|
    ensures Length(ps, d, i + 1) == Length(ps, d, i) + ps[i].dur
      + match ps[i].trans case Crossfade => -d case Card => CARD_SECONDS case _ => 0.0
  {
  }

  lemma FramesOf(frames: int, fps: real)
    requires fps != 0.0
    ensures frames as real / fps * fps == frames as real
  {
  }

  /** Each segment goes on where the one before ended, and none is joined by a crossfade or a card. */
  predicate Unbroken(footage: seq<Footage>, opts: Options, n: nat)
    requires opts.fps != 0.0 && n <= |footage|
  {
    forall i :: 0 < i < n ==>
      && footage[i].start == footage[i - 1].end
      && Pieces(footage, opts)[i].trans != Crossfade && Pieces(footage, opts)[i].trans != Card
  }

  /** Cuts and fades keep the time of the recording: `n` segments last as long as their frames, from the first on. */
  lemma {:induction false} CutsKeepTheTime(footage: seq<Footage>, opts: Options, n: nat)
    requires opts.fps != 0.0 && 0 < n <= |footage| && Unbroken(footage, opts, n)
    ensures Length(Pieces(footage, opts), opts.d, n) * opts.fps == (footage[n - 1].end - footage[0].start) as real
  {
    var ps := Pieces(footage, opts);
    LengthStep(ps, opts.d, n - 1);
    FramesOf(footage[n - 1].end - footage[n - 1].start, opts.fps);
    if n > 1 {
      CutsKeepTheTime(footage, opts, n - 1);
      var a := Length(ps, opts.d, n - 1);
      assert (a + ps[n - 1].dur) * opts.fps == a * opts.fps + ps[n - 1].dur * opts.fps;
    }
  }

  // ----- what plan_timeline accepts -----

  predicate Soft(t: Trans) {
    t == Fade || t == Crossfade || t == Card
  }

  /** Passes the checks of the first loop. */
  predicate Fine(ps: seq<Piece>, d: real, i: nat)
    requires i < |ps|
  {
    && ps[i].dur > 0.0
    && (i > 0 ==> ps[i].trans != Unknown && (ps[i].trans == Crossfade ==> d <= ps[i].dur && d <= Length(ps, d, i)))
  }

  ghost predicate AllFine(ps: seq<Piece>, d: real, n: nat)
    requires n <= |ps|
  {
    forall i :: 0 <= i < n ==> Fine(ps, d, i)
  }

  predicate SoftAtBothEnds(ps: seq<Piece>, i: nat)
    requires i < |ps|
  {
    Soft(ps[i].trans) && i + 1 < |ps| && Soft(ps[i + 1].trans)
  }

  ghost predicate Accepts(ps: seq<Piece>, d: real) {
    && AllFine(ps, d, |ps|)
    && (forall i :: 0 <= i < |ps| && SoftAtBothEnds(ps, i) ==> ps[i].dur >= 2.0 * d)
  }

  /** Two segments are accepted if they have a length and the transition is known and no longer than either. */
  lemma {:induction false} TwoSegments(ps: seq<Piece>, d: real)
    requires |ps| == 2 && ps[0].trans == NoTrans
    ensures Accepts(ps, d)
            <==> && ps[0].dur > 0.0 && ps[1].dur > 0.0 && ps[1].trans != Unknown
                 && (ps[1].trans == Crossfade ==> d <= ps[0].dur && d <= ps[1].dur)
  {
    LengthStep(ps, d, 0);
    assert AllFine(ps, d, 2) <==> Fine(ps, d, 0) && Fine(ps, d, 1);
  }

  /** Segments of at least twice the transition can be joined in any way that has a name. */
  lemma {:induction false} LongSegmentsAreAccepted(ps: seq<Piece>, d: real, n: nat)
    requires 0.0 <= d && n <= |ps| && (|ps| > 0 ==> ps[0].trans == NoTrans)
    requires forall i :: 0 <= i < |ps| ==> ps[i].dur > 0.0 && ps[i].dur >= 2.0 * d && ps[i].trans != Unknown
    ensures AllFine(ps, d, n) && (n > 0 ==> Length(ps, d, n) >= d)
    ensures n == |ps| ==> Accepts(ps, d)
  {
    if n > 0 {
      LongSegmentsAreAccepted(ps, d, n - 1);
      LengthStep(ps, d, n - 1);
      assert Fine(ps, d, n - 1);
    }
  }

  /** What is wrong with segment `i` in the first loop, in the order of its checks. */
  predicate Fault(ps: seq<Piece>, d: real, i: nat, e: Error)
    requires i < |ps|
  {
    if ps[i].dur <= 0.0 then e == EmptySegment(i)
    else if i > 0 && ps[i].trans == Unknown then e == UnknownTransition(i)
    else i > 0 && ps[i].trans == Crossfade && (ps[i].dur < d || Length(ps, d, i) < d) && e == ShorterThanCrossfade(i)
  }

  /** The error names the first segment that fails. */
  ghost predicate FirstFault(ps: seq<Piece>, d: real, e: Error) {
    if e.ShorterThanTwice? then
      && e.index < |ps| && SoftAtBothEnds(ps, e.index) && ps[e.index].dur < 2.0 * d
      && AllFine(ps, d, |ps|)
      && (forall i :: 0 <= i < e.index && SoftAtBothEnds(ps, i) ==> ps[i].dur >= 2.0 * d)
    else e.index < |ps| && Fault(ps, d, e.index, e) && AllFine(ps, d, e.index)
  }

  /** The segment with everything the plan says about it. */
  function Planned(f: Footage, ps: seq<Piece>, d: real, i: nat): Segment
    requires i < |ps|
  {
    Segment(f.start, f.end, ps[i].dur, ps[i].trans, OutStart(ps, d, i))
  }

  ghost predicate AllPlanned(segs: seq<Segment>, footage: seq<Footage>, ps: seq<Piece>, d: real)
    requires |segs| <= |footage| == |ps|
  {
    forall i :: 0 <= i < |segs| ==> segs[i] == Planned(footage[i], ps, d, i)
  }

  lemma AllPlannedMore(segs: seq<Segment>, segment: Segment, footage: seq<Footage>, ps: seq<Piece>, d: real)
    requires |segs| < |footage| == |ps| && AllPlanned(segs, footage, ps, d)
    requires segment == Planned(footage[|segs|], ps, d, |segs|)
    ensures AllPlanned(segs + [segment], footage, ps, d)
  {
  }

  ghost predicate IsPlan(plan: Plan, footage: seq<Footage>, ps: seq<Piece>, d: real) {
    && |plan.segments| == |footage| == |ps| && plan.d == d
    && AllPlanned(plan.segments, footage, ps, d)
    && plan.total == Length(ps, d, |ps|)
  }

  /** The second loop: the first segment too short for its two transitions. */
  method ShortBetweenTransitions(segs: seq<Segment>, d: real, ghost footage: seq<Footage>, ghost ps: seq<Piece>)
      returns (i: nat)
    requires |segs| == |footage| == |ps| && AllPlanned(segs, footage, ps, d)
    ensures i <= |ps| && forall j :: 0 <= j < i && SoftAtBothEnds(ps, j) ==> ps[j].dur >= 2.0 * d
    ensures i < |ps| ==> SoftAtBothEnds(ps, i) && ps[i].dur < 2.0 * d
  {
    i := 0;
    while i < |segs|
      invariant i <= |ps| && forall j :: 0 <= j < i && SoftAtBothEnds(ps, j) ==> ps[j].dur >= 2.0 * d
    {
      var hasIn := Soft(segs[i].trans);
      var hasOut := i + 1 < |segs| && Soft(segs[i + 1].trans);
      if hasIn && hasOut && segs[i].dur < 2.0 * d {
        return;
      }
      i := i + 1;
    }
  }

  /** One turn of the first loop: the segment in the plan and the new running length. */
  method Place(f: Footage, opts: Options, i: nat, cur: real, ghost ps: seq<Piece>)
      returns (r: Result<Segment>, next: real)
    requires opts.fps != 0.0 && i < |ps| && ps[i] == PieceOf(f, opts, i)
    requires cur == Length(ps, opts.d, i)
    ensures r.Ok? <==> Fine(ps, opts.d, i)
    ensures r.Ok? ==> r.value == Planned(f, ps, opts.d, i) && next == Length(ps, opts.d, i + 1)
    ensures r.Err? ==> Fault(ps, opts.d, i, r.error)
  {
    LengthStep(ps, opts.d, i);
    var d := opts.d;
    next := cur;
    var dur := (f.end - f.start) as real / opts.fps;
    if dur <= 0.0 {
      return Err(EmptySegment(i)), next;
    }
    var trans, outStart := NoTrans, 0.0;
    if i == 0 {
      next := dur;
    } else {
      trans := TransOf(Effective(f, opts));
      if trans == Unknown {
        return Err(UnknownTransition(i)), next;
      }
      if trans == Crossfade {
        if d > dur || d > cur {
          return Err(ShorterThanCrossfade(i)), next;
        }
        outStart := cur - d;
        next := cur - d + dur;
      } else if trans == Card {
        outStart := cur + CARD_SECONDS;
        next := outStart + dur;
      } else {
        outStart := cur;
        next := cur + dur;
      }
    }
    r := Ok(Segment(f.start, f.end, dur, trans, outStart));
  }

  /** The first loop. */
  method PlaceSegments(footage: seq<Footage>, opts: Options, ghost ps: seq<Piece>) returns (r: Result<Plan>)
    requires opts.fps != 0.0 && |ps| == |footage|
    requires forall i :: 0 <= i < |ps| ==> ps[i] == PieceOf(footage[i], opts, i)
    ensures r.Ok? ==> AllFine(ps, opts.d, |ps|) && IsPlan(r.value, footage, ps, opts.d)
    ensures r.Err? ==> !r.error.ShorterThanTwice? && FirstFault(ps, opts.d, r.error)
  {
    var segs: seq<Segment> := [];
    var cur := 0.0;
    var i := 0;
    while i < |footage|
      invariant i <= |footage| && cur == Length(ps, opts.d, i)
      invariant |segs| == i && AllPlanned(segs, footage, ps, opts.d)
      invariant AllFine(ps, opts.d, i)
    {
      var placed, next := Place(footage[i], opts, i, cur, ps);
      if placed.Err? {
        return Err(placed.error);
      }
      AllPlannedMore(segs, placed.value, footage, ps, opts.d);
      segs, cur := segs + [placed.value], next;
      i := i + 1;
    }
    r := Ok(Plan(segs, opts.d, cur));
  }

  /**
   plan_timeline(). Accepts exactly the segment lists that pass every check, and
   then each out_start is where the segment begins in the joined video and the
   total is the closed form; otherwise the error is the first fault.
   */
  method PlanTimeline(footage: seq<Footage>, opts: Options) returns (r: Result<Plan>)
    requires opts.fps != 0.0
    ensures r.Ok? <==> Accepts(Pieces(footage, opts), opts.d)
    ensures r.Ok? ==> IsPlan(r.value, footage, Pieces(footage, opts), opts.d)
    ensures r.Err? ==> FirstFault(Pieces(footage, opts), opts.d, r.error)
  {
    ghost var ps := Pieces(footage, opts);
    r := PlaceSegments(footage, opts, ps);
    if r.Ok? {
      var short := ShortBetweenTransitions(r.value.segments, opts.d, footage, ps);
      if short < |footage| {
        r := Err(ShorterThanTwice(short));
      }
    }
    if r.Err? {
      if r.error.ShorterThanTwice? {
        assert SoftAtBothEnds(ps, r.error.index);
      } else {
        assert !Fine(ps, opts.d, r.error.index);
      }
    }
  }

  // ----- the joining loop of build_filtergraph -----

  datatype Join = XFade(duration: real, offset: real) | ConcatWithCard(card: real) | Concat

  /**
   The joining loop. The filters it writes for a plan put every crossfade at the
   out_start that the chapters use, and its running length ends at the total.
   */
  method JoinSegments(plan: Plan, ghost footage: seq<Footage>, ghost ps: seq<Piece>)
      returns (joins: seq<Join>, cur: real)
    requires IsPlan(plan, footage, ps, plan.d) && Accepts(ps, plan.d) && |ps| > 0 && ps[0].trans == NoTrans
    ensures |joins| == |plan.segments| - 1 && cur == plan.total
    ensures forall i :: 0 < i < |plan.segments| ==>
      joins[i - 1] == match plan.segments[i].trans
                      case Crossfade => XFade(plan.d, plan.segments[i].outStart)
                      case Card => ConcatWithCard(CARD_SECONDS)
                      case _ => Concat
  {
    var segs := plan.segments;
    joins := [];
    cur := segs[0].dur;
    LengthStep(ps, plan.d, 0);
    for i := 1 to |segs|
      invariant |joins| == i - 1 && cur == Length(ps, plan.d, i)
      invariant forall j :: 0 < j < i ==>
        joins[j - 1] == match segs[j].trans
                        case Crossfade => XFade(plan.d, segs[j].outStart)
                        case Card => ConcatWithCard(CARD_SECONDS)
                        case _ => Concat
    {
      LengthStep(ps, plan.d, i);
      var tr := segs[i].trans;
      if tr == Crossfade {
        joins := joins + [XFade(plan.d, cur - plan.d)];
        cur := cur + segs[i].dur - plan.d;
      } else if tr == Card {
        joins := joins + [ConcatWithCard(CARD_SECONDS)];
        cur := cur + CARD_SECONDS + segs[i].dur;
      } else {
        joins := joins + [Concat];
        cur := cur + segs[i].dur;
      }
    }
  }

  // ----- the times at which transitions are running -----

  /** A fade is shortened to the segment. */
  function FadeTime(ps: seq<Piece>, d: real, i: nat): real
    requires i < |ps|
  {
    if d < ps[i].dur then d else ps[i].dur
  }

  /** Both fit: it is the longest time that is within the transition and within the segment. */
  lemma FadeTimeFits(ps: seq<Piece>, d: real, i: nat, time: real)
    requires i < |ps|
    ensures time <= FadeTime(ps, d, i) <==> time <= d && time <= ps[i].dur
  {
  }

  /**
   The time in the video at which the transition into segment `i` begins: that of
   the crossfade, or the start of the fade-out inside the segment before.
   */
  function Begin(ps: seq<Piece>, d: real, i: nat): real
    requires 0 < i < |ps|
  {
    if ps[i].trans == Crossfade then OutStart(ps, d, i)
    else OutStart(ps, d, i - 1) + (ps[i - 1].dur - FadeTime(ps, d, i - 1))
  }

  /** The time at which it is over: after the crossfade or the fade-in. */
  function End(ps: seq<Piece>, d: real, i: nat): real
    requires 0 < i < |ps|
  {
    OutStart(ps, d, i) + if ps[i].trans == Crossfade then d else FadeTime(ps, d, i)
  }

  predicate Transition(ps: seq<Piece>, i: nat) {
    0 < i < |ps| && Soft(ps[i].trans)
  }

  ghost predicate NoOverlap(ps: seq<Piece>, d: real) {
    forall p: nat, i: nat :: p < i && Transition(ps, p) && Transition(ps, i) ==> End(ps, d, p) <= Begin(ps, d, i)
  }

  /** Transition `p` is the last one before `i`. */
  ghost predicate LastBefore(ps: seq<Piece>, p: nat, i: nat) {
    p < i && Transition(ps, p) && Transition(ps, i) && forall q :: p < q < i ==> !Transition(ps, q)
  }

  /** From transition `p` up to a crossfade at `i` there is footage enough for both. */
  ghost predicate Roomy(ps: seq<Piece>, d: real) {
    forall p: nat, i: nat :: LastBefore(ps, p, i) && ps[i].trans == Crossfade ==>
      Durations(ps, i) - Durations(ps, p) >= d + FadeTime(ps, d, p)
  }

  lemma {:induction false} LengthOverCuts(ps: seq<Piece>, d: real, p: nat, i: nat)
    requires Accepts(ps, d) && p < i < |ps| && forall q :: p < q < i ==> !Transition(ps, q)
    ensures Length(ps, d, i) - Length(ps, d, p + 1) == Durations(ps, i) - Durations(ps, p + 1)
    ensures Durations(ps, p + 1) <= Durations(ps, i)
    decreases i
  {
    if p + 1 < i {
      LengthOverCuts(ps, d, p, i - 1);
      LengthStep(ps, d, i - 1);
      assert Fine(ps, d, i - 1) && !Transition(ps, i - 1);
    }
  }

  lemma BeginEnd(ps: seq<Piece>, d: real, i: nat)
    requires Accepts(ps, d) && 0.0 <= d && Transition(ps, i)
    ensures Begin(ps, d, i) <= End(ps, d, i)
    ensures ps[i].trans != Crossfade ==> Begin(ps, d, i) == Length(ps, d, i) - FadeTime(ps, d, i - 1)
    ensures ps[i].trans == Crossfade ==> Begin(ps, d, i) == Length(ps, d, i) - d
    ensures End(ps, d, i) == OutStart(ps, d, i) + FadeTime(ps, d, i)
  {
    LengthStep(ps, d, i);
    assert Fine(ps, d, i) && Fine(ps, d, i - 1);
  }

  lemma {:induction false} NeighboursIff(ps: seq<Piece>, d: real, p: nat, i: nat)
    requires Accepts(ps, d) && 0.0 <= d && LastBefore(ps, p, i)
    ensures ps[i].trans != Crossfade ==> End(ps, d, p) <= Begin(ps, d, i)
    ensures ps[i].trans == Crossfade ==>
      (End(ps, d, p) <= Begin(ps, d, i) <==> Durations(ps, i) - Durations(ps, p) >= d + FadeTime(ps, d, p))
  {
    BeginEnd(ps, d, p);
    BeginEnd(ps, d, i);
    LengthOverCuts(ps, d, p, i);
    if p + 1 < i {
      assert Fine(ps, d, i - 1);
      LengthOverCuts(ps, d, p, i - 1);
    } else {
      assert SoftAtBothEnds(ps, p);
    }
  }

  lemma {:induction false} RoomyOrders(ps: seq<Piece>, d: real, p: nat, i: nat)
    requires Accepts(ps, d) && 0.0 <= d && Roomy(ps, d)
    requires p < i && Transition(ps, p) && Transition(ps, i)
    ensures End(ps, d, p) <= Begin(ps, d, i)
    decreases i - p
  {
    if LastBefore(ps, p, i) {
      NeighboursIff(ps, d, p, i);
    } else {
      var q :| p < q < i && Transition(ps, q);
      RoomyOrders(ps, d, p, q);
      BeginEnd(ps, d, q);
      RoomyOrders(ps, d, q, i);
    }
  }

  /**
   In an accepted plan no two transitions run at the same time if and only if
   each crossfade has, since the transition before it, footage for both. The
   check of plan_timeline looks at one segment only, and a crossfade that follows
   a cut may be longer than the segment after the cut.
   */
  lemma NoOverlapIffRoomy(ps: seq<Piece>, d: real)
    requires Accepts(ps, d) && 0.0 <= d
    ensures NoOverlap(ps, d) <==> Roomy(ps, d)
  {
    if Roomy(ps, d) {
      forall p: nat, i: nat | p < i && Transition(ps, p) && Transition(ps, i)
        ensures End(ps, d, p) <= Begin(ps, d, i)
      {
        RoomyOrders(ps, d, p, i);
      }
    }
    if NoOverlap(ps, d) {
      forall p: nat, i: nat | LastBefore(ps, p, i) && ps[i].trans == Crossfade
        ensures Durations(ps, i) - Durations(ps, p) >= d + FadeTime(ps, d, p)
      {
        NeighboursIff(ps, d, p, i);
      }
    }
  }

  /** The lengths never shrink: every transition runs inside the video. */
  lemma {:induction false} LengthGrows(ps: seq<Piece>, d: real, i: nat, n: nat)
    requires Accepts(ps, d) && 0.0 <= d && i <= n <= |ps| && (|ps| > 0 ==> ps[0].trans == NoTrans)
    ensures Length(ps, d, i) <= Length(ps, d, n)
    decreases n
  {
    if i < n {
      LengthGrows(ps, d, i, n - 1);
      LengthStep(ps, d, n - 1);
      assert Fine(ps, d, n - 1);
    }
  }

  /** Accepted transitions run between the start and the end of the video. */
  lemma TransitionsAreInside(ps: seq<Piece>, d: real, i: nat)
    requires Accepts(ps, d) && 0.0 <= d && Transition(ps, i) && ps[0].trans == NoTrans
    ensures 0.0 <= Begin(ps, d, i) <= End(ps, d, i) <= Length(ps, d, |ps|)
  {
    BeginEnd(ps, d, i);
    LengthStep(ps, d, i);
    LengthStep(ps, d, i - 1);
    assert Fine(ps, d, i) && Fine(ps, d, i - 1);
    LengthGrows(ps, d, i + 1, |ps|);
    LengthGrows(ps, d, 0, i - 1);
  }

  /** Five seconds, a fade into 0.6 s, a cut to 0.1 s, a crossfade of 0.5 s: accepted, and yet they overlap. */
  lemma AcceptedPlanCanOverlap() returns (ps: seq<Piece>, d: real)
    ensures Accepts(ps, d) && 0.0 <= d && |ps| > 0 && ps[0].trans == NoTrans
    ensures !NoOverlap(ps, d)
  {
    d := 0.5;
    ps := [Piece(5.0, NoTrans), Piece(0.6, Fade), Piece(0.1, Cut), Piece(5.0, Crossfade)];
    LengthStep(ps, d, 0);
    LengthStep(ps, d, 1);
    LengthStep(ps, d, 2);
    LengthStep(ps, d, 3);
    assert Transition(ps, 1) && Transition(ps, 3);
    assert End(ps, d, 1) == 5.5 && Begin(ps, d, 3) == 5.2;
  }
}
