/**
 Which files of a recording are concatenated (used_parts in
 docs/tools/videorec_export.py, lines 255-272).
 */
module VideoParts {

  datatype Part = Part(file: string, firstFrame: int)

  /** One past the last frame of part `i`. */
  function EndFrame(parts: seq<Part>, total: int, i: nat): int
    requires i < |parts|
  {
    if i + 1 < |parts| then parts[i + 1].firstFrame else total
  }

  predicate Used(parts: seq<Part>, total: int, i: nat)
    requires i < |parts|
  {
    parts[i].firstFrame < EndFrame(parts, total, i)
  }

  /** The parts with frames among the first `n`, in order. */
  function UsedUpTo(parts: seq<Part>, total: int, n: nat): seq<Part>
    requires n <= |parts|
  {
    if n == 0 then []
    else UsedUpTo(parts, total, n - 1) + if Used(parts, total, n - 1) then [parts[n - 1]] else []
  }

  method UsedParts(parts: seq<Part>, total: int) returns (out: seq<Part>)
    ensures out == UsedUpTo(parts, total, |parts|)
  {
    out := [];
    for i := 0 to |parts|
      invariant out == UsedUpTo(parts, total, i)
    {
      var end := if i + 1 < |parts| then parts[i + 1].firstFrame else total;
      if parts[i].firstFrame < end {
        out := out + [parts[i]];
      }
    }
  }

  /** The number of frames a part puts into the video; none when it is not listed. */
  function FramesOf(parts: seq<Part>, total: int, i: nat): nat
    requires i < |parts|
  {
    if Used(parts, total, i) then EndFrame(parts, total, i) - parts[i].firstFrame else 0
  }

  /** The number of frames the listed parts among the first `n` put into the video. */
  function FramesIn(parts: seq<Part>, total: int, n: nat): nat
    requires n <= |parts|
  {
    if n == 0 then 0
    else FramesIn(parts, total, n - 1) + FramesOf(parts, total, n - 1)
  }

  /** Part starts as the recorder writes them: from 0, never backwards, not past the end. */
  ghost predicate Ascending(parts: seq<Part>, total: int) {
    && |parts| > 0 && parts[0].firstFrame == 0
    && forall i {:trigger EndFrame(parts, total, i)} :: 0 <= i < |parts| ==> parts[i].firstFrame <= EndFrame(parts, total, i)
  }

  /** Where part `n` begins, or the recording ends. */
  function Boundary(parts: seq<Part>, total: int, n: nat): int
    requires n <= |parts|
  {
    if n < |parts| then parts[n].firstFrame else total
  }

  /** Each part starts at its own number of frames. */
  lemma {:induction false} StartsAreSums(parts: seq<Part>, total: int, n: nat)
    requires Ascending(parts, total) && n <= |parts|
    ensures FramesIn(parts, total, n) == Boundary(parts, total, n)
  {
    if n > 0 {
      StartsAreSums(parts, total, n - 1);
      assert parts[n - 1].firstFrame <= EndFrame(parts, total, n - 1);
    }
  }

  lemma {:induction false} StartsAscend(parts: seq<Part>, total: int, i: nat, j: nat)
    requires Ascending(parts, total) && i <= j < |parts|
    ensures parts[i].firstFrame <= parts[j].firstFrame
    decreases j
  {
    if i < j {
      StartsAscend(parts, total, i, j - 1);
      assert EndFrame(parts, total, j - 1) == parts[j].firstFrame;
    }
  }

  /** The listed part is a part of the recording, and its successor in the list begins where its frames end. */
  ghost predicate IsPart(parts: seq<Part>, total: int, out: seq<Part>, end: int, j: nat)
    requires j < |out|
  {
    exists i :: 0 <= i < |parts| && parts[i] == out[j] && EndFrame(parts, total, i) == EndFrame(out, end, j)
  }

  /** The list as a recording up to `end`, with no empty part in it. */
  ghost predicate Gapless(parts: seq<Part>, total: int, out: seq<Part>, end: int) {
    && (out == [] <==> end == 0)
    && (out != [] ==> Ascending(out, end))
    && (forall j :: 0 <= j < |out| ==> Used(out, end, j) && IsPart(parts, total, out, end, j))
  }

  /** One more part with frames. */
  lemma GaplessMore(parts: seq<Part>, total: int, out: seq<Part>, n: nat)
    requires n < |parts| && Used(parts, total, n) && 0 <= parts[n].firstFrame
    requires Gapless(parts, total, out, parts[n].firstFrame)
    ensures Gapless(parts, total, out + [parts[n]], EndFrame(parts, total, n))
  {
    var (more, end) := (out + [parts[n]], EndFrame(parts, total, n));
    forall j | 0 <= j < |more|
      ensures more[j].firstFrame <= EndFrame(more, end, j) && Used(more, end, j) && IsPart(parts, total, more, end, j)
    {
      if j < |out| {
        assert IsPart(parts, total, out, parts[n].firstFrame, j) && Used(out, parts[n].firstFrame, j);
        assert EndFrame(more, end, j) == EndFrame(out, parts[n].firstFrame, j);
      }
    }
  }

  lemma {:induction false} GaplessUpTo(parts: seq<Part>, total: int, n: nat)
    requires Ascending(parts, total) && n <= |parts|
    ensures Gapless(parts, total, UsedUpTo(parts, total, n), Boundary(parts, total, n))
  {
    if n > 0 {
      GaplessUpTo(parts, total, n - 1);
      assert parts[n - 1].firstFrame <= EndFrame(parts, total, n - 1);
      var before := UsedUpTo(parts, total, n - 1);
      if Used(parts, total, n - 1) {
        StartsAscend(parts, total, 0, n - 1);
        GaplessMore(parts, total, before, n - 1);
      } else {
        assert before + [] == before;
      }
    }
  }

  /**
   Leaving out empty parts moves no frame: in the list that is concatenated every
   part has frames, begins after exactly as many frames as its own first frame
   number, and ends where it ends in the recording.
   */
  lemma {:induction false} PartsKeepTheirPlace(parts: seq<Part>, total: int)
    requires Ascending(parts, total)
    ensures var out := UsedUpTo(parts, total, |parts|);
            && (out == [] <==> total == 0)
            && FramesIn(out, total, |out|) == total
            && forall j :: 0 <= j < |out| ==>
                 && Used(out, total, j) && IsPart(parts, total, out, total, j)
                 && FramesIn(out, total, j) == out[j].firstFrame
  {
    var out := UsedUpTo(parts, total, |parts|);
    GaplessUpTo(parts, total, |parts|);
    if out != [] { StartsAreSums(out, total, |out|); }
    forall j | 0 <= j < |out| ensures FramesIn(out, total, j) == out[j].firstFrame {
      StartsAreSums(out, total, j);
    }
  }

  /** The place of frame `k` in the joined video is its number in the recording, in one part of the list only. */
  lemma {:induction false} FrameKeepsItsNumber(parts: seq<Part>, total: int, k: int) returns (j: nat)
    requires Ascending(parts, total) && 0 <= k < total
    ensures var out := UsedUpTo(parts, total, |parts|);
            && j < |out| && IsPart(parts, total, out, total, j)
            && out[j].firstFrame <= k < EndFrame(out, total, j)
            && FramesIn(out, total, j) + (k - out[j].firstFrame) == k < FramesIn(out, total, j + 1)
            && (forall i :: 0 <= i < |out| && out[i].firstFrame <= k < EndFrame(out, total, i) ==> i == j)
  {
    var out := UsedUpTo(parts, total, |parts|);
    GaplessUpTo(parts, total, |parts|);
    j := 0;
    while EndFrame(out, total, j) <= k
      invariant j < |out| && out[j].firstFrame <= k
      decreases |out| - j
    {
      j := j + 1;
    }
    StartsAreSums(out, total, j);
    StartsAreSums(out, total, j + 1);
    forall i | 0 <= i < |out| && out[i].firstFrame <= k < EndFrame(out, total, i) ensures i == j {
      if j < i { StartsAscend(out, total, j + 1, i); }
      if i < j { StartsAscend(out, total, i + 1, j); }
    }
  }
}
