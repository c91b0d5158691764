/**
 The note tracker of the sound analysis (src/emulator/audio_analysis.c, lines
 58-62 and 378-432) against the runs of its whole history.
 */
module NoteTracker {
  import opened Basics
  import opened NoteRuns

  const ATTN_OFF: nat := 15

  /** One observation of a channel. */
  datatype Sample = Sample(divider: nat, attn: nat, noise: bool, frame: nat)

  datatype Note = Note(divider: nat, noise: bool, maxLevel: int, fromFrame: nat, toFrame: nat)

  /** audio_psg_is_playing() */
  predicate IsPlaying(s: Sample) {
    s.attn < ATTN_OFF && (s.noise || s.divider >= 2)
  }

  /** A tone is its divider, which is at least 2; the noise has one pitch, written 0. */
  function SoundOf(s: Sample): Sound {
    if !IsPlaying(s) then Silent else if s.noise then Playing(0) else Playing(s.divider)
  }

  function Trace(us: seq<Sample>): (t: seq<Sound>)
    ensures |t| == |us| && forall n :: 0 <= n < |us| ==> t[n] == SoundOf(us[n])
  {
    seq(|us|, n requires 0 <= n < |us| => SoundOf(us[n]))
  }

  /** The least attenuation of the samples from `first` to `n`. */
  function LeastAttn(us: seq<Sample>, first: nat, n: nat): nat
    requires first <= n < |us|
    decreases n
  {
    if first == n then us[n].attn else Min(LeastAttn(us, first, n - 1), us[n].attn)
  }

  /** The note of a run that is over, or cut off, at frame `to`. */
  function NoteOf(us: seq<Sample>, r: Run, end: nat): Note
    requires r.first < r.last <= |us|
  {
    var s := us[r.first];
    Note(if s.noise then 0 else s.divider, s.noise, ATTN_OFF - LeastAttn(us, r.first, r.last - 1),
         s.frame, if end < s.frame then s.frame else end)
  }

  ghost predicate InTime(us: seq<Sample>) {
    forall i, j :: 0 <= i < j < |us| ==> us[i].frame <= us[j].frame
  }

  // ----- what comes out -----

  datatype Done = NoNote | Done(note: Note)

  /** The note that ends with the last sample of the history: that of the run before, if it does not go on. */
  function Ended(us: seq<Sample>): Done
    requires |us| > 1
  {
    var t, n := Trace(us), |us| - 1;
    if t[n - 1].Playing? && t[n] != t[n - 1] then Done(NoteOf(us[..n], Run(Start(t, n - 1), n), us[n].frame)) else NoNote
  }

  /** The note that still plays when the history ends at `lastFrame`. */
  function StillPlaying(us: seq<Sample>, lastFrame: nat): Done
    requires |us| > 0
  {
    var t, n := Trace(us), |us| - 1;
    if t[n].Playing? then Done(NoteOf(us, Run(Start(t, n), |us|), lastFrame)) else NoNote
  }

  lemma {:induction false} StartOfPrefix(t: seq<Sound>, u: seq<Sound>, n: nat)
    requires n < |t| <= |u| && u[..|t|] == t
    ensures Start(u, n) == Start(t, n)
  {
    assert forall i :: 0 <= i < |t| ==> u[i] == t[i];
    if n > 0 && SameNote(t, n) { StartOfPrefix(t, u, n - 1); }
  }

  lemma {:induction false} LeastOfPrefix(us: seq<Sample>, u: Sample, first: nat, n: nat)
    requires first <= n < |us|
    ensures LeastAttn(us + [u], first, n) == LeastAttn(us, first, n)
    decreases n
  {
    if first < n { LeastOfPrefix(us, u, first, n - 1); }
  }

  /** What one more sample means for the run of the last two. */
  lemma {:induction false} HistoryGrows(us: seq<Sample>, u: Sample)
    requires |us| > 0
    ensures var n := |us|; var t := Trace(us + [u]);
            && Start(t, n - 1) == Start(Trace(us), n - 1)
            && LeastAttn(us + [u], Start(t, n - 1), n - 1) == LeastAttn(us, Start(t, n - 1), n - 1)
            && Start(t, n) == (if t[n].Playing? && t[n - 1] == t[n] then Start(t, n - 1) else n)
  {
    var t := Trace(us + [u]);
    assert t[..|us|] == Trace(us);
    StartOfPrefix(Trace(us), t, |us| - 1);
    LeastOfPrefix(us, u, Start(t, |us| - 1), |us| - 1);
  }

  // ----- a whole history -----

  /** The frame at which a run ends: the next sample, or the end of the history. */
  function EndOf(us: seq<Sample>, r: Run, lastFrame: nat): nat {
    if r.last < |us| then us[r.last].frame else lastFrame
  }

  function NotesOf(us: seq<Sample>, rs: seq<Run>, lastFrame: nat): seq<Note>
    requires forall i :: 0 <= i < |rs| ==> rs[i].first < rs[i].last <= |us|
  {
    seq(|rs|, i requires 0 <= i < |rs| => NoteOf(us, rs[i], EndOf(us, rs[i], lastFrame)))
  }

  ghost predicate Proper(us: seq<Sample>, rs: seq<Run>) {
    forall i :: 0 <= i < |rs| ==> rs[i].first < rs[i].last <= |us|
  }

  lemma {:induction false} LeastInPrefix(us: seq<Sample>, m: nat, first: nat, n: nat)
    requires first <= n < m <= |us|
    ensures LeastAttn(us[..m], first, n) == LeastAttn(us, first, n)
    decreases n
  {
    if first < n { LeastInPrefix(us, m, first, n - 1); }
  }

  /** Cutting the history behind the end of a run does not change its note. */
  lemma NoteInPrefix(us: seq<Sample>, m: nat, r: Run, end: nat)
    requires r.first < r.last <= m <= |us|
    ensures NoteOf(us[..m], r, end) == NoteOf(us, r, end)
  {
    LeastInPrefix(us, m, r.first, r.last - 1);
  }

  lemma {:induction false} ClosedOfPrefix(t: seq<Sound>, u: seq<Sound>, n: nat)
    requires n < |t| <= |u| && u[..|t|] == t
    ensures Closed(u, n) == Closed(t, n)
  {
    assert forall i :: 0 <= i < |t| ==> u[i] == t[i];
    if n > 0 {
      ClosedOfPrefix(t, u, n - 1);
      StartOfPrefix(t, u, n - 1);
    }
  }

  lemma RunsAreProper(us: seq<Sample>)
    requires |us| > 0
    ensures Proper(us, Runs(Trace(us)))
    ensures forall n :: 0 <= n < |us| ==> Proper(us, Closed(Trace(us), n))
  {
    var t := Trace(us);
    RunsInOrder(t);
    forall i | 0 <= i < |Runs(t)| ensures Runs(t)[i].first < Runs(t)[i].last <= |us| {
      RunsExactly(t, Runs(t)[i]);
    }
    forall n | 0 <= n < |us| ensures Proper(us, Closed(t, n)) {
      ClosedInOrder(t, n);
    }
  }

  /** The notes of all runs of a history that ends at `lastFrame`. */
  function AllNotes(us: seq<Sample>, lastFrame: nat): seq<Note>
    requires |us| > 0
  {
    RunsAreProper(us);
    NotesOf(us, Runs(Trace(us)), lastFrame)
  }

  /** Those that are over after `n` samples. */
  function NotesUpTo(us: seq<Sample>, n: nat, lastFrame: nat): seq<Note>
    requires 0 < n <= |us|
  {
    RunsAreProper(us);
    NotesOf(us, Closed(Trace(us), n - 1), lastFrame)
  }

  function AsSeq(done: Done): seq<Note> {
    if done.Done? then [done.note] else []
  }

  /** The runs that are over after one more sample, and the note of the last of them. */
  lemma {:induction false} OneStep(us: seq<Sample>, n: nat, lastFrame: nat)
    requires 0 < n < |us| && Proper(us, Closed(Trace(us), n - 1)) && Proper(us, Closed(Trace(us), n))
    ensures var t := Trace(us);
            var u := Trace(us[..n + 1]);
            && u[n] == t[n] && u[n - 1] == t[n - 1] && Start(u, n - 1) == Start(t, n - 1)
            && NotesOf(us, Closed(t, n), lastFrame) == NotesOf(us, Closed(t, n - 1), lastFrame)
                 + if t[n - 1].Playing? && t[n] != t[n - 1]
                   then [NoteOf(us[..n], Run(Start(t, n - 1), n), us[n].frame)] else []
  {
    var t, u := Trace(us), Trace(us[..n + 1]);
    assert t[..n + 1] == u;
    StartOfPrefix(u, t, n - 1);
    ClosedStep(t, n - 1);
    if t[n - 1].Playing? && t[n] != t[n - 1] {
      NoteInPrefix(us, n, Run(Start(t, n - 1), n), us[n].frame);
    }
  }

  /** The note of an update is that of the run it ends. */
  lemma {:induction false} OneMore(us: seq<Sample>, n: nat, lastFrame: nat)
    requires 0 < n < |us|
    ensures NotesUpTo(us, n + 1, lastFrame) == NotesUpTo(us, n, lastFrame) + AsSeq(Ended(us[..n + 1]))
  {
    RunsAreProper(us);
    OneStep(us, n, lastFrame);
    assert us[..n + 1][..n] == us[..n];
  }

  lemma {:induction false} LastOne(us: seq<Sample>, lastFrame: nat)
    requires |us| > 0
    ensures AllNotes(us, lastFrame) == NotesUpTo(us, |us|, lastFrame) + AsSeq(StillPlaying(us, lastFrame))
  {
    RunsAreProper(us);
  }

  /** The level of a run is that of its loudest sample. */
  lemma {:induction false} LeastIsLeast(us: seq<Sample>, first: nat, n: nat) returns (loudest: nat)
    requires first <= n < |us|
    ensures first <= loudest <= n && LeastAttn(us, first, n) == us[loudest].attn
    ensures forall i :: first <= i <= n ==> us[loudest].attn <= us[i].attn
    decreases n
  {
    loudest := n;
    if first < n {
      var before := LeastIsLeast(us, first, n - 1);
      if us[before].attn <= us[n].attn { loudest := before; }
    }
  }

  /**
   For samples in time order the notes are in order, none ends before it begins,
   none begins before the one before it ends, and the levels are 1 to 15.
   */
  lemma {:induction false} NotesInOrder(us: seq<Sample>, lastFrame: nat)
    requires |us| > 0 && InTime(us) && us[|us| - 1].frame <= lastFrame
    ensures var notes := AllNotes(us, lastFrame);
            && (forall i :: 0 <= i < |notes| ==> notes[i].fromFrame <= notes[i].toFrame && 1 <= notes[i].maxLevel <= 15)
            && (forall i, j :: 0 <= i < j < |notes| ==> notes[i].toFrame <= notes[j].fromFrame)
  {
    var t := Trace(us);
    var rs := Runs(t);
    RunsAreProper(us);
    RunsInOrder(t);
    forall i | 0 <= i < |rs|
      ensures 1 <= NoteOf(us, rs[i], EndOf(us, rs[i], lastFrame)).maxLevel <= 15
    {
      RunsExactly(t, rs[i]);
      var loudest := LeastIsLeast(us, rs[i].first, rs[i].last - 1);
      assert t[rs[i].first] == SoundOf(us[rs[i].first]);
    }
    forall i, j | 0 <= i < j < |rs|
      ensures NoteOf(us, rs[i], EndOf(us, rs[i], lastFrame)).toFrame <= us[rs[j].first].frame
    {
      assert rs[i].last <= rs[j].first;
    }
  }

  /** A note comes out for every maximal run of one pitch, and for nothing else. */
  lemma {:induction false} NotesAreRuns(us: seq<Sample>, lastFrame: nat, note: Note)
    requires |us| > 0
    ensures note in AllNotes(us, lastFrame)
            <==> exists r: Run :: IsRun(Trace(us), r) && note == NoteOf(us, r, EndOf(us, r, lastFrame))
  {
    var t := Trace(us);
    var rs := Runs(t);
    RunsAreProper(us);
    if note in AllNotes(us, lastFrame) {
      var i :| 0 <= i < |rs| && AllNotes(us, lastFrame)[i] == note;
      RunsExactly(t, rs[i]);
    }
    if r: Run :| IsRun(t, r) && note == NoteOf(us, r, EndOf(us, r, lastFrame)) {
      RunsExactly(t, r);
      var i :| 0 <= i < |rs| && rs[i] == r;
      assert AllNotes(us, lastFrame)[i] == note;
    }
  }

  // ----- the tracker -----

  class NoteTrack {
    var divider: nat
    var attn: nat
    var noise: bool
    var playing: bool
    var fromFrame: nat
    var minAttn: nat

    /** The fields after the samples `us`: the last one, and the start and level of the run it is in. */
    ghost predicate Tracks(us: seq<Sample>)
      reads this
    {
      && |us| > 0
      && var n := |us| - 1;
         var t := Trace(us);
         && divider == us[n].divider && attn == us[n].attn && noise == us[n].noise && playing == IsPlaying(us[n])
         && (playing ==> fromFrame == us[Start(t, n)].frame && minAttn == LeastAttn(us, Start(t, n), n))
    }

    /** audio_note_track_init() */
    constructor (divider: nat, attn: nat, noise: bool, frame: nat)
      ensures Tracks([Sample(divider, attn, noise, frame)])
    {
      this.divider, this.attn, this.noise := divider, attn, noise;
      playing := attn < ATTN_OFF && (noise || divider >= 2);
      fromFrame, minAttn := frame, attn;
    }

    /** note_done() */
    method NoteDone(end: nat, ghost us: seq<Sample>) returns (note: Note)
      requires Tracks(us) && playing
      ensures note == NoteOf(us, Run(Start(Trace(us), |us| - 1), |us|), end)
    {
      note := Note(if noise then 0 else divider, noise, ATTN_OFF - minAttn, fromFrame,
                   if end < fromFrame then fromFrame else end);
      StartIsFirst(Trace(us), |us| - 1);
      assert SoundOf(us[Start(Trace(us), |us| - 1)]) == SoundOf(us[|us| - 1]);
    }

    /** audio_note_track_update(): a note comes out when, and only when, the run of the last sample is over. */
    method Update(divider: nat, attn: nat, noise: bool, frame: nat, ghost us: seq<Sample>) returns (done: Done)
      requires Tracks(us)
      modifies this
      ensures Tracks(us + [Sample(divider, attn, noise, frame)])
      ensures done == Ended(us + [Sample(divider, attn, noise, frame)])
    {
      assert (us + [Sample(divider, attn, noise, frame)])[..|us|] == us;
      var nowPlaying := attn < ATTN_OFF && (noise || divider >= 2);
      var pitchChanged := noise != this.noise || (!noise && divider != this.divider);
      done := NoNote;
      HistoryGrows(us, Sample(divider, attn, noise, frame));
      if playing && (!nowPlaying || pitchChanged) {
        var note := NoteDone(frame, us);
        done := Done(note);
      }
      if nowPlaying && (!playing || pitchChanged) {
        fromFrame := frame;
        minAttn := attn;
      } else if nowPlaying && attn < minAttn {
        minAttn := attn;
      }
      this.divider, this.attn, this.noise, playing := divider, attn, noise, nowPlaying;
    }

    /** audio_note_track_finish() */
    method Finish(lastFrame: nat, ghost us: seq<Sample>) returns (done: Done)
      requires Tracks(us)
      modifies this`playing
      ensures done == StillPlaying(us, lastFrame)
      ensures !playing
    {
      done := NoNote;
      if playing {
        var note := NoteDone(lastFrame, us);
        playing := false;
        done := Done(note);
      }
    }
  }
}
