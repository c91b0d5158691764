/**
 The notes of a capture straight from its records: what the tracker of a channel
 has seen, which stretches of it sound, and the note of each
 (src/emulator/mcp/dispatch.c, lines 17188-17232, and
 src/emulator/audio_analysis.c, lines 58-62 and 378-432).
 */
module CapturedSound {
  import opened Basics
  import opened NoteRuns
  import opened NoteTracker
  import opened CapturedNotes

  // ----- stretches -----

  predicate Sounds(s: Sample) {
    s.attn < 15 && (s.noise || s.divider >= 2)
  }

  /** Noise, or tones of one divider. */
  predicate Alike(a: Sample, b: Sample) {
    a.noise == b.noise && (a.noise || a.divider == b.divider)
  }

  /** Sample `n` sounds as sample `first` does. */
  predicate GoesOn(us: seq<Sample>, first: nat, n: nat)
    requires first < |us| && n < |us|
  {
    Sounds(us[n]) && Alike(us[first], us[n])
  }

  /** From sample `first` up to before `last` one sound is heard, and neither before nor after. */
  ghost predicate IsStretch(us: seq<Sample>, first: nat, last: nat) {
    && first < last <= |us|
    && (forall n :: first <= n < last ==> GoesOn(us, first, n))
    && (first > 0 ==> !GoesOn(us, first, first - 1))
    && (last < |us| ==> !GoesOn(us, first, last))
  }

  lemma SoundsAlike(a: Sample, b: Sample)
    ensures SoundOf(a).Playing? <==> Sounds(a)
    ensures Sounds(a) ==> (SoundOf(b) == SoundOf(a) <==> Sounds(b) && Alike(a, b))
  {
  }

  lemma RunIsStretch(us: seq<Sample>, r: Run)
    ensures IsRun(Trace(us), r) <==> IsStretch(us, r.first, r.last)
  {
    var t := Trace(us);
    if r.first < r.last <= |us| {
      forall n | 0 <= n < |us|
        ensures t[r.first].Playing? ==> (t[n] == t[r.first] <==> GoesOn(us, r.first, n))
        ensures t[n].Playing? <==> Sounds(us[n])
      {
        SoundsAlike(us[r.first], us[n]);
        SoundsAlike(us[n], us[n]);
      }
      assert IsStretch(us, r.first, r.last) ==> GoesOn(us, r.first, r.first);
    }
  }

  // ----- the note of a stretch -----

  /** As loud as the loudest of the samples: 15 less the least attenuation. */
  ghost predicate IsLevel(us: seq<Sample>, first: nat, last: nat, level: int) {
    && first < last <= |us|
    && (exists n :: first <= n < last && level + us[n].attn == 15)
    && (forall n :: first <= n < last ==> level + us[n].attn >= 15)
  }

  /** The frame of the sample that ends the stretch, or that of the end of the range. */
  function EndFrame(us: seq<Sample>, last: nat, end: nat): nat {
    if last < |us| then us[last].frame else end
  }

  /** From the first sample to the end, with the pitch of the first sample. */
  ghost predicate IsNoteOf(note: Note, us: seq<Sample>, first: nat, last: nat, end: nat) {
    && first < last <= |us|
    && note.noise == us[first].noise && note.divider == (if us[first].noise then 0 else us[first].divider)
    && IsLevel(us, first, last, note.maxLevel)
    && note.fromFrame == us[first].frame
    && note.toFrame == Max(us[first].frame, EndFrame(us, last, end))
  }

  lemma LevelIsUnique(us: seq<Sample>, first: nat, last: nat, a: int, b: int)
    requires IsLevel(us, first, last, a) && IsLevel(us, first, last, b)
    ensures a == b
  {
    var n :| first <= n < last && a + us[n].attn == 15;
    var m :| first <= m < last && b + us[m].attn == 15;
  }

  lemma LeastIsLevel(us: seq<Sample>, first: nat, last: nat)
    requires first < last <= |us|
    ensures IsLevel(us, first, last, 15 - LeastAttn(us, first, last - 1))
  {
    var loudest := LeastIsLeast(us, first, last - 1);
  }

  lemma NoteIsOf(note: Note, us: seq<Sample>, r: Run, end: nat)
    requires r.first < r.last <= |us|
    ensures note == NoteOf(us, r, EndOf(us, r, end)) <==> IsNoteOf(note, us, r.first, r.last, end)
  {
    LeastIsLevel(us, r.first, r.last);
    if IsLevel(us, r.first, r.last, note.maxLevel) {
      LevelIsUnique(us, r.first, r.last, note.maxLevel, 15 - LeastAttn(us, r.first, r.last - 1));
    }
  }

  ghost predicate IsNoteOfStretch(note: Note, us: seq<Sample>, end: nat) {
    exists first, last :: IsStretch(us, first, last) && IsNoteOf(note, us, first, last, end)
  }

  /** A note comes out for every stretch of one sound, and for nothing else. */
  lemma NotesAreStretches(us: seq<Sample>, end: nat, note: Note)
    requires us != []
    ensures note in AllNotes(us, end) <==> IsNoteOfStretch(note, us, end)
  {
    NotesAreRuns(us, end, note);
    if note in AllNotes(us, end) {
      var r: Run :| IsRun(Trace(us), r) && note == NoteOf(us, r, EndOf(us, r, end));
      RunIsStretch(us, r);
      NoteIsOf(note, us, r, end);
      assert IsStretch(us, r.first, r.last) && IsNoteOf(note, us, r.first, r.last, end);
    }
    if IsNoteOfStretch(note, us, end) {
      var first, last :| IsStretch(us, first, last) && IsNoteOf(note, us, first, last, end);
      var r := Run(first, last);
      RunIsStretch(us, r);
      NoteIsOf(note, us, r, end);
    }
  }

  lemma {:induction false} LateExactly(notes: seq<Note>, first: nat, note: Note)
    ensures note in Late(notes, first) <==> note in notes && note.toFrame >= first
  {
    if notes != [] {
      LateExactly(notes[..|notes| - 1], first, note);
      assert notes == notes[..|notes| - 1] + [notes[|notes| - 1]];
    }
  }

  lemma {:induction false} FromExactly(out: seq<Heard>, x: nat, note: Note)
    ensures note in From(out, x) <==> Heard(note, x + 1) in out
  {
    if out != [] {
      FromExactly(out[..|out| - 1], x, note);
      assert out == out[..|out| - 1] + [out[|out| - 1]];
    }
  }

  // ----- what a tracker has seen -----

  /** The bit of the chip is set and the channel is the tracker's. */
  predicate Reaches(w: Rec, x: nat) {
    w.channel % 4 == x % 4 && (if x < 4 then w.chips % 2 == 1 else w.chips / 2 % 2 == 1)
  }

  /** The value of the last of the first `n` records that sets a register of the channel. */
  function LastSet(ws: seq<Rec>, n: nat, x: nat, reg: Register, initial: nat): nat
    requires n <= |ws|
  {
    if n == 0 then initial
    else if Reaches(ws[n - 1], x) && ws[n - 1].reg == reg then ws[n - 1].value
    else LastSet(ws, n - 1, x, reg, initial)
  }

  /** The records, among the first `n`, at which the tracker has a sample. */
  function Times(ws: seq<Rec>, n: nat, x: nat): seq<nat>
    requires n <= |ws|
  {
    if n == 0 then []
    else
      var w := ws[n - 1];
      Times(ws, n - 1, x) + if Reaches(w, x) && (w.reg == Tone || w.reg == Volume) then [n] else []
  }

  /** After record `n` the channel has the tone and the volume last set. */
  function SampleAfter(initial: Sample, ws: seq<Rec>, n: nat, x: nat): Sample
    requires 0 < n <= |ws|
  {
    Sample(LastSet(ws, n, x, Tone, initial.divider), LastSet(ws, n, x, Volume, initial.attn), initial.noise, ws[n - 1].frame)
  }

  /** The history of a tracker: a sample for each record that sets its tone or its volume. */
  ghost predicate IsHistory(us: seq<Sample>, initial: Sample, ws: seq<Rec>, n: nat, x: nat)
    requires n <= |ws|
  {
    var times := Times(ws, n, x);
    && |us| == 1 + |times| && us[0] == initial
    && forall k :: 0 <= k < |times| ==> 0 < times[k] <= n && us[k + 1] == SampleAfter(initial, ws, times[k], x)
  }

  lemma {:induction false} HistoryIs(initial: Sample, ws: seq<Rec>, n: nat, x: nat)
    requires n <= |ws| && x < 8
    ensures var us := History(initial, ws, n, x);
            && IsHistory(us, initial, ws, n, x)
            && us[|us| - 1].divider == LastSet(ws, n, x, Tone, initial.divider)
            && us[|us| - 1].attn == LastSet(ws, n, x, Volume, initial.attn)
            && us[|us| - 1].noise == initial.noise
  {
    if n > 0 {
      HistoryIs(initial, ws, n - 1, x);
      assert IsFor(ws[n - 1], x) <==> Reaches(ws[n - 1], x) && (ws[n - 1].reg == Tone || ws[n - 1].reg == Volume);
    }
  }

  // ----- the whole capture -----

  /** An unknown channel is silent; the fourth of a chip is its noise. */
  function StartOf(known: Option<seq<Sample>>, x: nat): Sample
    requires known.Some? ==> |known.value| == 8
    requires x < 8
  {
    if known.None? then Sample(0, 15, x == 3 || x == 7, 0)
    else Sample(known.value[x].divider, known.value[x].attn, known.value[x].noise, 0)
  }

  /** The first `n` records are those before the first one past frame `last`. */
  predicate AreUpTo(ws: seq<Rec>, n: nat, last: nat) {
    n <= |ws| && (forall i :: 0 <= i < n ==> ws[i].frame <= last) && (n < |ws| ==> ws[n].frame > last)
  }

  lemma {:induction false} TakenIs(ws: seq<Rec>, n: nat, last: nat)
    ensures AreUpTo(ws, n, last) <==> n == Taken(ws, last, 0)
  {
  }

  /** The note is that of a stretch of channel `x` in the records up to frame `last`, and does not end before `first`. */
  ghost predicate IsCaptured(note: Note, known: Option<seq<Sample>>, ws: seq<Rec>, first: nat, last: nat, x: nat)
    requires known.Some? ==> |known.value| == 8
    requires x < 8
  {
    exists us, n: nat ::
      && AreUpTo(ws, n, last) && IsHistory(us, StartOf(known, x), ws, n, x)
      && IsNoteOfStretch(note, us, last) && note.toFrame >= first
  }

  lemma {:induction false} HistoryIsUnique(us: seq<Sample>, vs: seq<Sample>, initial: Sample, ws: seq<Rec>, n: nat, x: nat)
    requires n <= |ws| && IsHistory(us, initial, ws, n, x) && IsHistory(vs, initial, ws, n, x)
    ensures us == vs
  {
    forall k | 0 <= k < |us| ensures us[k] == vs[k] {
      if k > 0 { assert Times(ws, n, x)[k - 1] > 0; }
    }
  }

  lemma {:induction false} ReportedIsCaptured(note: Note, known: Option<seq<Sample>>, ws: seq<Rec>, first: nat, last: nat, x: nat)
    requires known.Some? ==> |known.value| == 8
    requires x < 8
    ensures note in Reported(History(InitialOf(known, x), ws, Taken(ws, last, 0), x), first, last)
            <==> IsCaptured(note, known, ws, first, last, x)
  {
    var n := Taken(ws, last, 0);
    var us := History(InitialOf(known, x), ws, n, x);
    assert InitialOf(known, x) == StartOf(known, x);
    TakenIs(ws, n, last);
    HistoryIs(InitialOf(known, x), ws, n, x);
    NotesAreStretches(us, last, note);
    LateExactly(AllNotes(us, last), first, note);
    if IsCaptured(note, known, ws, first, last, x) {
      var vs, m: nat :|
        && AreUpTo(ws, m, last) && IsHistory(vs, StartOf(known, x), ws, m, x)
        && IsNoteOfStretch(note, vs, last) && note.toFrame >= first;
      TakenIs(ws, m, last);
      HistoryIsUnique(us, vs, StartOf(known, x), ws, n, x);
    }
  }

  /**
   The list of a capture, from its records alone: a note is in it, with the number of
   its source, if and only if it is that of a stretch of a channel of the chips.
   */
  method CapturedList(known: Option<seq<Sample>>, ws: seq<Rec>, first: nat, last: nat, stereo: bool)
      returns (notes: seq<Heard>)
    requires known.Some? ==> |known.value| == 8
    ensures forall x, note :: 0 <= x < 8 ==>
              (Heard(note, x + 1) in notes
               <==> x < (if stereo then 8 else 4) && IsCaptured(note, known, ws, first, last, x))
  {
    notes := PsgNotes(known, ws, first, last, stereo);
    forall x, note | 0 <= x < 8
      ensures Heard(note, x + 1) in notes
              <==> x < (if stereo then 8 else 4) && IsCaptured(note, known, ws, first, last, x)
    {
      FromExactly(notes, x, note);
      ReportedIsCaptured(note, known, ws, first, last, x);
    }
  }
}
