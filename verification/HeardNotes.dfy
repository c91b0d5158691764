/**
 The extracted notes straight from the log: what is heard of a channel is told by
 the bytes addressed to its chip, and a note is a stretch in which one pitch is
 heard (docs/tools/example_psg_write_log_to_midi.py, lines 187-210 and 286-389).
 */
module HeardNotes {
  import Psg
  import opened Basics
  import opened NoteRuns
  import opened WriteDecoder
  import opened RegisterBytes
  import opened NoteExtraction
  import opened NoteResults

  /** The bytes among the first `n` writes whose mask has the bit of the chip. */
  function BytesFor(es: seq<Write>, n: nat, chip: nat): seq<Psg.byte>
    requires n <= |es|
  {
    if n == 0 then []
    else
      var bit := if chip == 0 then es[n - 1].mask % 2 else es[n - 1].mask / 2 % 2;
      BytesFor(es, n - 1, chip) + if bit == 1 then [es[n - 1].value] else []
  }

  /** The pitch heard after the first `n` writes: the noise needs no divider, a tone one of at least 2. */
  function Heard(es: seq<Write>, tuning: Tuning, key: Key, n: nat): Option<int>
    requires n <= |es|
  {
    var bs := BytesFor(es, n, key.chip);
    if LastAttn(bs, key.channel) >= 15 then None
    else if key.channel == 3 then Some(60)
    else if LastDivider(bs, key.channel) >= 2 then Some(tuning.pitch(LastDivider(bs, key.channel)))
    else None
  }

  lemma {:induction false} RegistersAreOfBytes(es: seq<Write>, n: nat, chip: nat)
    requires n <= |es|
    ensures RegistersAfter(es, n, chip) == WrittenAll(RESET, BytesFor(es, n, chip))
  {
    if n > 0 {
      RegistersAreOfBytes(es, n - 1, chip);
      var bs := BytesFor(es, n - 1, chip);
      assert (bs + [es[n - 1].value])[..|bs|] == bs;
      assert bs + [] == bs;
    }
  }

  function AsSound(heard: Option<int>): Sound {
    match heard case None => Silent case Some(pitch) => Playing(pitch)
  }

  /** When a channel plays, and at which pitch, is what the bytes say. */
  lemma {:induction false} TraceIsHeard(es: seq<Write>, tuning: Tuning, key: Key, n: nat)
    requires n <= |es| && key.channel < 4
    ensures Trace(es, tuning, key)[n] == AsSound(Heard(es, tuning, key, n))
    ensures RegistersAfter(es, n, key.chip).channels[key.channel].attn == LastAttn(BytesFor(es, n, key.chip), key.channel)
  {
    RegistersAreOfBytes(es, n, key.chip);
    RegistersFromBytes(BytesFor(es, n, key.chip));
  }

  // ----- the notes -----

  /** From write `i` on, and up to before write `j`, one pitch is heard, and neither before nor after. */
  ghost predicate IsStretch(es: seq<Write>, tuning: Tuning, key: Key, i: nat, j: nat, pitch: int) {
    && 1 <= i < j <= |es| + 1
    && (forall n {:trigger Heard(es, tuning, key, n)} :: i <= n < j ==> Heard(es, tuning, key, n) == Some(pitch))
    && Heard(es, tuning, key, i - 1) != Some(pitch)
    && (j <= |es| ==> Heard(es, tuning, key, j) != Some(pitch))
  }

  /** The tick at which a stretch that is over before write `j` ends. */
  function EndTick(es: seq<Write>, j: nat): int
    requires 1 <= j && es != []
  {
    if j <= |es| then es[j - 1].ticks else es[|es| - 1].ticks
  }

  /**
   The note of a stretch: from the tick of the write that begins it to that of the
   write that ends it, or of the last write, as loud as at its beginning.
   */
  function HeardNote(es: seq<Write>, tuning: Tuning, key: Key, i: nat, j: nat, pitch: int): Note
    requires 1 <= i < j <= |es| + 1
  {
    Note(key, key.channel == 3, es[i - 1].ticks, EndTick(es, j), pitch,
         tuning.velocity(LastAttn(BytesFor(es, i, key.chip), key.channel)))
  }

  /** The stretch has a length, and the note is its own. */
  predicate IsNoteOf(es: seq<Write>, tuning: Tuning, key: Key, i: nat, j: nat, pitch: int, note: Note)
    requires 1 <= i < j <= |es| + 1
  {
    es[i - 1].ticks < EndTick(es, j) && note == HeardNote(es, tuning, key, i, j, pitch)
  }

  /** The trace is what is heard. */
  ghost predicate IsHeard(es: seq<Write>, tuning: Tuning, key: Key, t: seq<Sound>) {
    |t| == |es| + 1 && forall n :: 0 <= n < |t| ==> t[n] == AsSound(Heard(es, tuning, key, n))
  }

  lemma {:induction false} WholeTraceIsHeard(es: seq<Write>, tuning: Tuning, key: Key)
    requires key.channel < 4
    ensures IsHeard(es, tuning, key, Trace(es, tuning, key))
  {
    forall n | 0 <= n <= |es| ensures Trace(es, tuning, key)[n] == AsSound(Heard(es, tuning, key, n)) {
      TraceIsHeard(es, tuning, key, n);
    }
  }

  lemma {:induction false} StretchIsRun(es: seq<Write>, tuning: Tuning, key: Key, t: seq<Sound>, i: nat, j: nat, pitch: int)
    requires IsHeard(es, tuning, key, t) && IsStretch(es, tuning, key, i, j, pitch)
    ensures IsRun(t, Run(i, j)) && t[i] == Playing(pitch)
  {
  }

  lemma {:induction false} RunIsStretch(es: seq<Write>, tuning: Tuning, key: Key, t: seq<Sound>, r: Run)
    requires IsHeard(es, tuning, key, t) && t[0].Silent? && IsRun(t, r)
    ensures IsStretch(es, tuning, key, r.first, r.last, t[r.first].pitch)
  {
  }

  lemma {:induction false} NoteFromHeard(es: seq<Write>, tuning: Tuning, key: Key, i: nat, pitch: int)
    requires key.channel < 4 && 1 <= i <= |es| && Trace(es, tuning, key)[i] == Playing(pitch)
    ensures NoteFrom(es, tuning, key, i) ==
              Note(key, key.channel == 3, es[i - 1].ticks, 0, pitch, tuning.velocity(LastAttn(BytesFor(es, i, key.chip), key.channel)))
  {
    TraceIsHeard(es, tuning, key, i);
  }

  lemma {:induction false} NoteOfHeard(es: seq<Write>, tuning: Tuning, key: Key, i: nat, j: nat, pitch: int)
    requires key.channel < 4 && 1 <= i < j <= |es| + 1 && Trace(es, tuning, key)[i] == Playing(pitch)
    ensures NoteOf(es, tuning, key, Run(i, j)) == HeardNote(es, tuning, key, i, j, pitch)
    ensures HasLength(es, Run(i, j)) <==> es[i - 1].ticks < EndTick(es, j)
  {
    NoteFromHeard(es, tuning, key, i, pitch);
  }

  /** The note is that of a stretch of the channel. */
  ghost predicate IsHeardNote(es: seq<Write>, tuning: Tuning, key: Key, note: Note) {
    exists i, j, pitch :: IsStretch(es, tuning, key, i, j, pitch) && IsNoteOf(es, tuning, key, i, j, pitch, note)
  }

  lemma {:induction false} RunIsHeard(es: seq<Write>, tuning: Tuning, key: Key, r: Run, note: Note)
    requires key.channel < 4 && IsRun(Trace(es, tuning, key), r)
    requires r.first <= |es| && HasLength(es, r) && note == NoteOf(es, tuning, key, r)
    ensures IsHeardNote(es, tuning, key, note)
  {
    var t := Trace(es, tuning, key);
    WholeTraceIsHeard(es, tuning, key);
    SilentAtFirst(es, tuning, key);
    RunIsStretch(es, tuning, key, t, r);
    NoteOfHeard(es, tuning, key, r.first, r.last, t[r.first].pitch);
    assert IsNoteOf(es, tuning, key, r.first, r.last, t[r.first].pitch, note);
  }

  lemma {:induction false} HeardIsRun(es: seq<Write>, tuning: Tuning, key: Key, note: Note) returns (r: Run)
    requires key.channel < 4 && IsHeardNote(es, tuning, key, note)
    ensures IsRun(Trace(es, tuning, key), r)
    ensures r.first <= |es| && HasLength(es, r) && note == NoteOf(es, tuning, key, r)
  {
    var i, j, pitch :| IsStretch(es, tuning, key, i, j, pitch) && IsNoteOf(es, tuning, key, i, j, pitch, note);
    WholeTraceIsHeard(es, tuning, key);
    StretchIsRun(es, tuning, key, Trace(es, tuning, key), i, j, pitch);
    NoteOfHeard(es, tuning, key, i, j, pitch);
    r := Run(i, j);
  }

  /** A channel has a note for every stretch with a length, and no other. */
  lemma {:induction false} ChannelNotesAreHeard(es: seq<Write>, tuning: Tuning, key: Key, note: Note)
    requires key.channel < 4
    ensures note in ChannelNotes(es, tuning, key) <==> IsHeardNote(es, tuning, key, note)
  {
    ChannelNotesAreRuns(es, tuning, key, note);
    if note in ChannelNotes(es, tuning, key) {
      var r: Run :| IsRun(Trace(es, tuning, key), r) && r.first <= |es| && HasLength(es, r)
                    && note == NoteOf(es, tuning, key, r);
      RunIsHeard(es, tuning, key, r, note);
    }
    if IsHeardNote(es, tuning, key, note) {
      var r := HeardIsRun(es, tuning, key, note);
    }
  }

  lemma {:induction false} InOf(notes: seq<Note>, key: Key, note: Note)
    ensures note in Of(notes, key) <==> note in notes && note.key == key
  {
    if notes != [] {
      var front, last := notes[..|notes| - 1], notes[|notes| - 1];
      InOf(front, key, note);
      assert notes == front + [last];
    }
  }

  /**
   What extract_notes() returns, from the log alone: a note is in the list if and
   only if it is that of a stretch of a channel of the chips; and the list is
   sorted by start, then chip, then channel.
   */
  method ExtractHeardNotes(stereo: bool, es: seq<Write>, tuning: Tuning) returns (notes: seq<Note>)
    requires Chronological(es)
    ensures forall note :: note in notes <==>
              && note.key.chip < (if stereo then 2 else 1) && note.key.channel < 4
              && IsHeardNote(es, tuning, note.key, note)
    ensures forall a, b :: 0 <= a < b < |notes| ==>
              || notes[a].on < notes[b].on
              || (notes[a].on == notes[b].on
                  && 4 * notes[a].key.chip + notes[a].key.channel <= 4 * notes[b].key.chip + notes[b].key.channel)
  {
    notes := ExtractNotes(stereo, es, tuning);
    forall note
      ensures note in notes <==>
                && note.key.chip < (if stereo then 2 else 1) && note.key.channel < 4
                && IsHeardNote(es, tuning, note.key, note)
    {
      InOf(notes, note.key, note);
      if note.key.channel < 4 { ChannelNotesAreHeard(es, tuning, note.key, note); }
    }
    assert KeysBelow(notes, Chips(stereo)) && InNoteOrder(notes);
  }
}
