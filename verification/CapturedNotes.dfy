/**
 The notes of a capture (_ac_psg_notes in src/emulator/mcp/dispatch.c, lines
 17188-17232): eight note trackers fed with the recorded register writes, and
 the notes that reach into the requested range of frames.
 */
module CapturedNotes {
  import opened Basics
  import opened NoteRuns
  import opened NoteTracker

  datatype Register = ToneLow | Tone | Volume | Noise

  /** A recorded write; `chips` is the mask of the addressed chips. */
  datatype Rec = Rec(frame: nat, chips: nat, channel: nat, reg: Register, value: nat)

  /** A note and the channel of the audio log it is from, 1 to 8. */
  datatype Heard = Heard(note: Note, src: nat)

  // ----- the history of one tracker -----

  predicate Addresses(w: Rec, c: nat) {
    if c == 0 then w.chips % 2 == 1 else w.chips / 2 % 2 == 1
  }

  /** The write is for tracker `x`, which is channel x % 4 of chip x / 4. */
  predicate IsFor(w: Rec, x: nat) {
    Addresses(w, x / 4) && w.channel % 4 == x % 4 && (w.reg == Tone || w.reg == Volume)
  }

  /** The channel after the write. */
  function After(s: Sample, w: Rec): Sample {
    Sample(if w.reg == Tone then w.value else s.divider, if w.reg == Volume then w.value else s.attn, s.noise, w.frame)
  }

  /** One write more. */
  function Grown(us: seq<Sample>, w: Rec, x: nat): (r: seq<Sample>) {
    if us != [] && IsFor(w, x) then us + [After(us[|us| - 1], w)] else us
  }

  /** What tracker `x`, starting with `initial`, has seen of the first `n` writes. */
  function History(initial: Sample, ws: seq<Rec>, n: nat, x: nat): (us: seq<Sample>)
    requires n <= |ws|
    ensures us != []
  {
    if n == 0 then [initial]
    else Grown(History(initial, ws, n - 1, x), ws[n - 1], x)
  }

  /** How many writes are taken: those before the first one past the range. */
  function Taken(ws: seq<Rec>, last: nat, i: nat): (n: nat)
    requires i <= |ws|
    ensures i <= n <= |ws|
    ensures forall j :: i <= j < n ==> ws[j].frame <= last
    ensures n < |ws| ==> ws[n].frame > last
    decreases |ws| - i
  {
    if i == |ws| || ws[i].frame > last then i else Taken(ws, last, i + 1)
  }

  // ----- the notes of one history -----

  function Kept(note: Note, first: nat): seq<Note> {
    if note.toFrame >= first then [note] else []
  }

  /** Those that do not end before `first`. */
  function Late(notes: seq<Note>, first: nat): seq<Note> {
    if notes == [] then []
    else Late(notes[..|notes| - 1], first) + Kept(notes[|notes| - 1], first)
  }

  function KeptOf(done: Done, first: nat): seq<Note> {
    if done.Done? then Kept(done.note, first) else []
  }

  lemma {:induction false} LateAppends(notes: seq<Note>, done: Done, first: nat)
    ensures Late(notes + AsSeq(done), first) == Late(notes, first) + KeptOf(done, first)
  {
    if done.Done? {
      assert (notes + [done.note])[..|notes|] == notes;
    } else {
      assert notes + [] == notes;
    }
  }

  /** The notes of a tracker whose history is over at frame `last`. */
  function Reported(us: seq<Sample>, first: nat, last: nat): seq<Note>
    requires us != []
  {
    Late(AllNotes(us, last), first)
  }

  /** Those of them that came out while the history was `us`. */
  function SoFar(us: seq<Sample>, first: nat, last: nat): seq<Note>
    requires us != []
  {
    Late(NotesUpTo(us, |us|, last), first)
  }

  lemma EarlierNote(us: seq<Sample>, u: Sample, r: Run, last: nat)
    requires r.first < r.last < |us|
    ensures NoteOf(us + [u], r, EndOf(us + [u], r, last)) == NoteOf(us, r, EndOf(us, r, last))
  {
    assert (us + [u])[..|us|] == us;
    NoteInPrefix(us + [u], |us|, r, EndOf(us, r, last));
  }

  /** What came out earlier does not depend on what follows. */
  lemma {:induction false} EarlierNotes(us: seq<Sample>, u: Sample, last: nat)
    requires us != []
    ensures NotesUpTo(us + [u], |us|, last) == NotesUpTo(us, |us|, last)
  {
    var more, n := us + [u], |us| - 1;
    RunsAreProper(us);
    RunsAreProper(more);
    assert Trace(more)[..|us|] == Trace(us);
    ClosedOfPrefix(Trace(us), Trace(more), n);
    var rs := Closed(Trace(us), n);
    ClosedInOrder(Trace(us), n);
    forall i | 0 <= i < |rs|
      ensures NoteOf(more, rs[i], EndOf(more, rs[i], last)) == NoteOf(us, rs[i], EndOf(us, rs[i], last))
    {
      EarlierNote(us, u, rs[i], last);
    }
  }

  lemma {:induction false} SoFarGrows(us: seq<Sample>, u: Sample, first: nat, last: nat)
    requires us != []
    ensures SoFar(us + [u], first, last) == SoFar(us, first, last) + KeptOf(Ended(us + [u]), first)
  {
    var more := us + [u];
    OneMore(more, |us|, last);
    assert more[..|us| + 1] == more;
    EarlierNotes(us, u, last);
    LateAppends(NotesUpTo(us, |us|, last), Ended(more), first);
  }

  lemma {:induction false} LastOnesKept(us: seq<Sample>, first: nat, last: nat)
    requires us != []
    ensures Reported(us, first, last) == SoFar(us, first, last) + KeptOf(StillPlaying(us, last), first)
  {
    LastOne(us, last);
    LateAppends(NotesUpTo(us, |us|, last), StillPlaying(us, last), first);
  }

  // ----- the list of all channels -----

  /** The notes of tracker `x`, in the order of the list. */
  function From(out: seq<Heard>, x: nat): seq<Note> {
    if out == [] then []
    else
      var h := out[|out| - 1];
      From(out[..|out| - 1], x) + if h.src == x + 1 then [h.note] else []
  }

  lemma {:induction false} FromAppends(out: seq<Heard>, h: Heard, x: nat)
    ensures From(out + [h], x) == From(out, x) + if h.src == x + 1 then [h.note] else []
  {
    assert (out + [h])[..|out|] == out;
  }

  /** What a tracker puts out is appended if it reaches into the range. */
  function Extended(out: seq<Heard>, done: Done, first: nat, x: nat): seq<Heard> {
    if done.Done? && done.note.toFrame >= first then out + [Heard(done.note, x + 1)] else out
  }

  lemma {:induction false} ExtendedFrom(out: seq<Heard>, done: Done, first: nat, x: nat, y: nat)
    ensures From(Extended(out, done, first, x), y) == From(out, y) + if y == x then KeptOf(done, first) else []
  {
    if done.Done? && done.note.toFrame >= first { FromAppends(out, Heard(done.note, x + 1), y); }
  }

  // ----- the detector -----

  class Detector {
    const tracks: seq<NoteTrack>
    const first: nat
    const last: nat
    var notes: seq<Heard>
    ghost var seen: seq<seq<Sample>>   // what each tracker has seen

    ghost predicate Distinct() {
      |tracks| == 8 && forall i, j :: 0 <= i < j < 8 ==> tracks[i] != tracks[j]
    }

    /** Tracker `x` is in step with what it has seen, and its notes are those of that history. */
    ghost predicate Follows(x: nat)
      requires x < |tracks|
      reads this, tracks
    {
      && x < |seen| && seen[x] != [] && tracks[x].Tracks(seen[x])
      && From(notes, x) == SoFar(seen[x], first, last)
    }

    ghost predicate Valid()
      reads this, tracks
    {
      Distinct() && |seen| == 8 && forall x :: 0 <= x < 8 ==> Follows(x)
    }

    /** The trackers start with the state of the channels at the start of the capture. */
    constructor (initial: seq<Sample>, first: nat, last: nat)
      requires |initial| == 8
      ensures Valid() && fresh(tracks) && this.first == first && this.last == last
      ensures forall x :: 0 <= x < 8 ==> seen[x] == [initial[x]]
    {
      var ts: seq<NoteTrack> := [];
      while |ts| < 8
        invariant |ts| <= 8 && fresh(ts)
        invariant forall i, j :: 0 <= i < j < |ts| ==> ts[i] != ts[j]
        invariant forall x :: 0 <= x < |ts| ==> ts[x].Tracks([initial[x]])
      {
        var s := initial[|ts|];
        var t := new NoteTrack(s.divider, s.attn, s.noise, s.frame);
        assert [initial[|ts|]] == [Sample(s.divider, s.attn, s.noise, s.frame)];
        ts := ts + [t];
      }
      tracks, this.first, this.last, notes := ts, first, last, [];
      seen := seq(8, x requires 0 <= x < 8 => [initial[x]]);
      new;
      forall x | 0 <= x < 8 ensures Follows(x) {
        assert SoFar([initial[x]], first, last) == [];
      }
    }

    /** One write for tracker `x`: its note, if one ends and reaches into the range. */
    method Feed(x: nat, w: Rec)
      requires Valid() && x < 8 && IsFor(w, x)
      modifies this`notes, this`seen, tracks[x]
      ensures Valid() && seen == old(seen)[x := Grown(old(seen)[x], w, x)]
    {
      var t := tracks[x];
      assert Follows(x);
      ghost var us := seen[x];
      var divider, attn := t.divider, t.attn;
      if w.reg == Tone {
        divider := w.value;
      } else {
        attn := w.value;
      }
      ghost var u := After(us[|us| - 1], w);
      assert u == Sample(divider, attn, t.noise, w.frame);
      var done := t.Update(divider, attn, t.noise, w.frame, us);
      seen := seen[x := us + [u]];
      SoFarGrows(us, u, first, last);
      if done.Done? && done.note.toFrame >= first {
        notes := notes + [Heard(done.note, x + 1)];
      }
      forall y | 0 <= y < 8 ensures Follows(y) {
        assert old(Follows(y));
        ExtendedFrom(old(notes), done, first, x, y);
      }
    }

    /** One record: on every addressed chip, the tracker of its channel. */
    method Take(w: Rec, chips: nat)
      requires Valid() && chips <= 2
      modifies this`notes, this`seen, tracks
      ensures Valid()
      ensures forall x :: 0 <= x < 8 ==> seen[x] == if x < 4 * chips then Grown(old(seen)[x], w, x) else old(seen)[x]
    {
      for c := 0 to chips
        invariant Valid()
        invariant forall x :: 0 <= x < 8 ==> seen[x] == if x < 4 * c then Grown(old(seen)[x], w, x) else old(seen)[x]
      {
        if Addresses(w, c) && (w.reg == Tone || w.reg == Volume) {
          Feed(4 * c + w.channel % 4, w);
        }
      }
    }

    /** Tracker `x` is finished: the notes are those of its whole history. */
    ghost predicate Finished(x: nat)
      reads this
    {
      x < |seen| && seen[x] != [] && From(notes, x) == Reported(seen[x], first, last)
    }

    /** The note of tracker `x` that still plays when the range ends. */
    method FinishOne(x: nat)
      requires Distinct() && x < 8 && Follows(x)
      modifies this`notes, tracks[x]
      ensures Finished(x)
      ensures forall y :: 0 <= y < 8 && y != x && old(Follows(y)) ==> Follows(y)
      ensures forall y :: 0 <= y < 8 && y != x && old(Finished(y)) ==> Finished(y)
    {
      var done := tracks[x].Finish(last, seen[x]);
      if done.Done? && done.note.toFrame >= first {
        notes := notes + [Heard(done.note, x + 1)];
      }
      LastOnesKept(seen[x], first, last);
      forall y | 0 <= y < 8 ensures From(notes, y) == old(From(notes, y)) + if y == x then KeptOf(done, first) else [] {
        ExtendedFrom(old(notes), done, first, x, y);
      }
    }

    /** The last loops: every tracker of the `n` first ones is finished. */
    method FinishAll(n: nat)
      requires Valid() && n <= 8
      modifies this`notes, tracks
      ensures forall x :: 0 <= x < n ==> Finished(x)
      ensures forall x :: n <= x < 8 ==> Follows(x)
    {
      for x := 0 to n
        invariant forall y :: 0 <= y < x ==> Finished(y)
        invariant forall y :: x <= y < 8 ==> Follows(y)
      {
        FinishOne(x);
      }
    }
  }

  // ----- the whole capture -----

  /** The state of channel `x` at the start of the capture; silent if it is not known. */
  function InitialOf(known: Option<seq<Sample>>, x: nat): Sample
    requires known.Some? ==> |known.value| == 8
    requires x < 8
  {
    if known.Some? then known.value[x].(frame := 0) else Sample(0, ATTN_OFF, x % 4 == 3, 0)
  }

  /**
   _ac_psg_notes() up to its final sort. For every channel of the chips the list has
   exactly the notes of the runs of its history up to the end of the range that do
   not end before the range, in order, and none of a chip that is not there.
   */
  method PsgNotes(known: Option<seq<Sample>>, ws: seq<Rec>, first: nat, last: nat, stereo: bool) returns (notes: seq<Heard>)
    requires known.Some? ==> |known.value| == 8
    ensures forall x :: 0 <= x < 8 ==>
              From(notes, x) == if x < 4 || stereo
                                then Reported(History(InitialOf(known, x), ws, Taken(ws, last, 0), x), first, last)
                                else []
  {
    var chips := if stereo then 2 else 1;
    var initial := seq(8, x requires 0 <= x < 8 => InitialOf(known, x));
    var d := new Detector(initial, first, last);
    var i := 0;
    while i < |ws|
      invariant fresh(d) && fresh(d.tracks) && d.Valid() && d.first == first && d.last == last
      invariant i <= |ws| && Taken(ws, last, 0) == Taken(ws, last, i)
      invariant forall x :: 0 <= x < 8 ==> d.seen[x] == if x < 4 * chips then History(initial[x], ws, i, x) else [initial[x]]
    {
      if ws[i].frame > last {
        break;
      }
      d.Take(ws[i], chips);
      i := i + 1;
    }
    forall x | 4 * chips <= x < 8 ensures SoFar(d.seen[x], first, last) == [] {
      assert SoFar([initial[x]], first, last) == [];
    }
    d.FinishAll(4 * chips);
    notes := d.notes;
    forall x | 0 <= x < 8
      ensures From(notes, x) == if x < 4 * chips then Reported(d.seen[x], first, last) else SoFar(d.seen[x], first, last)
    {
      if x < 4 * chips { assert d.Finished(x); } else { assert d.Follows(x); }
    }
  }
}
