/**
 extract_notes as a whole: closing what still plays, sorting, and what the list
 of notes is in the end (docs/tools/example_psg_write_log_to_midi.py, lines 307-389).
 */
module NoteResults {
  import opened NoteRuns
  import opened WriteDecoder
  import opened NoteExtraction

  ghost predicate Chronological(es: seq<Write>) {
    forall i, j :: 0 <= i < j < |es| ==> es[i].ticks <= es[j].ticks
  }

  /** The notes of one channel: its maximal runs of one pitch, without those of no length. */
  function ChannelNotes(es: seq<Write>, tuning: Tuning, key: Key): seq<Note>
    requires key.channel < 4
  {
    NotesOf(es, tuning, key, Runs(Trace(es, tuning, key)))
  }

  // ----- the end of the log -----

  ghost predicate Finished(active: map<Key, Note>, notes: seq<Note>, es: seq<Write>, tuning: Tuning, key: Key)
    requires key.channel < 4
  {
    key !in active && Of(notes, key) == ChannelNotes(es, tuning, key)
  }

  /** What EmitClose() does, on values. */
  ghost predicate Closes(active: map<Key, Note>, notes: seq<Note>, active': map<Key, Note>, notes': seq<Note>,
                         key: Key, off: int) {
    && active' == active - {key}
    && notes' == notes + if key in active && active[key].on < off then [active[key].(off := off)] else []
  }

  lemma {:induction false} NotesOfAllRuns(es: seq<Write>, tuning: Tuning, key: Key, t: seq<Sound>)
    requires key.channel < 4 && |t| == |es| + 1
    ensures NotesOf(es, tuning, key, Runs(t)) ==
      var open := OpenNote(es, tuning, key, t, |es|);
      if open.Some? && open.value.on < TickOf(es, |t|)
      then NotesUpTo(es, tuning, key, t, |es|) + [open.value.(off := TickOf(es, |t|))]
      else NotesUpTo(es, tuning, key, t, |es|)
  {
    var n := |es|;
    if t[n].Playing? {
      NotesOfSnoc(es, tuning, key, Closed(t, n), Run(Start(t, n), |t|));
      assert NotesUpTo(es, tuning, key, t, n) + [] == NotesUpTo(es, tuning, key, t, n);
    } else {
      assert Closed(t, n) + [] == Closed(t, n);
    }
  }

  lemma ClosesFinishes(active: map<Key, Note>, notes: seq<Note>, active': map<Key, Note>, notes': seq<Note>,
                       es: seq<Write>, tuning: Tuning, key: Key)
    requires key.channel < 4 && Tracked(active, notes, es, tuning, key, |es|)
    requires key in active ==> active[key].key == key
    requires Closes(active, notes, active', notes', key, TickOf(es, |es| + 1))
    ensures Finished(active', notes', es, tuning, key)
  {
    NotesOfAllRuns(es, tuning, key, Trace(es, tuning, key));
    if key in active { OfSnoc(notes, active[key].(off := TickOf(es, |es| + 1)), key); }
    assert notes + [] == notes;
  }

  lemma {:induction false} ClosesLeavesOthers(active: map<Key, Note>, notes: seq<Note>, active': map<Key, Note>,
                                              notes': seq<Note>,
                                              key: Key, off: int, other: Key)
    requires Closes(active, notes, active', notes', key, off) && other != key
    requires key in active ==> active[key].key == key
    ensures Of(notes', other) == Of(notes, other) && Lookup(active', other) == Lookup(active, other)
    ensures other in active' <==> other in active
  {
    if key in active { OfSnoc(notes, active[key].(off := off), other); }
    assert notes + [] == notes;
    assert Of(notes, other) + [] == Of(notes, other);
  }

  /** Is the channel before channel `k` of chip `c`? */
  predicate Passed(key: Key, c: nat, k: nat) {
    key.chip < c || (key.chip == c && key.channel < k)
  }

  ghost predicate ClosedTo(active: map<Key, Note>, notes: seq<Note>, es: seq<Write>, tuning: Tuning, chips: nat,
                           c: nat, k: nat) {
    forall key: Key {:trigger Passed(key, c, k)} :: key.chip < chips && key.channel < 4 ==>
      if Passed(key, c, k) then Finished(active, notes, es, tuning, key)
      else Tracked(active, notes, es, tuning, key, |es|)
  }

  lemma OneMoreClosed(active: map<Key, Note>, notes: seq<Note>, active': map<Key, Note>, notes': seq<Note>,
                      es: seq<Write>, tuning: Tuning, chips: nat, key: Key)
    requires key.chip < chips && key.channel < 4 && (key in active ==> active[key].key == key)
    requires ClosedTo(active, notes, es, tuning, chips, key.chip, key.channel)
    requires Closes(active, notes, active', notes', key, TickOf(es, |es| + 1))
    ensures ClosedTo(active', notes', es, tuning, chips, key.chip, key.channel + 1)
  {
    assert !Passed(key, key.chip, key.channel);
    ClosesFinishes(active, notes, active', notes', es, tuning, key);
    forall other: Key | other.chip < chips && other.channel < 4
      ensures if Passed(other, key.chip, key.channel + 1) then Finished(active', notes', es, tuning, other)
              else Tracked(active', notes', es, tuning, other, |es|)
    {
      if other != key {
        assert Passed(other, key.chip, key.channel + 1) <==> Passed(other, key.chip, key.channel);
        ClosesLeavesOthers(active, notes, active', notes', key, TickOf(es, |es| + 1), other);
      }
    }
  }

  lemma ClosedToCarry(active: map<Key, Note>, notes: seq<Note>, es: seq<Write>, tuning: Tuning, chips: nat, c: nat)
    requires ClosedTo(active, notes, es, tuning, chips, c, 4)
    ensures ClosedTo(active, notes, es, tuning, chips, c + 1, 0)
  {
    forall key: Key | key.chip < chips && key.channel < 4
      ensures if Passed(key, c + 1, 0) then Finished(active, notes, es, tuning, key)
              else Tracked(active, notes, es, tuning, key, |es|)
    {
      assert Passed(key, c + 1, 0) <==> Passed(key, c, 4);
    }
  }

  /** The loop over what is still active. */
  method CloseAll(x: Extractor, off: int, ghost es: seq<Write>)
    requires x.Proper() && off == TickOf(es, |es| + 1)
    requires AllTracked(x.active, x.notes, es, x.tuning, |x.chips|, |es|, 0, 0)
    modifies x`active, x`notes
    ensures x.Proper()
    ensures forall key: Key :: x.InRange(key) ==> Finished(x.active, x.notes, es, x.tuning, key)
  {
    forall key: Key | key.chip < |x.chips| && key.channel < 4
      ensures Tracked(x.active, x.notes, es, x.tuning, key, |es|) && !Passed(key, 0, 0)
    {
      assert Seen(|es|, key, 0, 0) == |es|;
    }
    for c := 0 to |x.chips|
      invariant x.Proper() && ClosedTo(x.active, x.notes, es, x.tuning, |x.chips|, c, 0)
    {
      for k := 0 to 4
        invariant x.Proper() && ClosedTo(x.active, x.notes, es, x.tuning, |x.chips|, c, k)
      {
        ghost var active, notes := x.active, x.notes;
        x.EmitClose(Key(c, k), off);
        OneMoreClosed(active, notes, x.active, x.notes, es, x.tuning, |x.chips|, Key(c, k));
      }
      ClosedToCarry(x.active, x.notes, es, x.tuning, |x.chips|, c);
    }
    forall key: Key | x.InRange(key) ensures Finished(x.active, x.notes, es, x.tuning, key) {
      assert Passed(key, |x.chips|, 0);
    }
  }

  // ----- the notes of a channel -----

  lemma TicksRise(es: seq<Write>, m: nat, n: nat)
    requires Chronological(es) && 0 < m <= n <= |es| + 1
    ensures TickOf(es, m) <= TickOf(es, n)
  {
  }

  /** Positive length, and each over before the next begins. */
  ghost predicate Disjoint(s: seq<Note>) {
    && (forall i :: 0 <= i < |s| ==> s[i].on < s[i].off)
    && (forall i, j :: 0 <= i < j < |s| ==> s[i].off <= s[j].on)
  }

  lemma {:induction false} NotesOfDisjoint(es: seq<Write>, tuning: Tuning, key: Key, rs: seq<Run>)
    requires Chronological(es) && key.channel < 4 && InOrder(rs)
    requires forall i :: 0 <= i < |rs| ==> 0 < rs[i].first <= |es| && rs[i].last <= |es| + 1
    ensures Disjoint(NotesOf(es, tuning, key, rs))
    ensures rs != [] ==> forall i :: 0 <= i < |NotesOf(es, tuning, key, rs)| ==>
              NotesOf(es, tuning, key, rs)[i].off <= TickOf(es, rs[|rs| - 1].last)
  {
    if rs != [] {
      var front, r := rs[..|rs| - 1], rs[|rs| - 1];
      NotesOfDisjoint(es, tuning, key, front);
      TicksRise(es, r.first, r.last);
      if front != [] {
        TicksRise(es, front[|front| - 1].last, r.first);
      }
    }
  }

  lemma SilentAtFirst(es: seq<Write>, tuning: Tuning, key: Key)
    requires key.channel < 4
    ensures Trace(es, tuning, key)[0].Silent?
  {
    assert RegistersAfter(es, 0, key.chip) == RESET;
  }

  lemma RunsStartLater(t: seq<Sound>, i: nat)
    requires |t| > 0 && t[0].Silent? && i < |Runs(t)|
    ensures 0 < Runs(t)[i].first < |t| && Runs(t)[i].last <= |t|
  {
    RunsExactly(t, Runs(t)[i]);
  }

  /** The notes of a channel never overlap and all have a length. */
  lemma ChannelNotesAreDisjoint(es: seq<Write>, tuning: Tuning, key: Key)
    requires Chronological(es) && key.channel < 4
    ensures Disjoint(ChannelNotes(es, tuning, key))
  {
    var t := Trace(es, tuning, key);
    SilentAtFirst(es, tuning, key);
    RunsInOrder(t);
    forall i | 0 <= i < |Runs(t)| ensures 0 < Runs(t)[i].first <= |es| && Runs(t)[i].last <= |es| + 1 {
      RunsStartLater(t, i);
    }
    NotesOfDisjoint(es, tuning, key, Runs(t));
  }

  lemma {:induction false} InNotesOf(es: seq<Write>, tuning: Tuning, key: Key, rs: seq<Run>, n: Note)
    requires key.channel < 4 && forall i :: 0 <= i < |rs| ==> rs[i].first <= |es|
    ensures n in NotesOf(es, tuning, key, rs)
            <==> exists i :: 0 <= i < |rs| && HasLength(es, rs[i]) && n == NoteOf(es, tuning, key, rs[i])
  {
    if rs != [] {
      InNotesOf(es, tuning, key, rs[..|rs| - 1], n);
    }
  }

  /** A note is there if and only if it is a maximal run of one pitch that lasts some time. */
  lemma ChannelNotesAreRuns(es: seq<Write>, tuning: Tuning, key: Key, n: Note)
    requires key.channel < 4
    ensures n in ChannelNotes(es, tuning, key)
            <==> exists r: Run :: IsRun(Trace(es, tuning, key), r) && r.first <= |es| && HasLength(es, r)
                                  && n == NoteOf(es, tuning, key, r)
  {
    var t := Trace(es, tuning, key);
    var rs := Runs(t);
    InNotesOf(es, tuning, key, rs, n);
    if n in ChannelNotes(es, tuning, key) {
      var i :| 0 <= i < |rs| && HasLength(es, rs[i]) && n == NoteOf(es, tuning, key, rs[i]);
      RunsExactly(t, rs[i]);
    }
    if r: Run :| IsRun(t, r) && r.first <= |es| && HasLength(es, r) && n == NoteOf(es, tuning, key, r) {
      RunsExactly(t, r);
    }
  }

  // ----- extract_notes() -----

  lemma {:induction false} OfOutside(s: seq<Note>, chips: nat, key: Key)
    requires KeysBelow(s, chips) && !(key.chip < chips && key.channel < 4)
    ensures Of(s, key) == []
  {
    if s != [] { OfOutside(s[..|s| - 1], chips, key); }
  }

  lemma {:induction false} SortedIsExact(s: seq<Note>, es: seq<Write>, tuning: Tuning, chips: nat, key: Key)
    requires Chronological(es) && KeysBelow(s, chips)
    requires forall k: Key :: k.chip < chips && k.channel < 4 ==> Of(s, k) == ChannelNotes(es, tuning, k)
    ensures Of(Sorted(s), key) == Of(s, key)
  {
    forall k: Key ensures Rising(Of(s, k)) {
      if k.chip < chips && k.channel < 4 {
        ChannelNotesAreDisjoint(es, tuning, k);
      } else {
        OfOutside(s, chips, k);
      }
    }
    SortedKeepsMembers(s, key);
  }

  lemma TrackedAtFirst(es: seq<Write>, tuning: Tuning, chips: nat)
    ensures AllTracked(map[], [], es, tuning, chips, 0, 0, 0)
  {
    forall key: Key | key.chip < chips && key.channel < 4
      ensures Tracked(map[], [], es, tuning, key, Seen(0, key, 0, 0))
    {
      SilentAtFirst(es, tuning, key);
    }
  }

  /** The list of a finished extractor, sorted, holds exactly the notes of the channels. */
  lemma {:induction false} SortedResult(s: seq<Note>, es: seq<Write>, tuning: Tuning, chips: nat)
    requires Chronological(es) && KeysBelow(s, chips)
    requires forall key: Key :: key.chip < chips && key.channel < 4 ==> Of(s, key) == ChannelNotes(es, tuning, key)
    ensures InNoteOrder(Sorted(s)) && KeysBelow(Sorted(s), chips)
    ensures forall key: Key :: key.chip < chips && key.channel < 4 ==> Of(Sorted(s), key) == ChannelNotes(es, tuning, key)
  {
    SortedOrders(s, chips);
    forall key: Key | key.chip < chips && key.channel < 4
      ensures Of(Sorted(s), key) == ChannelNotes(es, tuning, key)
    {
      SortedIsExact(s, es, tuning, chips, key);
    }
  }

  /** extract_notes() up to the sort. */
  method Extract(stereo: bool, es: seq<Write>, tuning: Tuning) returns (notes: seq<Note>)
    ensures KeysBelow(notes, Chips(stereo))
    ensures forall key: Key :: key.chip < Chips(stereo) && key.channel < 4 ==>
              Of(notes, key) == ChannelNotes(es, tuning, key)
  {
    var x := new Extractor(stereo, tuning);
    var lastTicks := if es != [] then es[0].ticks else 0;
    TrackedAtFirst(es, tuning, |x.chips|);
    for n := 0 to |es|
      invariant x.Ready() && x.Proper() && x.AllFed(es, n, 0, |x.chips|)
      invariant AllTracked(x.active, x.notes, es, tuning, |x.chips|, n, 0, 0)
      invariant n > 0 ==> lastTicks == es[n - 1].ticks
      invariant es == [] ==> lastTicks == 0
    {
      lastTicks := es[n].ticks;
      x.Take(es[n], es, n);
    }
    CloseAll(x, lastTicks, es);
    notes := x.notes;
    assert forall key: Key :: key.chip < Chips(stereo) && key.channel < 4 ==> x.InRange(key);
  }

  /**
   The list is sorted by start, chip and channel, and what it holds of each channel
   are the notes of that channel, in order and no others.
   */
  method ExtractNotes(stereo: bool, es: seq<Write>, tuning: Tuning) returns (notes: seq<Note>)
    requires Chronological(es)
    ensures InNoteOrder(notes) && KeysBelow(notes, Chips(stereo))
    ensures forall key: Key :: key.chip < Chips(stereo) && key.channel < 4 ==>
              Of(notes, key) == ChannelNotes(es, tuning, key)
  {
    notes := Extract(stereo, es, tuning);
    SortedResult(notes, es, tuning, Chips(stereo));
    notes := Sorted(notes);
  }
}
