/**
 Notes from a log of PSG writes (extract_notes in
 docs/tools/example_psg_write_log_to_midi.py, lines 286-389). The pitch of a
 divider and the velocity of an attenuation are parameters.
 */
module NoteExtraction {
  import Psg
  import opened Basics
  import opened NoteRuns
  import opened WriteDecoder

  datatype Write = Write(ticks: int, mask: int, value: Psg.byte)

  datatype Tuning = Tuning(pitch: nat -> int, velocity: nat -> int)

  datatype Key = Key(chip: nat, channel: nat)

  datatype Note = Note(key: Key, isNoise: bool, on: int, off: int, pitch: int, velocity: int)

  const NOISE_PITCH := 60

  // ----- what the log says is heard -----

  predicate Addresses(w: Write, c: nat) {
    if c == 0 then w.mask % 2 == 1 else w.mask / 2 % 2 == 1
  }

  function Chips(stereo: bool): nat {
    if stereo then 2 else 1
  }

  /** The registers of chip `c` after the first `n` writes. */
  function RegistersAfter(es: seq<Write>, n: nat, c: nat): (r: Registers)
    requires n <= |es|
    ensures Valid(r)
  {
    if n == 0 then RESET
    else
      var before := RegistersAfter(es, n - 1, c);
      if Addresses(es[n - 1], c) then Written(before, es[n - 1].value) else before
  }

  predicate IsPlaying(ch: Channel, k: nat) {
    ch.attn < 15 && (k == NOISE_CHANNEL || ch.divider >= 2)
  }

  function PitchOf(ch: Channel, k: nat, tuning: Tuning): int {
    if k == NOISE_CHANNEL then NOISE_PITCH else tuning.pitch(ch.divider)
  }

  function SoundOf(ch: Channel, k: nat, tuning: Tuning): Sound {
    if IsPlaying(ch, k) then Playing(PitchOf(ch, k, tuning)) else Silent
  }

  /** What is heard of the channel before the first write and after each one. */
  function Trace(es: seq<Write>, tuning: Tuning, key: Key): (t: seq<Sound>)
    requires key.channel < 4
    ensures |t| == |es| + 1
    ensures forall n :: 0 <= n <= |es| ==> t[n] == SoundOf(RegistersAfter(es, n, key.chip).channels[key.channel], key.channel, tuning)
  {
    seq(|es| + 1, n requires 0 <= n <= |es| => SoundOf(RegistersAfter(es, n, key.chip).channels[key.channel], key.channel, tuning))
  }

  /** The time of write `n`; the end of the log is at the last one. */
  function TickOf(es: seq<Write>, n: nat): int {
    if 0 < n <= |es| then es[n - 1].ticks
    else if es != [] then es[|es| - 1].ticks
    else 0
  }

  function NewNote(ch: Channel, key: Key, on: int, tuning: Tuning): Note {
    Note(key, key.channel == NOISE_CHANNEL, on, 0, PitchOf(ch, key.channel, tuning), tuning.velocity(ch.attn))
  }

  /** The note that begins with state `n`, still open. */
  function NoteFrom(es: seq<Write>, tuning: Tuning, key: Key, n: nat): Note
    requires n <= |es| && key.channel < 4
  {
    NewNote(RegistersAfter(es, n, key.chip).channels[key.channel], key, TickOf(es, n), tuning)
  }

  function NoteOf(es: seq<Write>, tuning: Tuning, key: Key, r: Run): Note
    requires r.first <= |es| && key.channel < 4
  {
    NoteFrom(es, tuning, key, r.first).(off := TickOf(es, r.last))
  }

  predicate HasLength(es: seq<Write>, r: Run) {
    TickOf(es, r.first) < TickOf(es, r.last)
  }

  /** The notes of the runs that last longer than nothing. */
  function NotesOf(es: seq<Write>, tuning: Tuning, key: Key, rs: seq<Run>): seq<Note>
    requires key.channel < 4 && forall i :: 0 <= i < |rs| ==> rs[i].first <= |es|
  {
    if rs == [] then []
    else
      var r := rs[|rs| - 1];
      NotesOf(es, tuning, key, rs[..|rs| - 1]) + if HasLength(es, r) then [NoteOf(es, tuning, key, r)] else []
  }

  /** The notes of one channel, in the order of the list. */
  function Of(notes: seq<Note>, key: Key): seq<Note> {
    if notes == [] then []
    else
      var n := notes[|notes| - 1];
      Of(notes[..|notes| - 1], key) + if n.key == key then [n] else []
  }

  lemma {:induction false} OfSnoc(notes: seq<Note>, n: Note, key: Key)
    ensures Of(notes + [n], key) == Of(notes, key) + if n.key == key then [n] else []
  {
    assert (notes + [n])[..|notes|] == notes;
  }

  // ----- sort() -----

  predicate Before(a: Note, b: Note) {
    a.on < b.on || (a.on == b.on && (a.key.chip < b.key.chip || (a.key.chip == b.key.chip && a.key.channel <= b.key.channel)))
  }

  function Insert(n: Note, s: seq<Note>): seq<Note> {
    if s == [] then [n]
    else if Before(s[|s| - 1], n) then s + [n]
    else Insert(n, s[..|s| - 1]) + [s[|s| - 1]]
  }

  /** notes.sort(): stable, by start, chip and channel. */
  function Sorted(s: seq<Note>): seq<Note> {
    if s == [] then [] else Insert(s[|s| - 1], Sorted(s[..|s| - 1]))
  }

  ghost predicate InNoteOrder(s: seq<Note>) {
    forall i, j :: 0 <= i < j < |s| ==> Before(s[i], s[j])
  }

  ghost predicate KeysBelow(s: seq<Note>, chips: nat) {
    forall i :: 0 <= i < |s| ==> s[i].key.chip < chips && s[i].key.channel < 4
  }

  lemma {:induction false} InsertOrders(n: Note, s: seq<Note>, chips: nat)
    requires InNoteOrder(s) && KeysBelow(s, chips) && n.key.chip < chips && n.key.channel < 4
    ensures InNoteOrder(Insert(n, s)) && KeysBelow(Insert(n, s), chips)
    ensures forall x :: x in Insert(n, s) ==> x == n || x in s
  {
    if s != [] && !Before(s[|s| - 1], n) {
      var front := s[..|s| - 1];
      InsertOrders(n, front, chips);
      var r := Insert(n, front);
      forall i | 0 <= i < |r| ensures Before(r[i], s[|s| - 1]) {
        assert r[i] in r;
      }
    }
  }

  lemma {:induction false} SortedOrders(s: seq<Note>, chips: nat)
    requires KeysBelow(s, chips)
    ensures InNoteOrder(Sorted(s)) && KeysBelow(Sorted(s), chips)
  {
    if s != [] {
      SortedOrders(s[..|s| - 1], chips);
      InsertOrders(s[|s| - 1], Sorted(s[..|s| - 1]), chips);
    }
  }

  /** No note starts before an earlier one. */
  ghost predicate Rising(s: seq<Note>) {
    forall i, j :: 0 <= i < j < |s| ==> s[i].on <= s[j].on
  }

  /** Behind all notes of its own channel, and between those of the others. */
  lemma {:induction false} InsertKeepsChannel(n: Note, s: seq<Note>, key: Key)
    requires forall i :: 0 <= i < |s| && s[i].key == n.key ==> s[i].on <= n.on
    ensures Of(Insert(n, s), key) == Of(s, key) + if n.key == key then [n] else []
  {
    if s == [] {
      OfSnoc([], n, key);
      assert [] + [n] == [n];
    } else {
      var front, last := s[..|s| - 1], s[|s| - 1];
      if Before(last, n) {
        OfSnoc(s, n, key);
      } else {
        assert last.key != n.key;
        InsertKeepsChannel(n, front, key);
        OfSnoc(Insert(n, front), last, key);
        OfSnoc(front, last, key);
        assert front + [last] == s;
      }
    }
  }

  lemma {:induction false} ChannelOnsBelow(s: seq<Note>, key: Key, on: int)
    requires forall i :: 0 <= i < |Of(s, key)| ==> Of(s, key)[i].on <= on
    ensures forall i :: 0 <= i < |s| && s[i].key == key ==> s[i].on <= on
  {
    if s != [] {
      var front, n := s[..|s| - 1], s[|s| - 1];
      var o := Of(front, key);
      forall i | 0 <= i < |o| ensures o[i].on <= on {
        assert Of(s, key)[i] == o[i];
      }
      ChannelOnsBelow(front, key, on);
      if n.key == key { assert Of(s, key)[|o|] == n; }
    }
  }

  lemma {:induction false} RisingFront(s: seq<Note>, key: Key)
    requires s != [] && Rising(Of(s, key))
    ensures Rising(Of(s[..|s| - 1], key))
  {
    var o := Of(s[..|s| - 1], key);
    assert forall i :: 0 <= i < |o| ==> Of(s, key)[i] == o[i];
  }

  lemma OwnIsLast(s: seq<Note>)
    requires s != []
    requires var n := s[|s| - 1]; Rising(Of(s, n.key))
    ensures var n := s[|s| - 1]; var o := Of(s[..|s| - 1], n.key);
            forall i :: 0 <= i < |o| ==> o[i].on <= n.on
  {
    var n := s[|s| - 1];
    var o := Of(s[..|s| - 1], n.key);
    var all := Of(s, n.key);
    assert all[|o|] == n && forall i :: 0 <= i < |o| ==> all[i] == o[i];
  }

  lemma {:induction false} SortedKeepsMembers(s: seq<Note>, key: Key)
    requires forall k: Key :: Rising(Of(s, k))
    ensures Of(Sorted(s), key) == Of(s, key)
    decreases |s|
  {
    if s != [] {
      var front, n := s[..|s| - 1], s[|s| - 1];
      var own := n.key;
      forall k: Key ensures Rising(Of(front, k)) {
        RisingFront(s, k);
      }
      SortedKeepsMembers(front, key);
      SortedKeepsMembers(front, own);
      OwnIsLast(s);
      ChannelOnsBelow(Sorted(front), own, n.on);
      InsertKeepsChannel(n, Sorted(front), key);
    }
  }

  // ----- what is tracked -----

  function Lookup(active: map<Key, Note>, key: Key): Option<Note> {
    if key in active then Some(active[key]) else None
  }

  /** The open note of a channel with trace `t` after `n` writes: there is one exactly while it plays. */
  function OpenNote(es: seq<Write>, tuning: Tuning, key: Key, t: seq<Sound>, n: nat): Option<Note>
    requires n <= |es| && key.channel < 4 && |t| == |es| + 1
  {
    if t[n].Playing? then Some(NoteFrom(es, tuning, key, Start(t, n))) else None
  }

  /** The notes of the runs that are over after `n` writes. */
  function NotesUpTo(es: seq<Write>, tuning: Tuning, key: Key, t: seq<Sound>, n: nat): seq<Note>
    requires n <= |es| && key.channel < 4 && |t| == |es| + 1
  {
    NotesOf(es, tuning, key, Closed(t, n))
  }

  /** Active while playing, and the notes so far are the runs so far. */
  ghost predicate Tracked(active: map<Key, Note>, notes: seq<Note>, es: seq<Write>, tuning: Tuning, key: Key, n: nat)
    requires n <= |es| && key.channel < 4
  {
    var t := Trace(es, tuning, key);
    Of(notes, key) == NotesUpTo(es, tuning, key, t, n) && Lookup(active, key) == OpenNote(es, tuning, key, t, n)
  }

  /** How many writes a channel has seen when those before channel `k` of chip `c` have seen one more than `n`. */
  function Seen(n: nat, key: Key, c: nat, k: nat): nat {
    if key.chip < c || (key.chip == c && key.channel < k) then n + 1 else n
  }

  /** Everything is tracked; the channels before channel `k` of chip `c` have already seen write `n`. */
  ghost predicate AllTracked(active: map<Key, Note>, notes: seq<Note>, es: seq<Write>, tuning: Tuning,
                             chips: nat, n: nat, c: nat, k: nat)
    requires n < |es| || (n == |es| && c == k == 0)
  {
    forall key: Key {:trigger Seen(n, key, c, k)} :: key.chip < chips && key.channel < 4 ==>
      Tracked(active, notes, es, tuning, key, Seen(n, key, c, k))
  }

  /**
   One channel after a write. Its note ends when the channel falls silent or
   changes its pitch; in the latter case, and when it begins to play, a new one
   starts.
   */
  ghost predicate Follows(active: map<Key, Note>, notes: seq<Note>, active': map<Key, Note>, notes': seq<Note>,
                          ch: Channel, key: Key, was: bool, tick: int, tuning: Tuning)
    requires was == (key in active)
  {
    var sound := SoundOf(ch, key.channel, tuning);
    var goesOn := was && sound == Playing(active[key].pitch);
    && notes' == notes + (if was && !goesOn && active[key].on < tick then [active[key].(off := tick)] else [])
    && active' == if goesOn then active
                  else if sound.Silent? then active - {key}
                  else active[key := NewNote(ch, key, tick, tuning)]
  }

  lemma {:induction false} NotesOfSnoc(es: seq<Write>, tuning: Tuning, key: Key, rs: seq<Run>, r: Run)
    requires key.channel < 4 && r.first <= |es| && forall i :: 0 <= i < |rs| ==> rs[i].first <= |es|
    ensures NotesOf(es, tuning, key, rs + [r]) ==
      NotesOf(es, tuning, key, rs) + if HasLength(es, r) then [NoteOf(es, tuning, key, r)] else []
  {
    assert (rs + [r])[..|rs|] == rs;
  }

  lemma OpenIsOwn(es: seq<Write>, tuning: Tuning, key: Key, n: nat)
    requires n <= |es| && key.channel < 4 && Trace(es, tuning, key)[n].Playing?
    ensures var open := OpenNote(es, tuning, key, Trace(es, tuning, key), n);
            open.Some? && open.value.key == key && Trace(es, tuning, key)[n] == Playing(open.value.pitch)
  {
    var t := Trace(es, tuning, key);
    StartIsFirst(t, n);
    assert t[Start(t, n)] == t[n];
  }

  lemma NotesOfClosed(es: seq<Write>, tuning: Tuning, key: Key, t: seq<Sound>, n: nat)
    requires n < |es| && key.channel < 4 && |t| == |es| + 1
    ensures NotesOf(es, tuning, key, Closed(t, n + 1)) ==
      if t[n].Playing? && t[n + 1] != t[n] && TickOf(es, Start(t, n)) < TickOf(es, n + 1)
      then NotesOf(es, tuning, key, Closed(t, n)) + [NoteOf(es, tuning, key, Run(Start(t, n), n + 1))]
      else NotesOf(es, tuning, key, Closed(t, n))
  {
    ClosedStep(t, n);
    if t[n].Playing? && t[n + 1] != t[n] {
      NotesOfSnoc(es, tuning, key, Closed(t, n), Run(Start(t, n), n + 1));
      assert NotesOf(es, tuning, key, Closed(t, n)) + [] == NotesOf(es, tuning, key, Closed(t, n));
    }
  }

  /** How the finished notes of a channel change with one write. */
  lemma NotesStep(es: seq<Write>, tuning: Tuning, key: Key, t: seq<Sound>, n: nat)
    requires n < |es| && key.channel < 4 && |t| == |es| + 1
    ensures var open := OpenNote(es, tuning, key, t, n);
            NotesUpTo(es, tuning, key, t, n + 1) ==
              if t[n].Playing? && t[n + 1] != t[n] && open.value.on < es[n].ticks
              then NotesUpTo(es, tuning, key, t, n) + [open.value.(off := es[n].ticks)]
              else NotesUpTo(es, tuning, key, t, n)
  {
    NotesOfClosed(es, tuning, key, t, n);
  }

  /** How its open note changes. */
  lemma OpenStep(es: seq<Write>, tuning: Tuning, key: Key, t: seq<Sound>, n: nat)
    requires n < |es| && key.channel < 4 && |t| == |es| + 1
    ensures OpenNote(es, tuning, key, t, n + 1) ==
              if t[n + 1].Silent? then None
              else if t[n + 1] == t[n] then OpenNote(es, tuning, key, t, n)
              else Some(NewNote(RegistersAfter(es, n + 1, key.chip).channels[key.channel], key, es[n].ticks, tuning))
  {
  }

  // ----- one write keeps every channel tracked -----

  lemma {:induction false} FollowsStep(active: map<Key, Note>, notes: seq<Note>, active': map<Key, Note>,
                                       notes': seq<Note>,
                                       es: seq<Write>, ch: Channel, key: Key, was: bool, n: nat, t: seq<Sound>, tuning: Tuning)
    requires n < |es| && key.channel < 4 && |t| == |es| + 1 && was == (key in active)
    requires Of(notes, key) == NotesUpTo(es, tuning, key, t, n)
    requires Lookup(active, key) == OpenNote(es, tuning, key, t, n)
    requires was ==> active[key].key == key && t[n] == Playing(active[key].pitch)
    requires ch == RegistersAfter(es, n + 1, key.chip).channels[key.channel]
    requires t[n + 1] == SoundOf(ch, key.channel, tuning)
    requires Follows(active, notes, active', notes', ch, key, was, es[n].ticks, tuning)
    ensures Of(notes', key) == NotesUpTo(es, tuning, key, t, n + 1)
    ensures Lookup(active', key) == OpenNote(es, tuning, key, t, n + 1)
  {
    NotesStep(es, tuning, key, t, n);
    OpenStep(es, tuning, key, t, n);
    if was { OfSnoc(notes, active[key].(off := es[n].ticks), key); }
    assert notes + [] == notes;
  }

  lemma FollowsTracks(active: map<Key, Note>, notes: seq<Note>, active': map<Key, Note>, notes': seq<Note>,
                      es: seq<Write>, key: Key, was: bool, n: nat, tuning: Tuning)
    requires n < |es| && key.channel < 4 && was == (key in active)
    requires Tracked(active, notes, es, tuning, key, n)
    requires Follows(active, notes, active', notes', RegistersAfter(es, n + 1, key.chip).channels[key.channel],
                     key, was, es[n].ticks, tuning)
    ensures Tracked(active', notes', es, tuning, key, n + 1)
  {
    if was { OpenIsOwn(es, tuning, key, n); }
    FollowsStep(active, notes, active', notes', es, RegistersAfter(es, n + 1, key.chip).channels[key.channel],
                key, was, n, Trace(es, tuning, key), tuning);
  }

  lemma FollowsLeavesOthers(active: map<Key, Note>, notes: seq<Note>, active': map<Key, Note>, notes': seq<Note>,
                            ch: Channel, key: Key, was: bool, tick: int, tuning: Tuning,
                            es: seq<Write>, other: Key, m: nat)
    requires was == (key in active) && (was ==> active[key].key == key)
    requires Follows(active, notes, active', notes', ch, key, was, tick, tuning)
    requires other != key && m <= |es| && other.channel < 4 && Tracked(active, notes, es, tuning, other, m)
    ensures Tracked(active', notes', es, tuning, other, m)
  {
    if was { OfSnoc(notes, active[key].(off := tick), other); }
    assert notes + [] == notes;
    assert Of(notes, other) + [] == Of(notes, other);
    assert Lookup(active', other) == Lookup(active, other);
  }

  /** A write to the other chip leaves a channel as it was. */
  lemma UnaddressedStays(active: map<Key, Note>, notes: seq<Note>, es: seq<Write>, key: Key, n: nat, tuning: Tuning)
    requires n < |es| && key.channel < 4 && !Addresses(es[n], key.chip)
    requires Tracked(active, notes, es, tuning, key, n)
    ensures Tracked(active, notes, es, tuning, key, n + 1)
  {
    var t := Trace(es, tuning, key);
    NotesStep(es, tuning, key, t, n);
    OpenStep(es, tuning, key, t, n);
    assert t[n + 1] == t[n];
  }

  lemma {:induction false} ActiveIffPlaying(active: map<Key, Note>, notes: seq<Note>, es: seq<Write>, key: Key,
                                            n: nat, tuning: Tuning)
    requires n <= |es| && key.channel < 4 && Tracked(active, notes, es, tuning, key, n)
    ensures key in active <==> IsPlaying(RegistersAfter(es, n, key.chip).channels[key.channel], key.channel)
    ensures key in active && key.channel == NOISE_CHANNEL ==> active[key].pitch == NOISE_PITCH
  {
    var t := Trace(es, tuning, key);
    if t[n].Playing? { OpenIsOwn(es, tuning, key, n); }
  }

  lemma OneChannelOn(active: map<Key, Note>, notes: seq<Note>, active': map<Key, Note>, notes': seq<Note>,
                     es: seq<Write>, key: Key, was: bool, chips: nat, n: nat, tuning: Tuning)
    requires n < |es| && key.chip < chips && key.channel < 4 && was == (key in active)
    requires was ==> active[key].key == key
    requires AllTracked(active, notes, es, tuning, chips, n, key.chip, key.channel)
    requires Follows(active, notes, active', notes', RegistersAfter(es, n + 1, key.chip).channels[key.channel],
                     key, was, es[n].ticks, tuning)
    ensures AllTracked(active', notes', es, tuning, chips, n, key.chip, key.channel + 1)
  {
    var ch := RegistersAfter(es, n + 1, key.chip).channels[key.channel];
    assert Seen(n, key, key.chip, key.channel) == n;
    forall other: Key | other.chip < chips && other.channel < 4
      ensures Tracked(active', notes', es, tuning, other, Seen(n, other, key.chip, key.channel + 1))
    {
      assert Tracked(active, notes, es, tuning, other, Seen(n, other, key.chip, key.channel));
      if other == key {
        FollowsTracks(active, notes, active', notes', es, key, was, n, tuning);
      } else {
        assert Seen(n, other, key.chip, key.channel) == Seen(n, other, key.chip, key.channel + 1);
        FollowsLeavesOthers(active, notes, active', notes', ch, key, was, es[n].ticks, tuning, es, other,
                            Seen(n, other, key.chip, key.channel));
      }
    }
  }

  lemma AllTrackedCarry(active: map<Key, Note>, notes: seq<Note>, es: seq<Write>, tuning: Tuning,
                        chips: nat, n: nat, c: nat)
    requires n < |es| && AllTracked(active, notes, es, tuning, chips, n, c, 4)
    ensures AllTracked(active, notes, es, tuning, chips, n, c + 1, 0)
  {
    forall key: Key | key.chip < chips && key.channel < 4
      ensures Tracked(active, notes, es, tuning, key, Seen(n, key, c + 1, 0))
    {
      assert Seen(n, key, c, 4) == Seen(n, key, c + 1, 0);
    }
  }

  lemma AllTrackedNext(active: map<Key, Note>, notes: seq<Note>, es: seq<Write>, tuning: Tuning, chips: nat, n: nat)
    requires n < |es| && AllTracked(active, notes, es, tuning, chips, n, chips, 0)
    ensures AllTracked(active, notes, es, tuning, chips, n + 1, 0, 0)
  {
    forall key: Key | key.chip < chips && key.channel < 4
      ensures Tracked(active, notes, es, tuning, key, Seen(n + 1, key, 0, 0))
    {
      assert Seen(n, key, chips, 0) == Seen(n + 1, key, 0, 0);
    }
  }

  lemma ChipStays(active: map<Key, Note>, notes: seq<Note>, es: seq<Write>, c: nat, chips: nat, n: nat, tuning: Tuning)
    requires n < |es| && !Addresses(es[n], c) && AllTracked(active, notes, es, tuning, chips, n, c, 0)
    ensures AllTracked(active, notes, es, tuning, chips, n, c + 1, 0)
  {
    forall key: Key | key.chip < chips && key.channel < 4
      ensures Tracked(active, notes, es, tuning, key, Seen(n, key, c + 1, 0))
    {
      assert Tracked(active, notes, es, tuning, key, Seen(n, key, c, 0));
      if key.chip == c { UnaddressedStays(active, notes, es, key, n, tuning); }
    }
  }

  // ----- the extractor -----

  /** The state of `extract_notes` and its two nested functions. */
  class Extractor {
    const chips: seq<PsgInstance>
    const tuning: Tuning
    var active: map<Key, Note>
    var notes: seq<Note>

    ghost predicate Ready() {
      && 1 <= |chips| <= 2
      && forall i, j :: 0 <= i < j < |chips| ==> chips[i] != chips[j]
    }

    predicate InRange(key: Key) {
      key.chip < |chips| && key.channel < 4
    }

    /** Nothing but the channels of the chips is active or noted. */
    ghost predicate Proper()
      reads this
    {
      && (forall key :: key in active ==> InRange(key) && active[key].key == key)
      && KeysBelow(notes, |chips|)
    }

    /** Chip `c` has taken the first `n` writes. */
    ghost predicate Fed(es: seq<Write>, n: nat, c: nat)
      requires n <= |es| && c < |chips|
      reads chips
    {
      chips[c].Contents() == RegistersAfter(es, n, c)
    }

    /** The chips from `lo` up to `hi` have. */
    ghost predicate AllFed(es: seq<Write>, n: nat, lo: nat, hi: nat)
      requires n <= |es| && hi <= |chips|
      reads chips
    {
      forall c {:trigger chips[c]} :: lo <= c < hi ==> chips[c].Contents() == RegistersAfter(es, n, c)
    }

    constructor (stereo: bool, tuning: Tuning)
      ensures Ready() && |chips| == Chips(stereo) && this.tuning == tuning
      ensures active == map[] && notes == []
      ensures forall c :: 0 <= c < |chips| ==> fresh(chips[c]) && chips[c].Contents() == RESET
    {
      var left := new PsgInstance();
      var right := new PsgInstance();
      chips := if stereo then [left, right] else [left];
      this.tuning := tuning;
      active, notes := map[], [];
    }

    /** emit_close() */
    method EmitClose(key: Key, off: int)
      requires Proper()
      modifies this`active, this`notes
      ensures Proper() && active == old(active) - {key}
      ensures notes == old(notes) + if key in old(active) && old(active[key]).on < off
                                    then [old(active[key]).(off := off)] else []
    {
      if key in active {
        var n := active[key].(off := off);
        active := active - {key};
        if n.off > n.on {
          notes := notes + [n];
        }
      }
    }

    /** maybe_start() */
    method MaybeStart(key: Key, on: int)
      requires Proper() && InRange(key) && Valid(chips[key.chip].Contents())
      modifies this`active
      ensures Proper()
      ensures var ch := chips[key.chip].channels[key.channel];
              active == if IsPlaying(ch, key.channel) then old(active)[key := NewNote(ch, key, on, tuning)] else old(active)
    {
      var ch := chips[key.chip].channels[key.channel];
      if IsPlaying(ch, key.channel) {
        active := active[key := NewNote(ch, key, on, tuning)];
      }
    }

    /** The body of the inner loop. */
    method Follow(key: Key, was: bool, tick: int)
      requires Proper() && InRange(key) && Valid(chips[key.chip].Contents())
      requires was == (key in active) && (was && key.channel == NOISE_CHANNEL ==> active[key].pitch == NOISE_PITCH)
      modifies this`active, this`notes
      ensures Proper()
      ensures Follows(old(active), old(notes), active, notes, chips[key.chip].channels[key.channel], key, was, tick, tuning)
    {
      var ch := chips[key.chip].channels[key.channel];
      var now := IsPlaying(ch, key.channel);
      if was && !now {
        EmitClose(key, tick);
      } else if !was && now {
        MaybeStart(key, tick);
      } else if was && now && key in active {
        if key.channel != NOISE_CHANNEL && tuning.pitch(ch.divider) != active[key].pitch {
          EmitClose(key, tick);
          MaybeStart(key, tick);
        }
      }
    }

    /** A write to a chip that it addresses. */
    method WriteTo(c: nat, w: Write, ghost es: seq<Write>, ghost n: nat)
      requires Proper() && c < |chips| && n < |es| && w == es[n] && Addresses(w, c)
      requires Fed(es, n, c) && AllTracked(active, notes, es, tuning, |chips|, n, c, 0)
      modifies chips[c], this`active, this`notes
      ensures Proper() && Fed(es, n + 1, c) && AllTracked(active, notes, es, tuning, |chips|, n, c + 1, 0)
    {
      var was: seq<bool> := [];
      for k := 0 to 4
        invariant |was| == k
        invariant forall j :: 0 <= j < k ==> was[j] == IsPlaying(RegistersAfter(es, n, c).channels[j], j)
      {
        was := was + [IsPlaying(chips[c].channels[k], k)];
      }
      chips[c].WriteByte(w.value);
      for k := 0 to 4
        invariant Proper() && Fed(es, n + 1, c)
        invariant AllTracked(active, notes, es, tuning, |chips|, n, c, k)
      {
        var key := Key(c, k);
        ghost var active0, notes0 := active, notes;
        assert Seen(n, key, c, k) == n;
        ActiveIffPlaying(active, notes, es, key, n, tuning);
        Follow(key, was[k], w.ticks);
        OneChannelOn(active0, notes0, active, notes, es, key, was[k], |chips|, n, tuning);
      }
      AllTrackedCarry(active, notes, es, tuning, |chips|, n, c);
    }

    /** One event of the log. */
    method Take(w: Write, ghost es: seq<Write>, ghost n: nat)
      requires Ready() && Proper() && n < |es| && w == es[n]
      requires AllFed(es, n, 0, |chips|)
      requires AllTracked(active, notes, es, tuning, |chips|, n, 0, 0)
      modifies chips, this`active, this`notes
      ensures Proper() && AllTracked(active, notes, es, tuning, |chips|, n + 1, 0, 0)
      ensures AllFed(es, n + 1, 0, |chips|)
    {
      for c := 0 to |chips|
        invariant Proper() && AllTracked(active, notes, es, tuning, |chips|, n, c, 0)
        invariant AllFed(es, n + 1, 0, c) && AllFed(es, n, c, |chips|)
      {
        if Addresses(w, c) {
          WriteTo(c, w, es, n);
        } else {
          ChipStays(active, notes, es, c, |chips|, n, tuning);
        }
      }
      AllTrackedNext(active, notes, es, tuning, |chips|, n);
    }
  }
}
