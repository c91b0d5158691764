/**
 The memory of used directories as the dialog keeps it: fixed slot arrays changed
 in place (src/baseui/baseui_fchooser_lastdir.c).
 */
module LastDirs {
  import opened RecentDirs

  const CAT_GENERIC: int := 0
  const CAT_CMT: int := 1
  const CAT_MZF: int := 2
  const CAT_COUNT: int := 19

  // ----- lastdir_normalize() -----

  /** A path that is left alone: it does not end in a separator, or is a root. */
  predicate Settled(s: string, separator: char -> bool) {
    |s| <= 1 || !separator(s[|s| - 1]) || (|s| == 3 && s[1] == ':')
  }

  /** The longest settled beginning of the path. */
  method Normalize(dirpath: string, separator: char -> bool) returns (s: string)
    ensures s <= dirpath && Settled(s, separator)
    ensures forall n :: |s| < n <= |dirpath| ==> !Settled(dirpath[..n], separator)
    ensures dirpath != "" ==> s != ""
    ensures forall i :: |s| <= i < |dirpath| ==> separator(dirpath[i])
    ensures |s| > 1 && separator(s[|s| - 1]) ==> |s| == 3 && s[1] == ':'
    ensures |dirpath| >= 3 && dirpath[1] == ':' && (forall i :: 2 <= i < |dirpath| ==> separator(dirpath[i])) ==> |s| == 3
  {
    s := dirpath;
    var len := |s|;
    while len > 1 && separator(s[len - 1])
      invariant 0 <= len <= |dirpath| && s == dirpath[..len] && (dirpath != "" ==> len > 0)
      invariant forall i :: len <= i < |dirpath| ==> separator(dirpath[i])
      invariant |dirpath| >= 3 && dirpath[1] == ':' ==> len >= 3
      invariant forall n :: len < n <= |dirpath| ==> !Settled(dirpath[..n], separator)
    {
      if len == 3 && s[1] == ':' {
        break;
      }
      assert !Settled(dirpath[..len], separator);
      len := len - 1;
      s := s[..len];
    }
  }

  // ----- the in-place move to the front -----

  /** Where the search stops: an empty slot, an equal path, or the last slot. */
  predicate StopsAt(slots: seq<Slot>, d: string, eq: (string, string) -> bool, found: nat) {
    && found < |slots|
    && (forall j :: 0 <= j < found ==> slots[j].Path? && !eq(slots[j].text, d))
    && (slots[found] == Null || eq(slots[found].text, d) || found == |slots| - 1)
  }

  /** The slots before `found` move one place up, `d` comes first. */
  function Shifted(slots: seq<Slot>, d: string, found: nat): seq<Slot>
    requires found < |slots|
  {
    [Path(d)] + slots[..found] + slots[found + 1..]
  }

  /** One use moves the entries before `found` back and drops the one there. */
  lemma PushedShape(s: seq<string>, d: string, eq: (string, string) -> bool, found: nat)
    requires Equivalence(eq) && NoDuplicates(s, eq) && |s| <= RECENT_MAX && found <= |s|
    requires forall j :: 0 <= j < found ==> !eq(s[j], d)
    requires found < |s| && !eq(s[found], d) ==> found == RECENT_MAX - 1
    requires found == |s| ==> |s| < RECENT_MAX
    ensures Pushed(d, s, eq) == [d] + s[..found] + if found < |s| then s[found + 1..] else []
  {
    if found < |s| && eq(s[found], d) {
      WithoutOne(s, d, eq, found);
    } else {
      WithoutAll(s, d, eq);
    }
  }

  lemma ShiftedSlots(s: seq<string>, d: string, found: nat)
    requires |s| <= RECENT_MAX && found <= |s| && found < RECENT_MAX
    ensures var r := [d] + s[..found] + if found < |s| then s[found + 1..] else [];
            |r| <= RECENT_MAX && Shifted(SlotsOf(s, RECENT_MAX), d, found) == SlotsOf(r, RECENT_MAX)
  {
  }

  lemma ShiftedIsPushed(s: seq<string>, d: string, eq: (string, string) -> bool, found: nat)
    requires Equivalence(eq) && NoDuplicates(s, eq) && |s| <= RECENT_MAX
    requires StopsAt(SlotsOf(s, RECENT_MAX), d, eq, found)
    ensures |Pushed(d, s, eq)| <= RECENT_MAX
    ensures Shifted(SlotsOf(s, RECENT_MAX), d, found) == SlotsOf(Pushed(d, s, eq), RECENT_MAX)
  {
    var slots := SlotsOf(s, RECENT_MAX);
    if |s| < RECENT_MAX { assert slots[|s|] == Null; }
    forall j | 0 <= j < found ensures !eq(s[j], d) { assert slots[j].text == s[j]; }
    PushedShape(s, d, eq, found);
    ShiftedSlots(s, d, found);
  }

  ghost predicate IsList(slots: seq<Slot>, s: seq<string>, eq: (string, string) -> bool) {
    |s| <= RECENT_MAX && slots == SlotsOf(s, RECENT_MAX) && NoDuplicates(s, eq) && "" !in s
  }

  lemma {:induction false} WithoutKeepsOut(s: seq<string>, d: string, eq: (string, string) -> bool, x: string)
    requires x !in s
    ensures x !in Without(s, d, eq)
  {
    if s != [] { WithoutKeepsOut(s[..|s| - 1], d, eq, x); }
  }

  lemma PushedIsNotEmpty(d: string, s: seq<string>, eq: (string, string) -> bool)
    requires d != "" && "" !in s
    ensures "" !in Pushed(d, s, eq)
  {
    WithoutKeepsOut(s, d, eq, "");
  }

  lemma PushKeepsList(s: seq<string>, d: string, eq: (string, string) -> bool, found: nat)
    requires Equivalence(eq) && |s| <= RECENT_MAX && IsList(SlotsOf(s, RECENT_MAX), s, eq) && d != ""
    requires StopsAt(SlotsOf(s, RECENT_MAX), d, eq, found)
    ensures var r := Shifted(SlotsOf(s, RECENT_MAX), d, found);
            IsList(r, Pushed(d, s, eq), eq) && Items(r) == Pushed(d, s, eq)
  {
    ShiftedIsPushed(s, d, eq, found);
    ItemsOfSlots(Pushed(d, s, eq), RECENT_MAX);
    PushedIsUnique(d, s, eq);
    PushedIsNotEmpty(d, s, eq);
  }

  /** Tapes and tape files stand in for each other. */
  function Fallback(category: int): int {
    if category == CAT_CMT then CAT_MZF else if category == CAT_MZF then CAT_CMT else CAT_GENERIC
  }

  predicate Usable(s: Slot, onDisk: string -> bool) {
    s.Path? && s.text != "" && onDisk(s.text)
  }

  // ----- the compaction -----

  /** Slots before `i` hold what is kept, then nothing; the others are as they were. */
  ghost predicate HalfWay(now: seq<Slot>, slots: seq<Slot>, kept: seq<string>, i: nat) {
    && |now| == |slots| && |kept| <= i <= |now|
    && (forall j :: 0 <= j < |kept| ==> now[j] == Path(kept[j]))
    && (forall j :: |kept| <= j < i ==> now[j] == Null)
    && (forall j :: i <= j < |now| ==> now[j] == slots[j])
  }

  lemma HalfWayStep(now: seq<Slot>, next: seq<Slot>, slots: seq<Slot>, eq: (string, string) -> bool, i: nat)
    requires i < |slots| && HalfWay(now, slots, Kept(slots, i, eq), i)
    requires var kept := Kept(slots, i, eq);
             next == if slots[i] == Null || Holds(kept, slots[i].text, eq) then now[i := Null]
                     else now[i := Null][|kept| := slots[i]]
    ensures HalfWay(next, slots, Kept(slots, i + 1, eq), i + 1)
  {
  }

  lemma {:induction false} KeptIsNotEmpty(slots: seq<Slot>, n: nat, eq: (string, string) -> bool)
    requires n <= |slots| && forall i :: 0 <= i < |slots| ==> slots[i] != Path("")
    ensures "" !in Kept(slots, n, eq)
  {
    if n > 0 { KeptIsNotEmpty(slots, n - 1, eq); }
  }

  // ----- the two comparisons of the source -----

  function Lower(c: char): char {
    if 'A' <= c <= 'Z' then c - 'A' + 'a' else c
  }

  /** strcmp() == 0 */
  predicate SamePath(a: string, b: string) {
    a == b
  }

  /** g_ascii_strcasecmp() == 0 */
  predicate SamePathNoCase(a: string, b: string) {
    |a| == |b| && forall i :: 0 <= i < |a| ==> Lower(a[i]) == Lower(b[i])
  }

  lemma BothAreEquivalences()
    ensures Equivalence(SamePath) && Equivalence(SamePathNoCase)
  {
  }

  /** The two cases of one ASCII letter. */
  predicate Cases(upper: char, lower: char) {
    'A' <= upper <= 'Z' && 'a' <= lower <= 'z' && upper as int - 'A' as int == lower as int - 'a' as int
  }

  lemma LowerIs(c: char, d: char)
    ensures Lower(c) == Lower(d) <==> c == d || Cases(c, d) || Cases(d, c)
  {
  }

  /** Two paths are the same without regard to case if they differ in the case of ASCII letters only. */
  lemma NoCaseIsCaseOnly(a: string, b: string)
    ensures SamePathNoCase(a, b)
            <==> |a| == |b| && forall i :: 0 <= i < |a| ==> a[i] == b[i] || Cases(a[i], b[i]) || Cases(b[i], a[i])
  {
    forall i | 0 <= i < |a| && |a| == |b|
      ensures Lower(a[i]) == Lower(b[i]) <==> a[i] == b[i] || Cases(a[i], b[i]) || Cases(b[i], a[i])
    {
      LowerIs(a[i], b[i]);
    }
  }

  // ----- the memory -----

  class Memory {
    const eq: (string, string) -> bool
    const separator: char -> bool
    const categoryDir: array<Slot>
    const recent: array<Slot>
    var lastDir: Slot

    ghost predicate Valid() {
      categoryDir.Length == CAT_COUNT && recent.Length == RECENT_MAX && categoryDir != recent && Equivalence(eq)
    }

    ghost function Recent(): seq<string>
      reads recent
    {
      Items(recent[..])
    }

    /** The invariant of the source: paths from slot 0 on without a gap, no duplicates, none empty. */
    ghost predicate Listed()
      requires Valid()
      reads recent
    {
      IsList(recent[..], Recent(), eq)
    }

    constructor (eq: (string, string) -> bool, separator: char -> bool)
      requires Equivalence(eq)
      ensures Valid() && Listed() && Recent() == [] && lastDir == Null && categoryDir.Length == 19 && recent.Length == 10
      ensures forall i :: 0 <= i < categoryDir.Length ==> categoryDir[i] == Null
      ensures fresh(recent) && fresh(categoryDir) && this.eq == eq && this.separator == separator
    {
      this.eq, this.separator := eq, separator;
      categoryDir := new Slot[CAT_COUNT](_ => Null);
      recent := new Slot[RECENT_MAX](_ => Null);
      lastDir := Null;
    }

    /** The first empty slot or equal path; if there is neither, the last slot. */
    method Find(d: string) returns (found: nat)
      requires Valid()
      ensures StopsAt(recent[..], d, eq, found)
    {
      found := RECENT_MAX - 1;
      for i := 0 to RECENT_MAX
        invariant found == RECENT_MAX - 1
        invariant forall j :: 0 <= j < i ==> recent[j].Path? && !eq(recent[j].text, d)
      {
        if recent[i] == Null {
          found := i;
          break;
        }
        if eq(recent[i].text, d) {
          found := i;
          break;
        }
      }
    }

    /** lastdir_recent_push() */
    method RecentPush(d: string)
      requires Valid() && Listed() && d != ""
      modifies recent
      ensures Listed() && Recent() == Pushed(d, old(Recent()), eq)
    {
      ghost var slots, s := recent[..], Recent();
      var found := Find(d);
      var i := found;
      while i > 0
        invariant 0 <= i <= found < RECENT_MAX
        invariant forall j :: 0 <= j <= i ==> recent[j] == slots[j]
        invariant forall j :: i < j <= found ==> recent[j] == slots[j - 1]
        invariant forall j :: found < j < RECENT_MAX ==> recent[j] == slots[j]
      {
        recent[i] := recent[i - 1];
        i := i - 1;
      }
      recent[0] := Path(d);
      assert recent[..] == Shifted(slots, d, found);
      PushKeepsList(s, d, eq, found);
    }

    /** baseui_fchooser_lastdir_remember() */
    method Remember(category: int, dirpath: Slot) returns (ghost norm: string)
      requires Valid() && Listed()
      modifies recent, categoryDir, this`lastDir
      ensures Listed()
      ensures var ignored := dirpath == Null || dirpath.text == "" || dirpath.text == ".";
              if ignored then
                recent[..] == old(recent[..]) && categoryDir[..] == old(categoryDir[..]) && lastDir == old(lastDir)
              else
                && norm != "" && norm <= dirpath.text && Settled(norm, separator)
                && (forall i :: |norm| <= i < |dirpath.text| ==> separator(dirpath.text[i]))
                && Recent() == Pushed(norm, old(Recent()), eq) && lastDir == Path(norm)
                && categoryDir[..] == if 0 < category < 19
                                      then old(categoryDir[..])[category := Path(norm)] else old(categoryDir[..])
    {
      norm := "";
      if dirpath == Null || dirpath.text == "" || dirpath.text == "." {
        return;
      }
      var n := Normalize(dirpath.text, separator);
      norm := n;
      if CAT_GENERIC < category < CAT_COUNT {
        categoryDir[category] := SlotOf(n);
      }
      lastDir := SlotOf(n);
      RecentPush(n);
    }

    /** baseui_fchooser_lastdir_get(): the first candidate that exists on disk. */
    method Get(category: int, onDisk: string -> bool) returns (r: Slot)
      requires Valid()
      ensures var own := if 0 <= category < CAT_COUNT then category else CAT_GENERIC;
              r == if Usable(categoryDir[own], onDisk) then categoryDir[own]
                   else if Usable(categoryDir[Fallback(own)], onDisk) then categoryDir[Fallback(own)]
                   else if Usable(lastDir, onDisk) then lastDir
                   else Null
      ensures r.Path? ==> r.text != "" && onDisk(r.text)
      ensures var own := if 0 <= category < 19 then category else 0;
              var standIn := if own == 1 then 2 else if own == 2 then 1 else 0;
              var there := (s: Slot) => s.Path? && s.text != "" && onDisk(s.text);
              && (r == Null <==> !there(categoryDir[own]) && !there(categoryDir[standIn]) && !there(lastDir))
              && (there(categoryDir[own]) ==> r == categoryDir[own])
              && (!there(categoryDir[own]) && there(categoryDir[standIn]) ==> r == categoryDir[standIn])
    {
      var own := if 0 <= category < CAT_COUNT then category else CAT_GENERIC;
      var candidates := [categoryDir[own], categoryDir[Fallback(own)], lastDir];
      r := Null;
      for i := 0 to 3
        invariant r == if i > 0 && Usable(candidates[0], onDisk) then candidates[0]
                       else if i > 1 && Usable(candidates[1], onDisk) then candidates[1]
                       else if i > 2 && Usable(candidates[2], onDisk) then candidates[2]
                       else Null
      {
        if r == Null && Usable(candidates[i], onDisk) {
          r := candidates[i];
        }
      }
    }

    /** baseui_fchooser_lastdir_get_recent() */
    method GetRecent() returns (b: seq<string>)
      requires Valid() && Listed()
      ensures b == Recent() && |b| <= 10
    {
      b := [];
      var i := 0;
      while i < RECENT_MAX && recent[i] != Null
        invariant i <= RECENT_MAX && i <= |Recent()| && b == Recent()[..i]
      {
        b := b + [recent[i].text];
        i := i + 1;
      }
    }

    /** The inner loop: is the path among the first `dst` slots already? */
    method Occurs(dst: nat, p: string, ghost kept: seq<string>) returns (dup: bool)
      requires Valid() && dst == |kept| <= RECENT_MAX && forall j :: 0 <= j < dst ==> recent[j] == Path(kept[j])
      ensures dup <==> Holds(kept, p, eq)
    {
      dup := false;
      for j := 0 to dst
        invariant dup <==> exists l :: 0 <= l < j && eq(kept[l], p)
      {
        dup := dup || eq(recent[j].text, p);
      }
    }

    /** The compaction in baseui_fchooser_lastdir_config_init(), whatever was read from the file. */
    method Compact()
      requires Valid() && forall i :: 0 <= i < RECENT_MAX ==> recent[i] != Path("")
      modifies recent
      ensures Listed() && Recent() == Firsts(old(recent[..]), RECENT_MAX, eq)
    {
      ghost var slots := recent[..];
      var dst := 0;
      for i := 0 to RECENT_MAX
        invariant dst == |Kept(slots, i, eq)|
        invariant HalfWay(recent[..], slots, Kept(slots, i, eq), i)
      {
        ghost var now := recent[..];
        var p := recent[i];
        recent[i] := Null;
        if p != Null {
          var dup := Occurs(dst, p.text, Kept(slots, i, eq));
          if !dup {
            recent[dst] := p;
            dst := dst + 1;
          }
        }
        HalfWayStep(now, recent[..], slots, eq, i);
      }
      ghost var kept := Kept(slots, RECENT_MAX, eq);
      assert recent[..] == SlotsOf(kept, RECENT_MAX);
      ItemsOfSlots(kept, RECENT_MAX);
      KeptIsUnique(slots, RECENT_MAX, eq);
      KeptAreFirsts(slots, RECENT_MAX, eq);
      KeptIsNotEmpty(slots, RECENT_MAX, eq);
    }
  }
}
