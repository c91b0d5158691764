/**
 The list of recently used directories as values: what one use does to it, what
 it is after any history of uses, and what loading makes of a slot array
 (src/baseui/baseui_fchooser_lastdir.c). `eq` is the comparison of paths; it
 ignores case on some platforms.
 */
module RecentDirs {

  const RECENT_MAX: nat := 10

  ghost predicate Equivalence(eq: (string, string) -> bool) {
    && (forall a :: eq(a, a))
    && (forall a, b :: eq(a, b) ==> eq(b, a))
    && (forall a, b, c :: eq(a, b) && eq(b, c) ==> eq(a, c))
  }

  /** Two different paths cannot both be equal to `d`. */
  lemma Apart(a: string, b: string, d: string, eq: (string, string) -> bool)
    requires Equivalence(eq) && eq(a, d) && !eq(a, b)
    ensures !eq(b, d) && !eq(d, b)
  {
  }

  lemma Symmetric(a: string, b: string, eq: (string, string) -> bool)
    requires Equivalence(eq)
    ensures eq(a, b) <==> eq(b, a)
  {
  }

  ghost predicate NoDuplicates(s: seq<string>, eq: (string, string) -> bool) {
    forall i, j :: 0 <= i < j < |s| ==> !eq(s[i], s[j])
  }

  /** The list without the entries equal to `d`. */
  function Without(s: seq<string>, d: string, eq: (string, string) -> bool): (r: seq<string>)
    ensures |r| <= |s|
  {
    if s == [] then []
    else Without(s[..|s| - 1], d, eq) + if eq(s[|s| - 1], d) then [] else [s[|s| - 1]]
  }

  function Cut(s: seq<string>): seq<string> {
    if |s| <= RECENT_MAX then s else s[..RECENT_MAX]
  }

  /** One use of `d`: to the front, older equal entries out, the tenth may fall off. */
  function Pushed(d: string, s: seq<string>, eq: (string, string) -> bool): seq<string> {
    Cut([d] + Without(s, d, eq))
  }

  // ----- facts about Without -----

  lemma {:induction false} WithoutAll(s: seq<string>, d: string, eq: (string, string) -> bool)
    requires forall i :: 0 <= i < |s| ==> !eq(s[i], d)
    ensures Without(s, d, eq) == s
  {
    if s != [] { WithoutAll(s[..|s| - 1], d, eq); }
  }

  lemma {:induction false} WithoutConcat(s: seq<string>, u: seq<string>, d: string, eq: (string, string) -> bool)
    ensures Without(s + u, d, eq) == Without(s, d, eq) + Without(u, d, eq)
  {
    if u == [] {
      assert s + u == s && Without(s, d, eq) + [] == Without(s, d, eq);
    } else {
      WithoutConcat(s, u[..|u| - 1], d, eq);
      assert (s + u)[..|s + u| - 1] == s + u[..|u| - 1];
    }
  }

  /** In a duplicate-free list only one entry can be equal to `d`. */
  lemma OnlyOneEqual(s: seq<string>, d: string, eq: (string, string) -> bool, at: nat, i: nat)
    requires Equivalence(eq) && NoDuplicates(s, eq) && at < |s| && i < |s| && i != at && eq(s[at], d)
    ensures !eq(s[i], d) && !eq(d, s[i])
  {
    Symmetric(s[i], s[at], eq);
    Apart(s[at], s[i], d, eq);
  }

  lemma {:induction false} SplitOut(a: seq<string>, x: string, b: seq<string>, d: string, eq: (string, string) -> bool)
    requires eq(x, d)
    requires forall i :: 0 <= i < |a| ==> !eq(a[i], d)
    requires forall i :: 0 <= i < |b| ==> !eq(b[i], d)
    ensures Without(a + [x] + b, d, eq) == a + b
  {
    WithoutConcat(a + [x], b, d, eq);
    WithoutConcat(a, [x], d, eq);
    WithoutAll(a, d, eq);
    WithoutAll(b, d, eq);
    assert Without([x], d, eq) == [] by { assert [x][..0] == []; }
    assert a + [] == a;
  }

  lemma {:induction false} WithoutAt(s: seq<string>, d: string, eq: (string, string) -> bool, at: nat)
    requires at < |s| && eq(s[at], d) && forall i :: 0 <= i < |s| && i != at ==> !eq(s[i], d)
    ensures Without(s, d, eq) == s[..at] + s[at + 1..]
  {
    assert s == s[..at] + [s[at]] + s[at + 1..];
    SplitOut(s[..at], s[at], s[at + 1..], d, eq);
  }

  /** Without that one entry the list closes up. */
  lemma {:induction false} WithoutOne(s: seq<string>, d: string, eq: (string, string) -> bool, at: nat)
    requires Equivalence(eq) && NoDuplicates(s, eq) && at < |s| && eq(s[at], d)
    ensures Without(s, d, eq) == s[..at] + s[at + 1..]
  {
    forall i | 0 <= i < |s| && i != at ensures !eq(s[i], d) {
      OnlyOneEqual(s, d, eq, at, i);
    }
    WithoutAt(s, d, eq, at);
  }

  /** Every entry but the one at `at` stays. */
  function Skipping(j: nat, at: nat): nat {
    if j < at then j else j + 1
  }

  lemma {:induction false} PushedIsUnique(d: string, s: seq<string>, eq: (string, string) -> bool)
    requires Equivalence(eq) && NoDuplicates(s, eq)
    ensures NoDuplicates([d] + Without(s, d, eq), eq)
  {
    var r := [d] + Without(s, d, eq);
    if at: nat :| at < |s| && eq(s[at], d) {
      WithoutOne(s, d, eq, at);
      forall i, j | 0 <= i < j < |r| ensures !eq(r[i], r[j]) {
        assert r[j] == s[Skipping(j - 1, at)];
        if i == 0 {
          OnlyOneEqual(s, d, eq, at, Skipping(j - 1, at));
        } else {
          assert r[i] == s[Skipping(i - 1, at)];
        }
      }
    } else {
      WithoutAll(s, d, eq);
      forall i, j | 0 <= i < j < |r| ensures !eq(r[i], r[j]) {
        if i == 0 { Symmetric(s[j - 1], d, eq); }
      }
    }
  }

  // ----- any history of uses -----

  /** The list after the uses `h`, from an empty one. */
  function After(h: seq<string>, eq: (string, string) -> bool): seq<string> {
    if h == [] then [] else Pushed(h[|h| - 1], After(h[..|h| - 1], eq), eq)
  }

  /** Nothing equal to h[i] is used later. */
  predicate IsLastUse(h: seq<string>, i: nat, eq: (string, string) -> bool)
    requires i < |h|
  {
    forall j :: i < j < |h| ==> !eq(h[j], h[i])
  }

  /** The last uses among the first `n` uses, newest first. */
  function LastUses(h: seq<string>, n: nat, eq: (string, string) -> bool): seq<string>
    requires n <= |h|
  {
    if n == 0 then []
    else (if IsLastUse(h, n - 1, eq) then [h[n - 1]] else []) + LastUses(h, n - 1, eq)
  }

  lemma LastUseStep(h: seq<string>, d: string, i: nat, eq: (string, string) -> bool)
    requires i < |h|
    ensures IsLastUse(h + [d], i, eq) <==> IsLastUse(h, i, eq) && !eq(d, h[i])
  {
    var g := h + [d];
    assert g[|h|] == d;
    if IsLastUse(g, i, eq) {
      forall j | i < j < |h| ensures !eq(h[j], h[i]) { assert g[j] == h[j]; }
    }
  }

  lemma {:induction false} WithoutHead(x: string, keep: bool, rest: seq<string>, d: string,
                                       eq: (string, string) -> bool)
    ensures Without((if keep then [x] else []) + rest, d, eq)
            == (if keep && !eq(x, d) then [x] else []) + Without(rest, d, eq)
  {
    if keep {
      WithoutConcat([x], rest, d, eq);
      assert [x][..0] == [];
    } else {
      assert [] + rest == rest;
    }
  }

  lemma {:induction false} LastUsesStep(h: seq<string>, d: string, n: nat, eq: (string, string) -> bool)
    requires n <= |h|
    requires forall i :: 0 <= i < |h| ==> (eq(d, h[i]) <==> eq(h[i], d))
    ensures LastUses(h + [d], n, eq) == Without(LastUses(h, n, eq), d, eq)
  {
    if n > 0 {
      var x := h[n - 1];
      LastUsesStep(h, d, n - 1, eq);
      LastUseStep(h, d, n - 1, eq);
      WithoutHead(x, IsLastUse(h, n - 1, eq), LastUses(h, n - 1, eq), d, eq);
      var keep := IsLastUse(h, n - 1, eq) && !eq(x, d);
      assert LastUses(h + [d], n, eq) == (if keep then [x] else []) + LastUses(h + [d], n - 1, eq);
    }
  }

  lemma {:induction false} CutWithoutNone(s: seq<string>, d: string, eq: (string, string) -> bool)
    requires forall i :: 0 <= i < |s| ==> !eq(s[i], d)
    ensures Cut([d] + Without(Cut(s), d, eq)) == Cut([d] + Without(s, d, eq))
  {
    WithoutAll(s, d, eq);
    WithoutAll(Cut(s), d, eq);
  }

  lemma CutsAgree(s: seq<string>, d: string, at: nat)
    requires at < |s|
    ensures var u := Cut(s);
            Cut([d] + if at < |u| then u[..at] + u[at + 1..] else u) == Cut([d] + (s[..at] + s[at + 1..]))
  {
  }

  lemma {:induction false} CutWithoutAt(s: seq<string>, d: string, eq: (string, string) -> bool, at: nat)
    requires at < |s| && eq(s[at], d) && forall i :: 0 <= i < |s| && i != at ==> !eq(s[i], d)
    ensures Cut([d] + Without(Cut(s), d, eq)) == Cut([d] + Without(s, d, eq))
  {
    WithoutAt(s, d, eq, at);
    if at < |Cut(s)| {
      WithoutAt(Cut(s), d, eq, at);
    } else {
      WithoutAll(Cut(s), d, eq);
    }
    CutsAgree(s, d, at);
  }

  /** Entries that have fallen off would not come back. */
  lemma {:induction false} CutWithout(s: seq<string>, d: string, eq: (string, string) -> bool)
    requires Equivalence(eq) && NoDuplicates(s, eq)
    ensures Cut([d] + Without(Cut(s), d, eq)) == Cut([d] + Without(s, d, eq))
  {
    if at: nat :| at < |s| && eq(s[at], d) {
      forall i | 0 <= i < |s| && i != at ensures !eq(s[i], d) {
        OnlyOneEqual(s, d, eq, at, i);
      }
      CutWithoutAt(s, d, eq, at);
    } else {
      CutWithoutNone(s, d, eq);
    }
  }

  lemma {:induction false} StepOfLastUses(g: seq<string>, d: string, eq: (string, string) -> bool)
    requires Equivalence(eq)
    ensures LastUses(g + [d], |g| + 1, eq) == [d] + Without(LastUses(g, |g|, eq), d, eq)
  {
    forall i | 0 <= i < |g| ensures eq(d, g[i]) <==> eq(g[i], d) { Symmetric(d, g[i], eq); }
    LastUsesStep(g, d, |g|, eq);
  }

  lemma {:induction false} LastUsesUnique(h: seq<string>, eq: (string, string) -> bool)
    requires Equivalence(eq)
    ensures NoDuplicates(LastUses(h, |h|, eq), eq)
  {
    if h != [] {
      var g, d := h[..|h| - 1], h[|h| - 1];
      LastUsesUnique(g, eq);
      StepOfLastUses(g, d, eq);
      assert g + [d] == h;
      PushedIsUnique(d, LastUses(g, |g|, eq), eq);
    }
  }

  /**
   After any history the list is the ten most recently used directories: each one
   once, ordered by its last use.
   */
  lemma {:induction false} AfterIsMostRecent(h: seq<string>, eq: (string, string) -> bool)
    requires Equivalence(eq)
    ensures After(h, eq) == Cut(LastUses(h, |h|, eq)) && NoDuplicates(After(h, eq), eq)
    ensures var all := LastUses(h, |h|, eq); After(h, eq) == all[..if |all| < 10 then |all| else 10]
  {
    LastUsesUnique(h, eq);
    if h != [] {
      var g, d := h[..|h| - 1], h[|h| - 1];
      AfterIsMostRecent(g, eq);
      LastUsesUnique(g, eq);
      CutWithout(LastUses(g, |g|, eq), d, eq);
      StepOfLastUses(g, d, eq);
      assert g + [d] == h;
    }
  }

  // ----- slots -----

  datatype Slot = Null | Path(text: string)

  /** The paths up to the first empty slot. */
  function Items(slots: seq<Slot>): (r: seq<string>)
    ensures |r| <= |slots|
  {
    if slots == [] || slots[0] == Null then [] else [slots[0].text] + Items(slots[1..])
  }

  /** The list in an array of `n` slots, the rest empty. */
  function SlotsOf(s: seq<string>, n: nat): (r: seq<Slot>)
    requires |s| <= n
    ensures |r| == n
  {
    seq(n, i requires 0 <= i < n => if i < |s| then Path(s[i]) else Null)
  }

  lemma {:induction false} ItemsOfSlots(s: seq<string>, n: nat)
    requires |s| <= n
    ensures Items(SlotsOf(s, n)) == s
  {
    if s == [] {
    } else {
      ItemsOfSlots(s[1..], n - 1);
      assert SlotsOf(s, n)[1..] == SlotsOf(s[1..], n - 1);
    }
  }

  // ----- loading -----

  predicate Holds(s: seq<string>, p: string, eq: (string, string) -> bool) {
    exists i :: 0 <= i < |s| && eq(s[i], p)
  }

  /** What the compaction keeps of the first `n` slots. */
  function Kept(slots: seq<Slot>, n: nat, eq: (string, string) -> bool): (r: seq<string>)
    requires n <= |slots|
    ensures |r| <= n
  {
    if n == 0 then []
    else
      var before := Kept(slots, n - 1, eq);
      if slots[n - 1] == Null || Holds(before, slots[n - 1].text, eq) then before else before + [slots[n - 1].text]
  }

  /** The first slot with a path equal to it. */
  predicate IsFirst(slots: seq<Slot>, i: nat, eq: (string, string) -> bool)
    requires i < |slots|
  {
    slots[i].Path? && forall j :: 0 <= j < i && slots[j].Path? ==> !eq(slots[j].text, slots[i].text)
  }

  function Firsts(slots: seq<Slot>, n: nat, eq: (string, string) -> bool): seq<string>
    requires n <= |slots|
  {
    if n == 0 then []
    else Firsts(slots, n - 1, eq) + if IsFirst(slots, n - 1, eq) then [slots[n - 1].text] else []
  }

  lemma {:induction false} KeptHoldsAll(slots: seq<Slot>, n: nat, eq: (string, string) -> bool, p: string)
    requires Equivalence(eq) && n <= |slots|
    ensures Holds(Kept(slots, n, eq), p, eq) <==> exists j :: 0 <= j < n && slots[j].Path? && eq(slots[j].text, p)
  {
    if n > 0 {
      KeptHoldsAll(slots, n - 1, eq, p);
      var before, r := Kept(slots, n - 1, eq), Kept(slots, n, eq);
      if slots[n - 1].Path? {
        var last := slots[n - 1].text;
        if Holds(before, last, eq) {
          if eq(last, p) {
            var i :| 0 <= i < |before| && eq(before[i], last);
            assert eq(before[i], p);
          }
        } else {
          assert r[|before|] == last;
          if Holds(before, p, eq) {
            var i :| 0 <= i < |before| && eq(before[i], p);
            assert eq(r[i], p);
          }
        }
      }
    }
  }

  /** The compaction keeps the first of equal paths, in order, whatever the slots were. */
  lemma {:induction false} KeptAreFirsts(slots: seq<Slot>, n: nat, eq: (string, string) -> bool)
    requires Equivalence(eq) && n <= |slots|
    ensures Kept(slots, n, eq) == Firsts(slots, n, eq)
  {
    if n > 0 {
      KeptAreFirsts(slots, n - 1, eq);
      if slots[n - 1].Path? { KeptHoldsAll(slots, n - 1, eq, slots[n - 1].text); }
      assert Firsts(slots, n - 1, eq) + [] == Firsts(slots, n - 1, eq);
    }
  }

  lemma {:induction false} KeptIsUnique(slots: seq<Slot>, n: nat, eq: (string, string) -> bool)
    requires n <= |slots|
    ensures NoDuplicates(Kept(slots, n, eq), eq)
  {
    if n > 0 { KeptIsUnique(slots, n - 1, eq); }
  }

  /** A list that was saved is loaded as it was. */
  lemma {:induction false} KeptOfList(s: seq<string>, m: nat, n: nat, eq: (string, string) -> bool)
    requires Equivalence(eq) && NoDuplicates(s, eq) && |s| <= m && n <= m
    ensures Kept(SlotsOf(s, m), n, eq) == if n <= |s| then s[..n] else s
  {
    if n > 0 {
      KeptOfList(s, m, n - 1, eq);
    }
  }

  // ----- the INI file -----

  /** The text written for a slot, and the slot of a text that was read. */
  function TextOf(s: Slot): string {
    if s == Null then "" else s.text
  }

  function SlotOf(text: string): Slot {
    if text == "" then Null else Path(text)
  }

  /** Saving a list of at most `m` directories and loading it gives the list back. */
  lemma {:induction false} SaveThenLoad(s: seq<string>, m: nat, loaded: seq<Slot>, eq: (string, string) -> bool)
    requires Equivalence(eq) && NoDuplicates(s, eq) && "" !in s && |s| <= m && |loaded| == m
    requires forall i :: 0 <= i < m ==> loaded[i] == SlotOf(TextOf(SlotsOf(s, m)[i]))
    ensures Firsts(loaded, m, eq) == s
  {
    forall i | 0 <= i < m ensures loaded[i] == SlotsOf(s, m)[i] {
      if i < |s| { assert s[i] in s; }
    }
    assert loaded == SlotsOf(s, m);
    KeptOfList(s, m, m, eq);
    KeptAreFirsts(loaded, m, eq);
  }
}
