/**
 Quoting of strings for PO files (_quote and _unquote of tools/i18n_translate.py).
 Unescaping is four whole-string replacements one after the other; what they
 compute together is proved here for every string.
 */
module PoStrings {

  // ----- Python's string operations -----

  /** str.startswith(pat) */
  predicate StartsWith(s: string, pat: string) {
    |pat| <= |s| && s[..|pat|] == pat
  }

  /** str.replace(pat, rep): leftmost, non-overlapping. */
  function Replace(s: string, pat: string, rep: string): string
    requires pat != []
    decreases |s|
  {
    if s == [] then []
    else if StartsWith(s, pat) then rep + Replace(s[|pat|..], pat, rep)
    else [s[0]] + Replace(s[1..], pat, rep)
  }

  function SplitFrom(open: string, s: string, pat: string): (r: seq<string>)
    requires pat != []
    ensures r != []
    decreases |s|
  {
    if s == [] then [open]
    else if StartsWith(s, pat) then [open] + SplitFrom([], s[|pat|..], pat)
    else SplitFrom(open + [s[0]], s[1..], pat)
  }

  /** str.split(pat) */
  function Split(s: string, pat: string): seq<string>
    requires pat != []
  {
    SplitFrom([], s, pat)
  }

  /** pat.join(parts) */
  function Join(parts: seq<string>, pat: string): string {
    if parts == [] then []
    else if |parts| == 1 then parts[0]
    else parts[0] + pat + Join(parts[1..], pat)
  }

  /** str.isspace() of one character */
  predicate IsSpace(c: char) {
    || '\U{9}' <= c <= '\U{D}' || '\U{1C}' <= c <= ' ' || c == '\U{85}' || c == '\U{A0}' || c == '\U{1680}'
    || '\U{2000}' <= c <= '\U{200A}' || '\U{2028}' <= c <= '\U{2029}' || c == '\U{202F}' || c == '\U{205F}'
    || c == '\U{3000}'
  }

  /** str.strip() */
  function Strip(s: string): string
    decreases |s|
  {
    if s == [] then []
    else if IsSpace(s[0]) then Strip(s[1..])
    else if IsSpace(s[|s| - 1]) then Strip(s[..|s| - 1])
    else s
  }

  // ----- _quote and _unquote -----

  /** The three replacements of _quote. */
  function Escape(s: string): string {
    Replace(Replace(Replace(s, "\\", "\\\\"), "\"", "\\\""), "\t", "\\t")
  }

  /** The four replacements of _unquote, in their order. */
  function Unescape(s: string): string {
    Replace(Replace(Replace(Replace(s, "\\n", "\n"), "\\t", "\t"), "\\\"", "\""), "\\\\", "\\")
  }

  function Unquote(s: string): string {
    var t := Strip(s);
    Unescape(if |t| > 0 && t[0] == '"' && t[|t| - 1] == '"' then (if |t| == 1 then [] else t[1..|t| - 1]) else t)
  }

  /** The quoted lines of the parts of a string with line breaks. */
  function PartLines(parts: seq<string>): seq<string>
    requires parts != []
  {
    if |parts| == 1 then (if parts[0] == [] then [] else ["\"" + parts[0] + "\""])
    else ["\"" + parts[0] + "\\n\""] + PartLines(parts[1..])
  }

  /** The lines of _quote(s). */
  function QuoteLines(s: string): (r: seq<string>)
    ensures r != []
  {
    var e := Escape(s);
    if '\n' in e then ["\"\""] + PartLines(Split(e, "\n")) else ["\"" + e + "\""]
  }

  /** What the parser makes of the lines: it unquotes each and joins the results. */
  function UnquoteLines(lines: seq<string>): string {
    if lines == [] then [] else Unquote(lines[0]) + UnquoteLines(lines[1..])
  }

  // ----- what the round trip computes -----

  /** A backslash followed by the letter n or t: the four replacements misread it. */
  predicate Misread(s: string, i: nat) {
    i + 1 < |s| && s[i] == '\\' && (s[i + 1] == 'n' || s[i + 1] == 't')
  }

  /** The string with the letter of every such pair replaced by the control character. */
  function Garbled(s: string): string
    decreases |s|
  {
    if s == [] then []
    else if Misread(s, 0) then ['\\', if s[1] == 'n' then '\n' else '\t'] + Garbled(s[2..])
    else [s[0]] + Garbled(s[1..])
  }

  // ----- escaping is character by character -----

  function EscapeChar(c: char): string {
    if c == '\\' then "\\\\" else if c == '"' then "\\\"" else if c == '\t' then "\\t" else [c]
  }

  function Escaped(s: string): string {
    if s == [] then [] else EscapeChar(s[0]) + Escaped(s[1..])
  }

  lemma {:induction false} ReplaceOneAppends(a: string, b: string, c: char, rep: string)
    ensures Replace(a + b, [c], rep) == Replace(a, [c], rep) + Replace(b, [c], rep)
  {
    if a == [] {
      assert a + b == b;
    } else {
      assert (a + b)[1..] == a[1..] + b;
      assert (a + b)[..1] == a[..1] == [a[0]];
      ReplaceOneAppends(a[1..], b, c, rep);
    }
  }

  lemma {:induction false} ReplaceOne(x: char, c: char, rep: string)
    ensures Replace([x], [c], rep) == if x == c then rep else [x]
  {
    assert [x][1..] == [];
    assert [x][..1] == [x];
  }

  lemma {:induction false} ReplaceTwo(x: char, y: char, c: char, rep: string)
    requires x != c
    ensures Replace([x, y], [c], rep) == if y == c then [x] + rep else [x, y]
  {
    assert [x, y] == [x] + [y];
    ReplaceOneAppends([x], [y], c, rep);
    ReplaceOne(x, c, rep);
    ReplaceOne(y, c, rep);
  }

  lemma EscapeOne(c: char)
    ensures Escape([c]) == EscapeChar(c)
  {
    ReplaceOne(c, '\\', "\\\\");
    if c == '\\' {
      ReplaceTwo('\\', '\\', '"', "\\\"");
      ReplaceTwo('\\', '\\', '\t', "\\t");
    } else {
      ReplaceOne(c, '"', "\\\"");
      if c == '"' {
        ReplaceTwo('\\', '"', '\t', "\\t");
      } else {
        ReplaceOne(c, '\t', "\\t");
      }
    }
  }

  lemma {:induction false} EscapeIsPerChar(s: string)
    ensures Escape(s) == Escaped(s)
  {
    if s != [] {
      var c, rest := s[0], s[1..];
      assert s == [c] + rest;
      EscapeIsPerChar(rest);
      var one := Replace([c], "\\", "\\\\");
      ReplaceOneAppends([c], rest, '\\', "\\\\");
      var two := Replace(one, "\"", "\\\"");
      ReplaceOneAppends(one, Replace(rest, "\\", "\\\\"), '"', "\\\"");
      ReplaceOneAppends(two, Replace(Replace(rest, "\\", "\\\\"), "\"", "\\\""), '\t', "\\t");
      EscapeOne(c);
    }
  }

  // ----- the four replacements on an escaped line -----

  /** One step of a replacement of the pair `[a, b]`. */
  lemma {:induction false} ReplacePair(s: string, a: char, b: char, rep: string)
    requires s != []
    ensures Replace(s, [a, b], rep) ==
            if |s| > 1 && s[0] == a && s[1] == b then rep + Replace(s[2..], [a, b], rep)
            else [s[0]] + Replace(s[1..], [a, b], rep)
  {
    if |s| > 1 { assert s[..2] == [s[0], s[1]]; }
  }

  /** A backslash followed by the letter `c`. */
  predicate Slashed(s: string, c: char) {
    |s| > 1 && s[0] == '\\' && s[1] == c
  }

  /** An escaped line after the first `stage` replacements; `tail` is what became of a final \n. */
  function After(stage: nat, s: string, tail: string): string
    decreases |s|
  {
    if s == [] then tail
    else if stage >= 1 && Slashed(s, 'n') then "\\\n" + After(stage, s[2..], tail)
    else if stage >= 2 && Slashed(s, 't') then "\\\t" + After(stage, s[2..], tail)
    else
      (if (s[0] == '\t' && stage >= 2) || (s[0] == '"' && stage >= 3) || (s[0] == '\\' && stage >= 4)
       then [s[0]] else EscapeChar(s[0])) + After(stage, s[1..], tail)
  }

  lemma {:induction false} AfterNone(s: string, tail: string)
    ensures After(0, s, tail) == Escaped(s) + tail
  {
    if s != [] { AfterNone(s[1..], tail); }
  }

  lemma {:induction false} AfterMisread(s: string, tail: string, rest: string)
    requires s != [] && Misread(s, 0) && After(4, s[2..], tail) == rest + tail
    ensures After(4, s, tail) == ['\\', if s[1] == 'n' then '\n' else '\t'] + rest + tail
  {
    assert Slashed(s, s[1]);
    if s[1] == 'n' {
      assert After(4, s, tail) == "\\\n" + (rest + tail);
    } else {
      assert After(4, s, tail) == "\\\t" + (rest + tail);
    }
  }

  lemma {:induction false} AfterAll(s: string, tail: string)
    ensures After(4, s, tail) == Garbled(s) + tail
    decreases |s|
  {
    if s != [] {
      if Misread(s, 0) {
        AfterAll(s[2..], tail);
        AfterMisread(s, tail, Garbled(s[2..]));
      } else {
        AfterAll(s[1..], tail);
      }
    }
  }

  lemma {:induction false} SkipOne(c: char, rest: string, b: char, rep: string)
    requires c != '\\'
    ensures Replace([c] + rest, ['\\', b], rep) == [c] + Replace(rest, ['\\', b], rep)
  {
    ReplacePair([c] + rest, '\\', b, rep);
    assert ([c] + rest)[1..] == rest;
  }

  lemma {:induction false} SkipSlash(rest: string, b: char, rep: string)
    requires rest != [] ==> rest[0] != b
    ensures Replace(['\\'] + rest, ['\\', b], rep) == ['\\'] + Replace(rest, ['\\', b], rep)
  {
    ReplacePair(['\\'] + rest, '\\', b, rep);
    assert (['\\'] + rest)[1..] == rest;
  }

  lemma {:induction false} TakePair(rest: string, b: char, rep: string)
    ensures Replace(['\\', b] + rest, ['\\', b], rep) == rep + Replace(rest, ['\\', b], rep)
  {
    ReplacePair(['\\', b] + rest, '\\', b, rep);
    assert (['\\', b] + rest)[2..] == rest;
  }

  /** Two characters in front, the pattern in neither place. */
  lemma {:induction false} SkipTwo(x: char, y: char, rest: string, b: char, rep: string)
    requires x == '\\' ==> y != b
    requires y == '\\' && rest != [] ==> rest[0] != b
    ensures Replace([x, y] + rest, ['\\', b], rep) == [x, y] + Replace(rest, ['\\', b], rep)
  {
    assert [x, y] + rest == [x] + ([y] + rest);
    if y == '\\' { SkipSlash(rest, b, rep); } else { SkipOne(y, rest, b, rep); }
    if x == '\\' { SkipSlash([y] + rest, b, rep); } else { SkipOne(x, [y] + rest, b, rep); }
  }

  /** A backslash in front of a pair. */
  lemma {:induction false} SlashThenPair(rest: string, b: char, rep: string)
    requires b != '\\'
    ensures Replace(['\\', '\\', b] + rest, ['\\', b], rep) == ['\\'] + rep + Replace(rest, ['\\', b], rep)
  {
    assert ['\\', '\\', b] + rest == ['\\'] + (['\\', b] + rest);
    SkipSlash(['\\', b] + rest, b, rep);
    TakePair(rest, b, rep);
  }

  /** What a final \n of a line has become after each stage. */
  function TailAfter(stage: nat, last: bool): string {
    if last then [] else if stage == 0 then "\\n" else "\n"
  }

  lemma {:induction false} FirstOnSlashN(s: string, last: bool)
    requires Slashed(s, 'n')
    requires Replace(After(0, s[2..], TailAfter(0, last)), "\\n", "\n") == After(1, s[2..], TailAfter(1, last))
    ensures Replace(After(0, s, TailAfter(0, last)), "\\n", "\n") == After(1, s, TailAfter(1, last))
  {
    var rest := After(0, s[2..], TailAfter(0, last));
    assert s[1..][1..] == s[2..];
    assert After(0, s, TailAfter(0, last)) == ['\\', '\\', 'n'] + rest;
    SlashThenPair(rest, 'n', "\n");
  }

  lemma {:induction false} FirstReplacement(s: string, last: bool)
    ensures Replace(After(0, s, TailAfter(0, last)), "\\n", "\n") == After(1, s, TailAfter(1, last))
    decreases |s|
  {
    var tail := TailAfter(0, last);
    if s == [] {
      if !last { TakePair([], 'n', "\n"); assert ['\\', 'n'] + [] == tail; }
    } else {
      var c, rest := s[0], After(0, s[1..], tail);
      FirstReplacement(s[1..], last);
      if Slashed(s, 'n') {
        FirstReplacement(s[2..], last);
        FirstOnSlashN(s, last);
      } else if c == '\\' {
        SkipTwo('\\', '\\', rest, 'n', "\n");
      } else if c == '"' {
        SkipTwo('\\', '"', rest, 'n', "\n");
      } else if c == '\t' {
        SkipTwo('\\', 't', rest, 'n', "\n");
      } else {
        SkipOne(c, rest, 'n', "\n");
      }
    }
  }

  lemma {:induction false} SecondOnSlashT(s: string, last: bool)
    requires Slashed(s, 't')
    requires Replace(After(1, s[2..], TailAfter(1, last)), "\\t", "\t") == After(2, s[2..], TailAfter(2, last))
    ensures Replace(After(1, s, TailAfter(1, last)), "\\t", "\t") == After(2, s, TailAfter(2, last))
  {
    var rest := After(1, s[2..], TailAfter(1, last));
    assert s[1..][1..] == s[2..];
    assert After(1, s, TailAfter(1, last)) == ['\\', '\\', 't'] + rest;
    SlashThenPair(rest, 't', "\t");
  }

  lemma {:induction false} SecondReplacement(s: string, last: bool)
    ensures Replace(After(1, s, TailAfter(1, last)), "\\t", "\t") == After(2, s, TailAfter(2, last))
    decreases |s|
  {
    var tail := TailAfter(1, last);
    if s == [] {
      if !last { SkipOne('\n', [], 't', "\t"); assert ['\n'] + [] == tail; }
    } else {
      var c, rest := s[0], After(1, s[1..], tail);
      SecondReplacement(s[1..], last);
      if Slashed(s, 'n') {
        SkipTwo('\\', '\n', After(1, s[2..], tail), 't', "\t");
        SecondReplacement(s[2..], last);
      } else if Slashed(s, 't') {
        SecondReplacement(s[2..], last);
        SecondOnSlashT(s, last);
      } else if c == '\\' {
        SkipTwo('\\', '\\', rest, 't', "\t");
      } else if c == '"' {
        SkipTwo('\\', '"', rest, 't', "\t");
      } else if c == '\t' {
        TakePair(rest, 't', "\t");
      } else {
        SkipOne(c, rest, 't', "\t");
      }
    }
  }

  lemma {:induction false} ThirdReplacement(s: string, last: bool)
    ensures Replace(After(2, s, TailAfter(2, last)), "\\\"", "\"") == After(3, s, TailAfter(3, last))
    decreases |s|
  {
    var tail := TailAfter(2, last);
    if s == [] {
      if !last { SkipOne('\n', [], '"', "\""); assert ['\n'] + [] == tail; }
    } else {
      var c, rest := s[0], After(2, s[1..], tail);
      ThirdReplacement(s[1..], last);
      if Slashed(s, 'n') || Slashed(s, 't') {
        SkipTwo('\\', if s[1] == 'n' then '\n' else '\t', After(2, s[2..], tail), '"', "\"");
        ThirdReplacement(s[2..], last);
      } else if c == '\\' {
        SkipTwo('\\', '\\', rest, '"', "\"");
      } else if c == '"' {
        TakePair(rest, '"', "\"");
      } else {
        SkipOne(c, rest, '"', "\"");
      }
    }
  }

  lemma {:induction false} FourthReplacement(s: string, last: bool)
    ensures Replace(After(3, s, TailAfter(3, last)), "\\\\", "\\") == After(4, s, TailAfter(4, last))
    decreases |s|
  {
    var tail := TailAfter(3, last);
    if s == [] {
      if !last { SkipOne('\n', [], '\\', "\\"); assert ['\n'] + [] == tail; }
    } else {
      var c, rest := s[0], After(3, s[1..], tail);
      FourthReplacement(s[1..], last);
      if Slashed(s, 'n') || Slashed(s, 't') {
        SkipTwo('\\', if s[1] == 'n' then '\n' else '\t', After(3, s[2..], tail), '\\', "\\");
        FourthReplacement(s[2..], last);
      } else if c == '\\' {
        TakePair(rest, '\\', "\\");
      } else {
        SkipOne(c, rest, '\\', "\\");
      }
    }
  }

  /** Unescaping an escaped line garbles it and turns a final \n into a line break. */
  lemma {:induction false} UnescapeLine(s: string, last: bool)
    ensures Unescape(Escaped(s) + TailAfter(0, last)) == Garbled(s) + TailAfter(4, last)
  {
    AfterNone(s, TailAfter(0, last));
    FirstReplacement(s, last);
    SecondReplacement(s, last);
    ThirdReplacement(s, last);
    FourthReplacement(s, last);
    AfterAll(s, TailAfter(4, last));
  }

  // ----- the lines of a quoted string -----

  /** A quoted line survives strip() and loses exactly its quotes. */
  lemma UnquoteQuoted(x: string)
    ensures Unquote("\"" + x + "\"") == Unescape(x)
  {
    var q := "\"" + x + "\"";
    assert q[0] == '"' && q[|q| - 1] == '"';
    assert Strip(q) == q;
    assert q[1..|q| - 1] == x;
  }

  predicate OneLine(s: string) {
    '\n' !in s
  }

  /** Joining the parts of a string with line breaks. */
  lemma {:induction false} EscapedAppends(a: string, b: string)
    ensures Escaped(a + b) == Escaped(a) + Escaped(b)
  {
    if a == [] {
      assert a + b == b;
    } else {
      assert (a + b)[1..] == a[1..] + b;
      EscapedAppends(a[1..], b);
    }
  }

  /** A line break separates what the replacements see. */
  lemma {:induction false} GarbledAppends(a: string, b: string)
    ensures Garbled(a + ['\n'] + b) == Garbled(a) + ['\n'] + Garbled(b)
    decreases |a|
  {
    var s := a + ['\n'] + b;
    if a == [] {
      assert s == ['\n'] + b;
      assert s[1..] == b;
    } else if Misread(a, 0) {
      assert s[2..] == a[2..] + ['\n'] + b;
      GarbledAppends(a[2..], b);
    } else {
      assert |a| == 1 ==> s[1] == '\n';
      assert s[1..] == a[1..] + ['\n'] + b;
      GarbledAppends(a[1..], b);
    }
  }

  lemma {:induction false} SplitFirstLine(open: string, a: string, b: string)
    requires OneLine(a)
    ensures SplitFrom(open, a, "\n") == [open + a]
    ensures SplitFrom(open, a + ['\n'] + b, "\n") == [open + a] + SplitFrom([], b, "\n")
    decreases |a|
  {
    var s := a + ['\n'] + b;
    if a == [] {
      assert s == ['\n'] + b && s[..1] == ['\n'] && s[1..] == b;
      assert open + a == open;
    } else {
      assert s[..1] == a[..1] == [a[0]];
      assert s[1..] == a[1..] + ['\n'] + b;
      SplitFirstLine(open + [a[0]], a[1..], b);
      assert open + [a[0]] + a[1..] == open + a;
    }
  }

  /** The first line of a string and the rest after the line break. */
  lemma {:induction false} FirstLine(s: string) returns (a: string, b: string)
    requires '\n' in s
    ensures s == a + ['\n'] + b && OneLine(a)
  {
    if s[0] == '\n' {
      a, b := [], s[1..];
    } else {
      var a', b' := FirstLine(s[1..]);
      a, b := [s[0]] + a', b';
    }
  }

  lemma {:induction false} EscapedOneLine(s: string)
    ensures OneLine(Escaped(s)) <==> OneLine(s)
  {
    if s != [] { EscapedOneLine(s[1..]); }
  }

  lemma {:induction false} EscapedNonempty(s: string)
    requires s != []
    ensures Escaped(s) != []
  {
  }

  lemma UnquoteOne(line: string)
    ensures UnquoteLines([line]) == Unquote(line)
  {
    assert [line][1..] == [];
  }

  lemma {:induction false} LastPartUnquotes(s: string)
    requires OneLine(s)
    ensures UnquoteLines(PartLines(Split(Escaped(s), "\n"))) == Garbled(s)
  {
    var e := Escaped(s);
    EscapedOneLine(s);
    SplitFirstLine([], e, []);
    assert [] + e == e;
    if s != [] {
      EscapedNonempty(s);
      UnquoteOne("\"" + e + "\"");
      UnquoteQuoted(e);
      UnescapeLine(s, true);
      assert e + [] == e && Garbled(s) + [] == Garbled(s);
    }
  }

  /** The line of a part that is followed by others. */
  lemma {:induction false} InnerPartUnquotes(e: string, a: string)
    requires e == Escaped(a)
    ensures Unquote("\"" + e + "\\n\"") == Garbled(a) + ['\n']
  {
    assert "\"" + e + "\\n\"" == "\"" + (e + "\\n") + "\"";
    UnquoteQuoted(e + "\\n");
    UnescapeLine(a, false);
  }

  lemma {:induction false} EscapedAroundBreak(a: string, b: string)
    ensures Escaped(a + ['\n'] + b) == Escaped(a) + ['\n'] + Escaped(b)
  {
    EscapedAppends(a + ['\n'], b);
    EscapedAppends(a, ['\n']);
    assert ['\n'][1..] == [];
  }

  lemma {:induction false} EscapedSplits(a: string, b: string)
    requires OneLine(a)
    ensures Split(Escaped(a + ['\n'] + b), "\n") == [Escaped(a)] + Split(Escaped(b), "\n")
  {
    EscapedOneLine(a);
    EscapedAroundBreak(a, b);
    SplitFirstLine([], Escaped(a), Escaped(b));
    assert [] + Escaped(a) == Escaped(a);
  }

  lemma {:induction false} FirstPart(e: string, parts: seq<string>)
    requires parts != []
    ensures UnquoteLines(PartLines([e] + parts)) == Unquote("\"" + e + "\\n\"") + UnquoteLines(PartLines(parts))
  {
    assert ([e] + parts)[1..] == parts;
    var line := "\"" + e + "\\n\"";
    assert ([line] + PartLines(parts))[1..] == PartLines(parts);
  }

  lemma {:induction false} PartsUnquote(s: string)
    ensures UnquoteLines(PartLines(Split(Escaped(s), "\n"))) == Garbled(s)
    decreases |s|
  {
    if OneLine(s) {
      LastPartUnquotes(s);
    } else {
      var a, b := FirstLine(s);
      EscapedSplits(a, b);
      PartsUnquote(b);
      GarbledAppends(a, b);
      InnerPartUnquotes(Escaped(a), a);
      FirstPart(Escaped(a), Split(Escaped(b), "\n"));
    }
  }

  /** What quoting and unquoting computes, for every string. */
  lemma {:induction false} QuoteThenUnquote(s: string)
    ensures UnquoteLines(QuoteLines(s)) == Garbled(s)
  {
    EscapeIsPerChar(s);
    EscapedOneLine(s);
    var e := Escaped(s);
    if '\n' in e {
      var more := PartLines(Split(e, "\n"));
      PartsUnquote(s);
      assert "\"\"" == "\"" + [] + "\"";
      UnquoteQuoted([]);
      assert UnquoteLines(["\"\""] + more) == Unquote("\"\"") + UnquoteLines(more);
    } else {
      UnquoteOne("\"" + e + "\"");
      UnquoteQuoted(e);
      UnescapeLine(s, true);
      assert e + [] == e && Garbled(s) + [] == Garbled(s);
    }
  }

  /** Index by index: only a letter n or t right after a backslash changes. */
  lemma {:induction false} GarbledAt(s: string, i: nat)
    requires i < |s|
    ensures |Garbled(s)| == |s|
    ensures Garbled(s)[i] == if i > 0 && Misread(s, i - 1) then (if s[i] == 'n' then '\n' else '\t') else s[i]
    decreases |s|
  {
    if Misread(s, 0) {
      if |s| > 2 { GarbledAt(s[2..], if i >= 2 then i - 2 else 0); }
    } else {
      if |s| > 1 { GarbledAt(s[1..], if i >= 1 then i - 1 else 0); }
    }
  }

  /**
   A string survives quoting and unquoting if and only if it has no backslash
   directly followed by the letter n or t.
   */
  lemma RoundTripIff(s: string)
    ensures UnquoteLines(QuoteLines(s)) == s <==> forall i: nat :: !Misread(s, i)
  {
    QuoteThenUnquote(s);
    if exists i: nat :: Misread(s, i) {
      var i: nat :| Misread(s, i);
      GarbledAt(s, i + 1);
    } else {
      forall i: nat | i < |s| ensures |Garbled(s)| == |s| && Garbled(s)[i] == s[i] {
        GarbledAt(s, i);
      }
    }
  }
}
