/**
 How a saved PO file looks: one quoted line for each line of a string, and the
 lines of an entry in the order of the format (tools/i18n_translate.py,
 lines 147-206).
 */
module PoLayout {
  import opened PoStrings
  import opened PoFile
  import opened PoRoundTrip

  // ----- the lines of a string -----

  /** One quoted line for each part, with a line break at its end unless it is the last; none for an empty last part. */
  predicate Fits(lines: seq<string>, parts: seq<string>)
    decreases |parts|
  {
    if |parts| <= 1 then
      if parts == [] || parts[0] == [] then lines == [] else |lines| == 1 && Unquote(lines[0]) == Garbled(parts[0])
    else
      lines != [] && Unquote(lines[0]) == Garbled(parts[0]) + ['\n'] && Fits(lines[1..], parts[1..])
  }

  lemma {:induction false} FitsBefore(line: string, a: string, lines: seq<string>, parts: seq<string>)
    requires parts != [] && Fits(lines, parts) && Unquote(line) == Garbled(a) + ['\n']
    ensures Fits([line] + lines, [a] + parts)
  {
    assert ([line] + lines)[1..] == lines && ([a] + parts)[1..] == parts;
  }

  lemma {:induction false} ConsParts(e: string, parts: seq<string>)
    requires parts != []
    ensures PartLines([e] + parts) == ["\"" + e + "\\n\""] + PartLines(parts)
  {
    assert ([e] + parts)[1..] == parts;
  }

  lemma {:induction false} LastPartAt(s: string)
    requires OneLine(s)
    ensures Split(s, "\n") == [s]
    ensures var lines := PartLines(Split(Escaped(s), "\n"));
            if s == [] then lines == [] else |lines| == 1 && Unquote(lines[0]) == Garbled(s)
  {
    var e := Escaped(s);
    EscapedOneLine(s);
    SplitFirstLine([], s, []);
    SplitFirstLine([], e, []);
    assert [] + s == s && [] + e == e;
    if s != [] {
      EscapedNonempty(s);
      UnquoteQuoted(e);
      UnescapeLine(s, true);
      assert e + [] == e && Garbled(s) + [] == Garbled(s);
    }
  }

  lemma {:induction false} PartsFit(s: string)
    ensures Fits(PartLines(Split(Escaped(s), "\n")), Split(s, "\n"))
    decreases |s|
  {
    if OneLine(s) {
      LastPartAt(s);
    } else {
      var a, b := PoStrings.FirstLine(s);
      EscapedSplits(a, b);
      SplitFirstLine([], a, b);
      assert [] + a == a;
      InnerPartUnquotes(Escaped(a), a);
      PartsFit(b);
      ConsParts(Escaped(a), Split(Escaped(b), "\n"));
      FitsBefore("\"" + Escaped(a) + "\\n\"", a, PartLines(Split(Escaped(b), "\n")), Split(b, "\n"));
    }
  }

  /**
   A string of one line is written on one line. Any other starts with an empty quoted
   line, and then has one quoted line for each of its own.
   */
  lemma {:induction false} OneLineForEach(s: string)
    ensures if '\n' in s then QuoteLines(s)[0] == "\"\"" && Fits(QuoteLines(s)[1..], Split(s, "\n"))
            else |QuoteLines(s)| == 1 && Unquote(QuoteLines(s)[0]) == Garbled(s)
  {
    EscapeIsPerChar(s);
    EscapedOneLine(s);
    var e := Escaped(s);
    if '\n' in s {
      PartsFit(s);
      assert QuoteLines(s)[1..] == PartLines(Split(e, "\n"));
    } else {
      UnquoteQuoted(e);
      UnescapeLine(s, true);
      assert e + [] == e && Garbled(s) + [] == Garbled(s);
    }
  }

  // ----- the lines of an entry -----

  /** The place of a line in an entry: translator comments, references, flags, context, source, translation. */
  function Rank(line: string): nat {
    if StartsWith(line, "#. ") then 0
    else if StartsWith(line, "#: ") then 1
    else if StartsWith(line, "#, ") then 2
    else if StartsWith(line, "msgctxt ") then 3
    else if StartsWith(line, "msgid ") then 4
    else if StartsWith(line, "msgstr ") then 5
    else 6
  }

  /** Lines of one place, and continuation lines. */
  predicate OfRank(lines: seq<string>, r: nat) {
    forall i :: 0 <= i < |lines| ==> lines[i] != [] && (lines[i][0] == '"' || Rank(lines[i]) == r)
  }

  predicate InOrder(lines: seq<string>, r: nat) {
    && (forall i :: 0 <= i < |lines| ==> lines[i] != [] && (lines[i][0] == '"' || r <= Rank(lines[i]) <= 5))
    && (forall i, j :: 0 <= i < j < |lines| && lines[i][0] != '"' && lines[j][0] != '"' ==> Rank(lines[i]) <= Rank(lines[j]))
  }

  lemma OrderedAppends(a: seq<string>, b: seq<string>, r: nat)
    requires OfRank(a, r) && InOrder(b, r) && r <= 5
    ensures InOrder(a + b, r)
  {
  }

  lemma RankOfComment(rest: string)
    ensures Rank("#. " + rest) == 0 && Rank("#: " + rest) == 1 && Rank("#, " + rest) == 2
  {
    StartsWithPrefix("#. ", rest);
    StartsWithPrefix("#: ", rest);
    StartsWithPrefix("#, ", rest);
    DiffersAt("#: " + rest, "#. ", 1);
    DiffersAt("#, " + rest, "#. ", 1);
    DiffersAt("#, " + rest, "#: ", 1);
  }

  lemma RankOfKeyword(rest: string)
    ensures Rank("msgctxt " + rest) == 3 && Rank("msgid " + rest) == 4 && Rank("msgstr " + rest) == 5
  {
    StartsWithPrefix("msgctxt ", rest);
    StartsWithPrefix("msgid ", rest);
    StartsWithPrefix("msgstr ", rest);
    NotComment("msgctxt " + rest);
    NotComment("msgid " + rest);
    NotComment("msgstr " + rest);
    DiffersAt("msgid " + rest, "msgctxt ", 3);
    DiffersAt("msgstr " + rest, "msgctxt ", 3);
    DiffersAt("msgstr " + rest, "msgid ", 3);
  }

  lemma {:induction false} PrefixedRank(prefix: string, values: seq<string>, r: nat)
    requires prefix != [] && forall v {:trigger prefix + v} :: Rank(prefix + v) == r
    ensures OfRank(Prefixed(prefix, values), r)
  {
    if values != [] { PrefixedRank(prefix, values[1..], r); }
  }

  lemma KeyedRank(keyword: string, s: string, r: nat)
    requires keyword != [] && forall v {:trigger keyword + v} :: Rank(keyword + v) == r
    ensures OfRank(Keyed(keyword, s), r)
  {
    LinesOfQuote(s);
    var q := QuoteLines(s);
    assert Rank(keyword + q[0]) == r;
  }

  /** Every entry is written in the order of the format, with its continuation lines in between. */
  lemma EntryInOrder(e: Entry)
    ensures InOrder(EntryLines(e), 0)
  {
    forall v ensures Rank("#. " + v) == 0 && Rank("#: " + v) == 1 && Rank("#, " + v) == 2 { RankOfComment(v); }
    forall v ensures Rank("msgctxt " + v) == 3 && Rank("msgid " + v) == 4 && Rank("msgstr " + v) == 5 { RankOfKeyword(v); }
    PrefixedRank("#. ", e.translatorComments, 0);
    PrefixedRank("#: ", e.references, 1);
    KeyedRank("msgctxt ", e.msgctxt, 3);
    KeyedRank("msgid ", e.msgid, 4);
    KeyedRank("msgstr ", e.msgstr, 5);
    var d := Keyed("msgid ", e.msgid) + Keyed("msgstr ", e.msgstr);
    OrderedAppends(Keyed("msgid ", e.msgid), Keyed("msgstr ", e.msgstr), 4);
    OrderedAppends(CtxtLines(e.msgctxt), d, 3);
    OrderedAppends(FlagLines(e.flags), CtxtLines(e.msgctxt) + d, 2);
    OrderedAppends(Prefixed("#: ", e.references), FlagLines(e.flags) + (CtxtLines(e.msgctxt) + d), 1);
    OrderedAppends(Prefixed("#. ", e.translatorComments),
                   Prefixed("#: ", e.references) + (FlagLines(e.flags) + (CtxtLines(e.msgctxt) + d)), 0);
  }
}
