/**
 What POFile.parse reads from the text POFile.save has written.
 */
module PoRoundTrip {
  import opened PoStrings
  import opened PoFile

  // ----- folding over lines -----

  lemma {:induction false} ReadLinesAppends(r: Reader, a: seq<string>, b: seq<string>)
    ensures ReadLines(r, a + b) == ReadLines(ReadLines(r, a), b)
    decreases |a|
  {
    if a == [] {
      assert a + b == b;
    } else {
      assert (a + b)[1..] == a[1..] + b;
      ReadLinesAppends(ReadLine(r, a[0]), a[1..], b);
    }
  }

  lemma StartsWithPrefix(prefix: string, rest: string)
    ensures StartsWith(prefix + rest, prefix) && (prefix + rest)[|prefix|..] == rest
  {
  }

  lemma {:induction false} ReadOne(r: Reader, line: string)
    ensures ReadLines(r, [line]) == ReadLine(r, line)
  {
    assert [line][1..] == [];
  }

  lemma PrefixAgrees(line: string, pat: string, i: nat)
    requires StartsWith(line, pat) && i < |pat|
    ensures line[i] == pat[i]
  {
    assert line[..|pat|][i] == line[i];
  }

  lemma DiffersAt(line: string, pat: string, i: nat)
    requires i < |pat| && i < |line| && line[i] != pat[i]
    ensures !StartsWith(line, pat)
  {
    if StartsWith(line, pat) { PrefixAgrees(line, pat, i); }
  }

  /** A line that does not start with the comment sign passes all the comment tests. */
  lemma NotComment(line: string)
    requires line != [] && line[0] != '#'
    ensures !StartsWith(line, "#, ") && !StartsWith(line, "#: ") && !StartsWith(line, "#. ") && !StartsWith(line, "#~ ")
    ensures !StartsWith(line, "# ") && !StartsWith(line, "#")
  {
    DiffersAt(line, "#, ", 0);
    DiffersAt(line, "#: ", 0);
    DiffersAt(line, "#. ", 0);
    DiffersAt(line, "#~ ", 0);
    DiffersAt(line, "# ", 0);
    DiffersAt(line, "#", 0);
  }

  // ----- comment lines -----

  lemma {:induction false} ReadTranslatorComments(e: Entry, k: Key, values: seq<string>)
    ensures ReadLines(Reader(e, k), Prefixed("#. ", values)) ==
            Reader(e.(translatorComments := e.translatorComments + values), k)
    decreases |values|
  {
    if values == [] {
      assert e.translatorComments + values == e.translatorComments;
    } else {
      var line := "#. " + values[0];
      StartsWithPrefix("#. ", values[0]);
      DiffersAt(line, "#, ", 1);
      DiffersAt(line, "#: ", 1);
      var e' := e.(translatorComments := e.translatorComments + [values[0]]);
      ReadTranslatorComments(e', k, values[1..]);
      assert e'.translatorComments + values[1..] == e.translatorComments + values;
      assert Prefixed("#. ", values)[1..] == Prefixed("#. ", values[1..]);
    }
  }

  lemma {:induction false} ReadReferences(e: Entry, k: Key, values: seq<string>)
    ensures ReadLines(Reader(e, k), Prefixed("#: ", values)) ==
            Reader(e.(references := e.references + values), k)
    decreases |values|
  {
    if values == [] {
      assert e.references + values == e.references;
    } else {
      var line := "#: " + values[0];
      StartsWithPrefix("#: ", values[0]);
      DiffersAt(line, "#, ", 1);
      var e' := e.(references := e.references + [values[0]]);
      ReadReferences(e', k, values[1..]);
      assert e'.references + values[1..] == e.references + values;
      assert Prefixed("#: ", values)[1..] == Prefixed("#: ", values[1..]);
    }
  }

  // ----- flags -----

  /** No ", " inside: the separator of the flag line. */
  predicate Unseparated(flag: string) {
    forall i :: 0 <= i < |flag| - 1 ==> !(flag[i] == ',' && flag[i + 1] == ' ')
  }

  lemma UnseparatedTail(flag: string)
    requires Unseparated(flag) && flag != []
    ensures Unseparated(flag[1..])
  {
    forall i | 0 <= i < |flag[1..]| - 1 ensures !(flag[1..][i] == ',' && flag[1..][i + 1] == ' ') {
      assert flag[1..][i] == flag[i + 1] && flag[1..][i + 1] == flag[i + 2];
    }
  }

  lemma {:induction false} SplitStep(open: string, s: string)
    requires s != []
    ensures |s| > 1 && s[0] == ',' && s[1] == ' ' ==> SplitFrom(open, s, ", ") == [open] + SplitFrom([], s[2..], ", ")
    ensures !(|s| > 1 && s[0] == ',' && s[1] == ' ') ==> SplitFrom(open, s, ", ") == SplitFrom(open + [s[0]], s[1..], ", ")
  {
    if |s| > 1 { assert s[..2] == [s[0], s[1]]; }
  }

  /** A flag ends at the separator that follows it and nowhere before. */
  lemma {:induction false} SplitFirstFlag(open: string, flag: string, rest: string)
    requires Unseparated(flag)
    ensures SplitFrom(open, flag + ", " + rest, ", ") == [open + flag] + SplitFrom([], rest, ", ")
    ensures SplitFrom(open, flag, ", ") == [open + flag]
    decreases |flag|
  {
    var s := flag + ", " + rest;
    SplitStep(open, s);
    if flag == [] {
      assert s == ", " + rest && s[2..] == rest;
      assert open + flag == open;
    } else {
      UnseparatedTail(flag);
      SplitFirstFlag(open + [flag[0]], flag[1..], rest);
      SplitStep(open, flag);
      assert s[1..] == flag[1..] + ", " + rest;
      assert s[1] == (if |flag| > 1 then flag[1] else ',');
      assert open + [flag[0]] + flag[1..] == open + flag;
    }
  }

  lemma {:induction false} FlagsSplit(flags: seq<string>)
    requires flags != [] && forall i :: 0 <= i < |flags| ==> Unseparated(flags[i])
    ensures Split(Join(flags, ", "), ", ") == flags
  {
    assert [] + flags[0] == flags[0];
    if |flags| == 1 {
      SplitFirstFlag([], flags[0], []);
    } else {
      FlagsSplit(flags[1..]);
      SplitFirstFlag([], flags[0], Join(flags[1..], ", "));
    }
  }

  lemma {:induction false} ReadFlags(e: Entry, k: Key, flags: seq<string>)
    requires forall i :: 0 <= i < |flags| ==> Unseparated(flags[i])
    requires e.flags == [] && !e.isFuzzy
    ensures ReadLines(Reader(e, k), FlagLines(flags)) == Reader(e.(flags := flags, isFuzzy := "fuzzy" in flags), k)
  {
    if flags != [] {
      var line := "#, " + Join(flags, ", ");
      StartsWithPrefix("#, ", Join(flags, ", "));
      ReadOne(Reader(e, k), line);
      FlagsSplit(flags);
    }
  }

  // ----- strings -----

  lemma ReadQuoted(r: Reader, line: string)
    requires Quoted(line)
    ensures ReadLine(r, line) == r.(entry := Continued(r.entry, r.key, Unquote(line)))
  {
    NotComment(line);
    DiffersAt(line, "msgctxt ", 0);
    DiffersAt(line, "msgid ", 0);
    DiffersAt(line, "msgstr ", 0);
    assert line[..1] == "\"";
  }

  lemma ContinuedTwice(e: Entry, k: Key, a: string, b: string)
    ensures Continued(Continued(e, k, a), k, b) == Continued(e, k, a + b)
  {
    assert e.msgctxt + a + b == e.msgctxt + (a + b);
    assert e.msgid + a + b == e.msgid + (a + b);
    assert e.msgstr + a + b == e.msgstr + (a + b);
  }

  lemma ContinuedByNothing(e: Entry, k: Key)
    ensures Continued(e, k, []) == e
  {
    assert e.msgctxt + [] == e.msgctxt && e.msgid + [] == e.msgid && e.msgstr + [] == e.msgstr;
  }

  lemma {:induction false} ReadContinuation(e: Entry, k: Key, lines: seq<string>)
    requires AllQuoted(lines)
    ensures ReadLines(Reader(e, k), lines) == Reader(Continued(e, k, UnquoteLines(lines)), k)
    decreases |lines|
  {
    if lines == [] {
      ContinuedByNothing(e, k);
    } else {
      var v := Unquote(lines[0]);
      ReadQuoted(Reader(e, k), lines[0]);
      ReadContinuation(Continued(e, k, v), k, lines[1..]);
      ContinuedTwice(e, k, v, UnquoteLines(lines[1..]));
    }
  }

  function Keyword(k: Key): string {
    match k
    case NoKey => ""
    case CtxtKey => "msgctxt "
    case IdKey => "msgid "
    case StrKey => "msgstr "
  }

  /** The entry with the string of a key set anew. */
  function Assigned(e: Entry, k: Key, value: string): Entry {
    match k
    case NoKey => e
    case CtxtKey => e.(msgctxt := value)
    case IdKey => e.(msgid := value)
    case StrKey => e.(msgstr := value)
  }

  lemma ReadKeyword(r: Reader, k: Key, q: string)
    requires k != NoKey
    ensures ReadLine(r, Keyword(k) + q) == Reader(Assigned(r.entry, k, Unquote(q)), k)
  {
    var line := Keyword(k) + q;
    StartsWithPrefix(Keyword(k), q);
    NotComment(line);
    match k
    case CtxtKey =>
    case IdKey => DiffersAt(line, "msgctxt ", 3);
    case StrKey =>
      DiffersAt(line, "msgctxt ", 3);
      DiffersAt(line, "msgid ", 3);
  }

  lemma AssignedThenContinued(e: Entry, k: Key, a: string, b: string)
    ensures Continued(Assigned(e, k, a), k, b) == if k == NoKey then e else Assigned(e, k, a + b)
  {
  }

  /** The lines of one keyword give back the garbled string. */
  lemma {:induction false} ReadKeyed(r: Reader, k: Key, s: string)
    requires k != NoKey
    ensures ReadLines(r, Keyed(Keyword(k), s)) == Reader(Assigned(r.entry, k, Garbled(s)), k)
  {
    var q := QuoteLines(s);
    LinesOfQuote(s);
    ReadKeyword(r, k, q[0]);
    ReadContinuation(Assigned(r.entry, k, Unquote(q[0])), k, q[1..]);
    QuoteThenUnquote(s);
    assert Keyed(Keyword(k), s)[1..] == q[1..];
    AssignedThenContinued(r.entry, k, Unquote(q[0]), UnquoteLines(q[1..]));
  }

  // ----- one entry -----

  predicate Plain(s: string) {
    '\n' !in s && '\r' !in s
  }

  /** What may be written so that it can be read: the conditions on comments and flags, and no CR anywhere. */
  predicate Savable(e: Entry) {
    && e.msgid != ""
    && (forall i :: 0 <= i < |e.references| ==> Plain(e.references[i]))
    && (forall i :: 0 <= i < |e.translatorComments| ==> Plain(e.translatorComments[i]))
    && (forall i :: 0 <= i < |e.flags| ==> Plain(e.flags[i]) && Unseparated(e.flags[i]))
    && '\r' !in e.msgctxt && '\r' !in e.msgid && '\r' !in e.msgstr
  }

  /** The entry that is read back. */
  function Reread(e: Entry): Entry {
    Entry([], e.references, e.flags, e.translatorComments,
          Garbled(e.msgctxt), Garbled(e.msgid), Garbled(e.msgstr), "fuzzy" in e.flags, false)
  }

  lemma {:induction false} ReadStrings(e3: Entry, e: Entry)
    requires e3.msgctxt == ""
    ensures ReadLines(Reader(e3, NoKey), CtxtLines(e.msgctxt) + (Keyed("msgid ", e.msgid) + Keyed("msgstr ", e.msgstr))).entry
            == e3.(msgctxt := Garbled(e.msgctxt), msgid := Garbled(e.msgid), msgstr := Garbled(e.msgstr))
  {
    var r3 := Reader(e3, NoKey);
    ReadLinesAppends(r3, CtxtLines(e.msgctxt), Keyed("msgid ", e.msgid) + Keyed("msgstr ", e.msgstr));
    if e.msgctxt != "" { ReadKeyed(r3, CtxtKey, e.msgctxt); }
    var r4 := ReadLines(r3, CtxtLines(e.msgctxt));
    ReadLinesAppends(r4, Keyed("msgid ", e.msgid), Keyed("msgstr ", e.msgstr));
    ReadKeyed(r4, IdKey, e.msgid);
    ReadKeyed(ReadLines(r4, Keyed("msgid ", e.msgid)), StrKey, e.msgstr);
  }

  lemma ReadEntryLines(e: Entry)
    requires Savable(e)
    ensures ReadLines(Reader(NEW_ENTRY, NoKey), EntryLines(e)).entry == Reread(e)
  {
    var l6 := Keyed("msgstr ", e.msgstr);
    var l5 := Keyed("msgid ", e.msgid) + l6;
    var l4 := CtxtLines(e.msgctxt) + l5;
    var l3 := FlagLines(e.flags) + l4;
    var l2 := Prefixed("#: ", e.references) + l3;
    var r0 := Reader(NEW_ENTRY, NoKey);
    ReadLinesAppends(r0, Prefixed("#. ", e.translatorComments), l2);
    ReadTranslatorComments(NEW_ENTRY, NoKey, e.translatorComments);
    var e1 := NEW_ENTRY.(translatorComments := [] + e.translatorComments);
    ReadLinesAppends(Reader(e1, NoKey), Prefixed("#: ", e.references), l3);
    ReadReferences(e1, NoKey, e.references);
    var e2 := e1.(references := [] + e.references);
    ReadLinesAppends(Reader(e2, NoKey), FlagLines(e.flags), l4);
    ReadFlags(e2, NoKey, e.flags);
    var e3 := e2.(flags := e.flags, isFuzzy := "fuzzy" in e.flags);
    ReadStrings(e3, e);
    assert [] + e.translatorComments == e.translatorComments && [] + e.references == e.references;
  }

  // ----- the blocks are solid -----

  predicate FirstVisible(lines: seq<string>) {
    lines != [] ==> lines[0] != [] && !IsSpace(lines[0][0])
  }

  lemma {:induction false} PrefixedClean(prefix: string, values: seq<string>)
    requires Clean(prefix) && !IsSpace(prefix[0]) && forall i :: 0 <= i < |values| ==> Plain(values[i])
    ensures AllClean(Prefixed(prefix, values)) && FirstVisible(Prefixed(prefix, values))
  {
    if values != [] { PrefixedClean(prefix, values[1..]); }
  }

  lemma {:induction false} JoinPlain(values: seq<string>, pat: string)
    requires Plain(pat) && forall i :: 0 <= i < |values| ==> Plain(values[i])
    ensures Plain(Join(values, pat))
  {
    if |values| > 1 { JoinPlain(values[1..], pat); }
  }

  lemma {:induction false} EscapedNoCr(s: string)
    requires '\r' !in s
    ensures '\r' !in Escaped(s)
  {
    if s != [] { EscapedNoCr(s[1..]); }
  }

  predicate AllPlain(lines: seq<string>) {
    forall i :: 0 <= i < |lines| ==> Plain(lines[i])
  }

  /** Splitting at line breaks leaves none. */
  lemma {:induction false} SplitPlain(open: string, s: string)
    requires Plain(open) && '\r' !in s
    ensures AllPlain(SplitFrom(open, s, "\n"))
    decreases |s|
  {
    if s != [] {
      assert s[..1] == [s[0]];
      if s[0] == '\n' {
        SplitPlain([], s[1..]);
      } else {
        SplitPlain(open + [s[0]], s[1..]);
      }
    }
  }

  lemma {:induction false} PartLinesClean(parts: seq<string>)
    requires parts != [] && AllPlain(parts)
    ensures AllClean(PartLines(parts))
  {
    if |parts| > 1 { PartLinesClean(parts[1..]); }
  }

  lemma QuoteLinesClean(s: string)
    requires '\r' !in s
    ensures AllClean(QuoteLines(s))
  {
    var e := Escape(s);
    EscapeIsPerChar(s);
    EscapedNoCr(s);
    if '\n' in e {
      SplitPlain([], e);
      PartLinesClean(Split(e, "\n"));
    }
  }

  lemma KeyedClean(keyword: string, s: string)
    requires Clean(keyword) && !IsSpace(keyword[0]) && '\r' !in s
    ensures var lines := Keyed(keyword, s);
            AllClean(lines) && lines != [] && FirstVisible(lines)
            && var last := lines[|lines| - 1]; last != [] && last[|last| - 1] == '"'
  {
    var q := QuoteLines(s);
    QuoteLinesClean(s);
    LinesOfQuote(s);
    var lines := Keyed(keyword, s);
    assert forall i :: 1 <= i < |lines| ==> lines[i] == q[i];
  }

  lemma CommentsClean(e: Entry)
    requires Savable(e)
    ensures AllClean(Prefixed("#. ", e.translatorComments)) && FirstVisible(Prefixed("#. ", e.translatorComments))
    ensures AllClean(Prefixed("#: ", e.references)) && FirstVisible(Prefixed("#: ", e.references))
  {
    PrefixedClean("#. ", e.translatorComments);
    PrefixedClean("#: ", e.references);
  }

  lemma CtxtClean(e: Entry)
    requires Savable(e)
    ensures AllClean(CtxtLines(e.msgctxt)) && FirstVisible(CtxtLines(e.msgctxt))
  {
    if e.msgctxt != "" { KeyedClean("msgctxt ", e.msgctxt); }
  }

  lemma IdClean(e: Entry)
    requires Savable(e)
    ensures AllClean(Keyed("msgid ", e.msgid)) && FirstVisible(Keyed("msgid ", e.msgid))
  {
    KeyedClean("msgid ", e.msgid);
  }

  lemma StrClean(e: Entry)
    requires Savable(e)
    ensures var y := Keyed("msgstr ", e.msgstr);
            AllClean(y) && y != [] && y[|y| - 1][|y[|y| - 1]| - 1] == '"'
  {
    KeyedClean("msgstr ", e.msgstr);
  }

  lemma FirstVisibleAppends(a: seq<string>, b: seq<string>)
    requires FirstVisible(a) && (a == [] ==> FirstVisible(b)) && b != []
    ensures FirstVisible(a + b) && a + b != []
  {
  }

  lemma CleanSix(a: seq<string>, b: seq<string>, c: seq<string>, d: seq<string>, x: seq<string>, y: seq<string>)
    requires AllClean(a) && AllClean(b) && AllClean(c) && AllClean(d) && AllClean(x) && AllClean(y) && y != []
    ensures var all := a + (b + (c + (d + (x + y))));
            AllClean(all) && all != [] && all[|all| - 1] == y[|y| - 1]
  {
  }

  lemma SolidSix(a: seq<string>, b: seq<string>, c: seq<string>, d: seq<string>, x: seq<string>, y: seq<string>)
    requires AllClean(a) && AllClean(b) && AllClean(c) && AllClean(d) && AllClean(x) && AllClean(y)
    requires FirstVisible(a) && FirstVisible(b) && FirstVisible(c) && FirstVisible(d) && FirstVisible(x)
    requires x != [] && y != [] && y[|y| - 1][|y[|y| - 1]| - 1] == '"'
    ensures Solid(a + (b + (c + (d + (x + y)))))
  {
    FirstVisibleAppends(x, y);
    FirstVisibleAppends(d, x + y);
    FirstVisibleAppends(c, d + (x + y));
    FirstVisibleAppends(b, c + (d + (x + y)));
    FirstVisibleAppends(a, b + (c + (d + (x + y))));
    CleanSix(a, b, c, d, x, y);
  }

  lemma FlagsClean(flags: seq<string>)
    requires AllPlain(flags)
    ensures AllClean(FlagLines(flags)) && FirstVisible(FlagLines(flags))
  {
    JoinPlain(flags, ", ");
  }

  /** No content can make a line of an entry empty, break it, or start or end the block with space. */
  lemma EntrySolid(e: Entry)
    requires Savable(e)
    ensures Solid(EntryLines(e))
  {
    CommentsClean(e);
    FlagsClean(e.flags);
    CtxtClean(e);
    IdClean(e);
    StrClean(e);
    SolidSix(Prefixed("#. ", e.translatorComments), Prefixed("#: ", e.references), FlagLines(e.flags),
             CtxtLines(e.msgctxt), Keyed("msgid ", e.msgid), Keyed("msgstr ", e.msgstr));
  }

  lemma {:induction false} HeaderValuesClean(fields: seq<string>)
    requires AllPlain(fields)
    ensures AllClean(HeaderValues(fields)) && AllQuoted(HeaderValues(fields)) && |HeaderValues(fields)| == |fields|
  {
    if fields != [] { HeaderValuesClean(fields[1..]); }
  }

  lemma SolidHeader(values: seq<string>)
    requires AllClean(values) && AllQuoted(values) && values != []
    ensures Solid(["msgid \"\"", "msgstr \"\""] + values)
  {
    var block := ["msgid \"\"", "msgstr \"\""] + values;
    assert block[|block| - 1] == values[|values| - 1];
  }

  /** The fields of the header that can be written: at least one, each on one line. */
  predicate SavableHeader(fields: seq<string>) {
    fields != [] && AllPlain(fields)
  }

  lemma {:induction false} HeaderSolid(fields: seq<string>)
    requires SavableHeader(fields)
    ensures Solid(HeaderLines(fields)) && AllQuoted(HeaderValues(fields))
  {
    HeaderValuesClean(fields);
    SolidHeader(HeaderValues(fields));
  }

  // ----- the header -----

  lemma {:induction false} ReplaceNonempty(s: string, pat: string, rep: string)
    requires s != [] && pat != [] && rep != []
    ensures Replace(s, pat, rep) != []
  {
  }

  lemma UnescapeNonempty(s: string)
    requires s != []
    ensures Unescape(s) != []
  {
    ReplaceNonempty(s, "\\n", "\n");
    var a := Replace(s, "\\n", "\n");
    ReplaceNonempty(a, "\\t", "\t");
    var b := Replace(a, "\\t", "\t");
    ReplaceNonempty(b, "\\\"", "\"");
    ReplaceNonempty(Replace(b, "\\\"", "\""), "\\\\", "\\");
  }

  lemma UnquoteEmpty()
    ensures Unquote("\"\"") == ""
  {
    assert "\"\"" == "\"" + [] + "\"";
    UnquoteQuoted([]);
  }

  lemma {:induction false} ReadTwo(r: Reader, a: string, b: string)
    ensures ReadLines(r, [a, b]) == ReadLine(ReadLine(r, a), b)
  {
    assert [a, b][1..] == [b];
    ReadOne(ReadLine(r, a), b);
  }

  /** The header block is read as the header: it has no msgid and its msgstr is the joined values. */
  lemma {:induction false} ReadHeader(values: seq<string>)
    requires AllQuoted(values)
    ensures var e := ReadLines(Reader(NEW_ENTRY, NoKey), ["msgid \"\"", "msgstr \"\""] + values).entry;
            e == NEW_ENTRY.(msgstr := UnquoteLines(values))
  {
    var r0 := Reader(NEW_ENTRY, NoKey);
    UnquoteEmpty();
    assert Keyword(IdKey) + "\"\"" == "msgid \"\"" && Keyword(StrKey) + "\"\"" == "msgstr \"\"";
    ReadKeyword(r0, IdKey, "\"\"");
    var r1 := ReadLine(r0, "msgid \"\"");
    ReadKeyword(r1, StrKey, "\"\"");
    var r2 := ReadLine(r1, "msgstr \"\"");
    ReadLinesAppends(r0, ["msgid \"\"", "msgstr \"\""], values);
    ReadTwo(r0, "msgid \"\"", "msgstr \"\"");
    ReadContinuation(r2.entry, StrKey, values);
    assert [] + UnquoteLines(values) == UnquoteLines(values);
  }

  lemma {:induction false} HeaderNonempty(fields: seq<string>)
    requires fields != []
    ensures UnquoteLines(HeaderValues(fields)) != ""
  {
    UnquoteQuoted(fields[0] + "\\n");
    UnescapeNonempty(fields[0] + "\\n");
  }

  // ----- the file -----

  function RereadAll(es: seq<Entry>): seq<Entry> {
    if es == [] then [] else [Reread(es[0])] + RereadAll(es[1..])
  }

  predicate AllSavable(es: seq<Entry>) {
    forall i :: 0 <= i < |es| ==> Savable(es[i])
  }

  lemma {:induction false} EntryBlocksSolid(es: seq<Entry>)
    requires AllSavable(es)
    ensures AllSolid(EntryBlocks(es))
  {
    if es != [] {
      EntrySolid(es[0]);
      EntryBlocksSolid(es[1..]);
    }
  }

  lemma ReadSavedEntry(e: Entry)
    requires Savable(e)
    ensures ReadEntry(Join(EntryLines(e), "\n")) == Reread(e)
    ensures Garbled(e.msgid) != ""
  {
    EntrySolid(e);
    SplitJoined(EntryLines(e));
    ReadEntryLines(e);
    GarbledAt(e.msgid, 0);
  }

  predicate ReadsAs(block: seq<string>, e: Entry) {
    ReadEntry(Join(block, "\n")) == e && e.msgid != "" && !e.isObsolete
  }

  /** Each block is read as the entry it was written for. */
  ghost predicate Reads(blocks: seq<seq<string>>, es: seq<Entry>) {
    |blocks| == |es| && forall i :: 0 <= i < |es| ==> ReadsAs(blocks[i], Reread(es[i]))
  }

  lemma {:induction false} EntryBlocksRead(es: seq<Entry>)
    requires AllSavable(es)
    ensures Reads(EntryBlocks(es), es)
  {
    if es != [] {
      ReadSavedEntry(es[0]);
      EntryBlocksRead(es[1..]);
    }
  }

  lemma {:induction false} ReadBlocksStep(f: File, block: string, blocks: seq<string>)
    ensures ReadBlocks(f, [block] + blocks) == ReadBlocks(AddEntry(f, ReadEntry(block)), blocks)
  {
    assert ([block] + blocks)[1..] == blocks;
  }

  lemma {:induction false} ReadSavedEntries(f: File, blocks: seq<seq<string>>, es: seq<Entry>)
    requires Reads(blocks, es)
    ensures ReadBlocks(f, Joined(blocks)) == File(f.header, f.entries + RereadAll(es))
    decreases |es|
  {
    if es == [] {
      assert f.entries + RereadAll(es) == f.entries;
    } else {
      assert ReadsAs(blocks[0], Reread(es[0]));
      ReadBlocksStep(f, Join(blocks[0], "\n"), Joined(blocks[1..]));
      ReadSavedEntries(File(f.header, f.entries + [Reread(es[0])]), blocks[1..], es[1..]);
      assert f.entries + [Reread(es[0])] + RereadAll(es[1..]) == f.entries + RereadAll(es);
    }
  }

  lemma {:induction false} JoinedStep(block: seq<string>, blocks: seq<seq<string>>)
    ensures Joined([block] + blocks) == [Join(block, "\n")] + Joined(blocks)
    ensures Joined([block] + blocks)[1..] == Joined(blocks)
  {
    assert ([block] + blocks)[1..] == blocks;
  }

  lemma HeadedSolid(head: seq<string>, blocks: seq<seq<string>>)
    requires Solid(head) && AllSolid(blocks)
    ensures AllSolid([head] + blocks)
  {
  }

  lemma {:induction false} ReadFile(head: seq<string>, header: string, blocks: seq<seq<string>>, es: seq<Entry>)
    requires Solid(head) && AllSolid(blocks) && Reads(blocks, es)
    requires AddEntry(File("", []), ReadEntry(Join(head, "\n"))) == File(header, [])
    ensures ParseText(BlockTexts([head] + blocks)) == File(header, RereadAll(es))
  {
    HeadedSolid(head, blocks);
    TextOfBlocks([head] + blocks);
    JoinedStep(head, blocks);
    ReadBlocksStep(File("", []), Join(head, "\n"), Joined(blocks));
    ReadSavedEntries(File(header, []), blocks, es);
    assert [] + RereadAll(es) == RereadAll(es);
  }

  lemma {:induction false} ReadHeaderBlock(fields: seq<string>)
    requires SavableHeader(fields)
    ensures AddEntry(File("", []), ReadEntry(Join(HeaderLines(fields), "\n")))
            == File(UnquoteLines(HeaderValues(fields)), [])
  {
    HeaderSolid(fields);
    SplitJoined(HeaderLines(fields));
    ReadHeader(HeaderValues(fields));
    HeaderNonempty(fields);
  }

  /**
   Reading what was written, exactly: the header and, in order, every entry with
   its context, references, flags and translator comments, and with its strings
   garbled where they have a backslash followed by n or t. No string can end a
   line or a block early.
   */
  lemma {:induction false} ParseOfSave(fields: seq<string>, es: seq<Entry>)
    requires SavableHeader(fields) && AllSavable(es)
    ensures ParseText(SaveText(fields, es)) == File(UnquoteLines(HeaderValues(fields)), RereadAll(es))
  {
    HeaderSolid(fields);
    EntryBlocksSolid(es);
    ReadHeaderBlock(fields);
    EntryBlocksRead(es);
    ReadFile(HeaderLines(fields), UnquoteLines(HeaderValues(fields)), EntryBlocks(es), es);
  }

  // ----- the text of the header -----

  lemma {:induction false} NothingToReplace(s: string, b: char, rep: string)
    requires '\\' !in s
    ensures Replace(s, ['\\', b], rep) == s
  {
    if s != [] {
      NothingToReplace(s[1..], b, rep);
      SkipOne(s[0], s[1..], b, rep);
      assert [s[0]] + s[1..] == s;
    }
  }

  lemma {:induction false} ReplaceAtEnd(s: string, b: char, rep: string)
    requires '\\' !in s
    ensures Replace(s + ['\\', b], ['\\', b], rep) == s + rep
  {
    if s == [] {
      TakePair([], b, rep);
      assert s + ['\\', b] == ['\\', b] + [];
    } else {
      ReplaceAtEnd(s[1..], b, rep);
      SkipOne(s[0], s[1..] + ['\\', b], b, rep);
      assert [s[0]] + (s[1..] + ['\\', b]) == s + ['\\', b];
      assert [s[0]] + (s[1..] + rep) == s + rep;
    }
  }

  lemma FieldIsRead(field: string)
    requires '\\' !in field
    ensures Unquote(HeaderValue(field)) == field + "\n"
  {
    UnquoteQuoted(field + "\\n");
    ReplaceAtEnd(field, 'n', "\n");
    var line := field + "\n";
    NothingToReplace(line, 't', "\t");
    NothingToReplace(line, '"', "\"");
    NothingToReplace(line, '\\', "\\");
  }

  /** Each field on a line of its own. */
  function FieldText(fields: seq<string>): string {
    if fields == [] then "" else fields[0] + "\n" + FieldText(fields[1..])
  }

  lemma {:induction false} FieldsAreRead(fields: seq<string>)
    requires forall i :: 0 <= i < |fields| ==> '\\' !in fields[i]
    ensures UnquoteLines(HeaderValues(fields)) == FieldText(fields)
  {
    if fields != [] {
      FieldIsRead(fields[0]);
      FieldsAreRead(fields[1..]);
      assert HeaderValues(fields)[1..] == HeaderValues(fields[1..]);
    }
  }

  /** The header of a saved file is read back as its fields, one to a line. */
  lemma {:induction false} HeaderOfSave(fields: seq<string>, es: seq<Entry>)
    requires SavableHeader(fields) && AllSavable(es)
    requires forall i :: 0 <= i < |fields| ==> '\\' !in fields[i]
    ensures ParseText(SaveText(fields, es)).header == FieldText(fields)
  {
    ParseOfSave(fields, es);
    FieldsAreRead(fields);
  }

  // ----- the entries -----

  /** The fields of an entry that are written. */
  predicate SameEntry(e: Entry, e': Entry) {
    && e.references == e'.references && e.flags == e'.flags && e.translatorComments == e'.translatorComments
    && e.msgctxt == e'.msgctxt && e.msgid == e'.msgid && e.msgstr == e'.msgstr
  }

  ghost predicate Faithful(s: string) {
    forall i: nat :: !Misread(s, i)
  }

  lemma {:induction false} GarbledIff(s: string)
    ensures Garbled(s) == s <==> Faithful(s)
  {
    QuoteThenUnquote(s);
    RoundTripIff(s);
  }

  lemma {:induction false} RereadAllAt(es: seq<Entry>, i: nat)
    requires i < |es|
    ensures |RereadAll(es)| == |es| && RereadAll(es)[i] == Reread(es[i])
  {
    if i > 0 { RereadAllAt(es[1..], i - 1); } else if |es| > 1 { RereadAllAt(es[1..], 0); }
  }

  /**
   A saved list of entries is read back unchanged if and only if none of its
   strings has a backslash directly followed by the letter n or t.
   */
  lemma SaveThenParseIff(fields: seq<string>, es: seq<Entry>)
    requires SavableHeader(fields) && AllSavable(es)
    ensures var read := ParseText(SaveText(fields, es)).entries;
            && |read| == |es|
            && ((forall i :: 0 <= i < |es| ==> SameEntry(read[i], es[i])) <==>
                (forall i :: 0 <= i < |es| ==> Faithful(es[i].msgctxt) && Faithful(es[i].msgid) && Faithful(es[i].msgstr)))
  {
    ParseOfSave(fields, es);
    var read := RereadAll(es);
    if es != [] { RereadAllAt(es, 0); }
    forall i | 0 <= i < |es|
      ensures SameEntry(read[i], es[i]) <==> Faithful(es[i].msgctxt) && Faithful(es[i].msgid) && Faithful(es[i].msgstr)
    {
      RereadAllAt(es, i);
      GarbledIff(es[i].msgctxt);
      GarbledIff(es[i].msgid);
      GarbledIff(es[i].msgstr);
    }
  }
}
