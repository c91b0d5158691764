/**
 Reading and writing whole PO files (POFile.parse and POFile.save of
 tools/i18n_translate.py), on the text of the file.
 */
module PoFile {
  import opened PoStrings

  datatype Entry = Entry(
    comments: seq<string>,
    references: seq<string>,
    flags: seq<string>,
    translatorComments: seq<string>,
    msgctxt: string,
    msgid: string,
    msgstr: string,
    isFuzzy: bool,
    isObsolete: bool)

  const NEW_ENTRY := Entry([], [], [], [], "", "", "", false, false)

  /** The key the continuation lines of a block belong to. */
  datatype Key = NoKey | CtxtKey | IdKey | StrKey

  datatype Reader = Reader(entry: Entry, key: Key)

  datatype File = File(header: string, entries: seq<Entry>)

  // ----- reading -----

  /** Text mode: CR LF and CR are read as LF. */
  function UniversalNewlines(t: string): string
    decreases |t|
  {
    if t == [] then []
    else if t[0] == '\r' then ['\n'] + UniversalNewlines(if |t| > 1 && t[1] == '\n' then t[2..] else t[1..])
    else [t[0]] + UniversalNewlines(t[1..])
  }

  /** The position of the first blank line, or the length. */
  function BreakAt(t: string): (k: nat)
    ensures k <= |t|
    ensures k < |t| ==> t[k] == '\n'
  {
    if |t| < 2 then |t| else if t[0] == '\n' && t[1] == '\n' then 0 else 1 + BreakAt(t[1..])
  }

  function DropBreaks(t: string): (r: string)
    ensures |r| <= |t| && (t != [] && t[0] == '\n' ==> |r| < |t|)
  {
    if t != [] && t[0] == '\n' then DropBreaks(t[1..]) else t
  }

  /** re.split(r'\n\n+', t) */
  function Blocks(t: string): seq<string>
    decreases |t|
  {
    var k := BreakAt(t);
    if k == |t| then [t] else [t[..k]] + Blocks(DropBreaks(t[k..]))
  }

  function Continued(e: Entry, key: Key, value: string): Entry {
    match key
    case NoKey => e
    case CtxtKey => e.(msgctxt := e.msgctxt + value)
    case IdKey => e.(msgid := e.msgid + value)
    case StrKey => e.(msgstr := e.msgstr + value)
  }

  /** One line of a block, in the order of the tests of the parser. */
  function ReadLine(r: Reader, line: string): Reader {
    var e := r.entry;
    if StartsWith(line, "#, ") then
      var flags := Split(line[3..], ", ");
      r.(entry := e.(flags := flags, isFuzzy := "fuzzy" in flags))
    else if StartsWith(line, "#: ") then r.(entry := e.(references := e.references + [line[3..]]))
    else if StartsWith(line, "#. ") then r.(entry := e.(translatorComments := e.translatorComments + [line[3..]]))
    else if StartsWith(line, "#~ ") then r.(entry := e.(isObsolete := true))
    else if StartsWith(line, "# ") then r.(entry := e.(comments := e.comments + [line[2..]]))
    else if StartsWith(line, "#") then r.(entry := e.(comments := e.comments + [line[1..]]))
    else if StartsWith(line, "msgctxt ") then Reader(e.(msgctxt := Unquote(line[8..])), CtxtKey)
    else if StartsWith(line, "msgid ") then Reader(e.(msgid := Unquote(line[6..])), IdKey)
    else if StartsWith(line, "msgstr ") then Reader(e.(msgstr := Unquote(line[7..])), StrKey)
    else if StartsWith(line, "\"") then r.(entry := Continued(e, r.key, Unquote(line)))
    else r
  }

  function ReadLines(r: Reader, lines: seq<string>): Reader
    decreases |lines|
  {
    if lines == [] then r else ReadLines(ReadLine(r, lines[0]), lines[1..])
  }

  function ReadEntry(block: string): Entry {
    ReadLines(Reader(NEW_ENTRY, NoKey), Split(block, "\n")).entry
  }

  /** An entry without msgid is the header; obsolete entries are dropped. */
  function AddEntry(f: File, e: Entry): File {
    if e.msgid == "" && e.msgstr != "" then f.(header := e.msgstr)
    else if e.msgid != "" && !e.isObsolete then f.(entries := f.entries + [e])
    else f
  }

  function ReadBlocks(f: File, blocks: seq<string>): File
    decreases |blocks|
  {
    if blocks == [] then f else ReadBlocks(AddEntry(f, ReadEntry(blocks[0])), blocks[1..])
  }

  function ParseText(text: string): File {
    ReadBlocks(File("", []), Blocks(Strip(UniversalNewlines(text))))
  }

  // ----- writing -----

  /** A field of the header as a quoted line ending with an escaped line break. */
  function HeaderValue(field: string): string {
    "\"" + (field + "\\n") + "\""
  }

  function HeaderValues(fields: seq<string>): seq<string> {
    if fields == [] then [] else [HeaderValue(fields[0])] + HeaderValues(fields[1..])
  }

  /** The lines _make_header() writes, for the fields of the header ("Language: cs" and so on). */
  function HeaderLines(fields: seq<string>): seq<string> {
    ["msgid \"\"", "msgstr \"\""] + HeaderValues(fields)
  }

  /** Each line followed by a line feed. */
  function Terminated(lines: seq<string>): string {
    if lines == [] then [] else lines[0] + "\n" + Terminated(lines[1..])
  }

  function Prefixed(prefix: string, values: seq<string>): seq<string> {
    if values == [] then [] else [prefix + values[0]] + Prefixed(prefix, values[1..])
  }

  /** A keyword followed by the quoted lines of its string. */
  function Keyed(keyword: string, s: string): seq<string> {
    var q := QuoteLines(s);
    [keyword + q[0]] + q[1..]
  }

  function FlagLines(flags: seq<string>): seq<string> {
    if flags == [] then [] else ["#, " + Join(flags, ", ")]
  }

  function CtxtLines(msgctxt: string): seq<string> {
    if msgctxt == "" then [] else Keyed("msgctxt ", msgctxt)
  }

  function EntryLines(e: Entry): seq<string> {
    Prefixed("#. ", e.translatorComments)
    + (Prefixed("#: ", e.references)
       + (FlagLines(e.flags)
          + (CtxtLines(e.msgctxt)
             + (Keyed("msgid ", e.msgid) + Keyed("msgstr ", e.msgstr)))))
  }

  function BlockTexts(blocks: seq<seq<string>>): string {
    if blocks == [] then [] else Terminated(blocks[0]) + "\n" + BlockTexts(blocks[1..])
  }

  function EntryBlocks(es: seq<Entry>): seq<seq<string>> {
    if es == [] then [] else [EntryLines(es[0])] + EntryBlocks(es[1..])
  }

  function SaveText(fields: seq<string>, es: seq<Entry>): string {
    BlockTexts([HeaderLines(fields)] + EntryBlocks(es))
  }

  // ----- terminated lines -----

  lemma {:induction false} TerminatedAppends(a: seq<string>, b: seq<string>)
    ensures Terminated(a + b) == Terminated(a) + Terminated(b)
  {
    if a == [] {
      assert a + b == b;
    } else {
      assert (a + b)[1..] == a[1..] + b;
      TerminatedAppends(a[1..], b);
    }
  }

  lemma {:induction false} TerminatedJoin(lines: seq<string>)
    requires lines != []
    ensures Terminated(lines) == Join(lines, "\n") + "\n"
  {
    if |lines| > 1 {
      TerminatedJoin(lines[1..]);
    } else {
      assert lines[1..] == [];
    }
  }

  lemma OneTerminated(line: string)
    ensures Terminated([line]) == line + "\n"
  {
    assert [line][1..] == [];
  }

  lemma {:induction false} WriteNext(written: string, a: seq<string>, rest: seq<string>)
    ensures written + Terminated(a + rest) == (written + Terminated(a)) + Terminated(rest)
  {
    TerminatedAppends(a, rest);
  }

  lemma {:induction false} TerminatedSix(a: seq<string>, b: seq<string>, c: seq<string>, d: seq<string>,
                                         x: seq<string>, y: seq<string>)
    ensures Terminated(a + (b + (c + (d + (x + y))))) ==
            Terminated(a) + Terminated(b) + Terminated(c) + Terminated(d) + Terminated(x) + Terminated(y)
  {
    var ta := Terminated(a);
    var tb := ta + Terminated(b);
    var tc := tb + Terminated(c);
    var td := tc + Terminated(d);
    TerminatedAppends(a, b + (c + (d + (x + y))));
    WriteNext(ta, b, c + (d + (x + y)));
    WriteNext(tb, c, d + (x + y));
    WriteNext(tc, d, x + y);
    WriteNext(td, x, y);
  }

  /** The text of the entries after what is written already. */
  function WithEntries(text: string, es: seq<Entry>): string {
    text + BlockTexts(EntryBlocks(es))
  }

  lemma {:induction false} EntriesStep(text: string, es: seq<Entry>)
    requires es != []
    ensures WithEntries(text, es) == WithEntries(text + (Terminated(EntryLines(es[0])) + "\n"), es[1..])
  {
    assert ([EntryLines(es[0])] + EntryBlocks(es[1..]))[1..] == EntryBlocks(es[1..]);
    var (a, b) := (Terminated(EntryLines(es[0])) + "\n", BlockTexts(EntryBlocks(es[1..])));
    assert text + (a + b) == text + a + b;
  }

  lemma {:induction false} EntriesStart(fields: seq<string>, es: seq<Entry>)
    ensures SaveText(fields, es) == WithEntries(Terminated(HeaderLines(fields)) + "\n", es)
  {
    assert ([HeaderLines(fields)] + EntryBlocks(es))[1..] == EntryBlocks(es);
  }

  lemma {:induction false} EntriesEnd(text: string)
    ensures WithEntries(text, []) == text
  {
  }

  // ----- lines -----

  /** A line the reader gives back: not empty, no line break, no CR. */
  predicate Clean(line: string) {
    line != [] && '\n' !in line && '\r' !in line
  }

  predicate AllClean(lines: seq<string>) {
    forall i :: 0 <= i < |lines| ==> Clean(lines[i])
  }

  predicate Quoted(line: string) {
    |line| >= 2 && line[0] == '"' && line[|line| - 1] == '"'
  }

  predicate AllQuoted(lines: seq<string>) {
    forall i :: 0 <= i < |lines| ==> Quoted(lines[i])
  }

  /** s.rstrip('\n') */
  function TrimBreaks(s: string): string {
    if s != [] && s[|s| - 1] == '\n' then TrimBreaks(s[..|s| - 1]) else s
  }

  lemma {:induction false} TrimOne(j: string)
    requires j != [] && j[|j| - 1] != '\n'
    ensures TrimBreaks(j + "\n") == j
  {
    assert (j + "\n")[..|j|] == j;
  }

  lemma {:induction false} JoinEnd(lines: seq<string>)
    requires lines != [] && lines[|lines| - 1] != []
    ensures var j := Join(lines, "\n");
            j != [] && j[|j| - 1] == lines[|lines| - 1][|lines[|lines| - 1]| - 1]
  {
    if |lines| > 1 {
      JoinEnd(lines[1..]);
      assert Join(lines, "\n") == lines[0] + "\n" + Join(lines[1..], "\n");
    }
  }

  lemma {:induction false} TrimTerminated(lines: seq<string>)
    requires lines != [] && Quoted(lines[|lines| - 1])
    ensures TrimBreaks(Terminated(lines)) == Join(lines, "\n")
  {
    TerminatedJoin(lines);
    JoinEnd(lines);
    TrimOne(Join(lines, "\n"));
  }

  lemma {:induction false} JoinStart(lines: seq<string>)
    requires lines != [] && lines[0] != []
    ensures Join(lines, "\n") != [] && Join(lines, "\n")[0] == lines[0][0]
  {
  }

  lemma {:induction false} PartsQuoted(parts: seq<string>)
    requires parts != []
    ensures AllQuoted(PartLines(parts))
  {
    if |parts| > 1 { PartsQuoted(parts[1..]); }
  }

  /** Every line _quote() produces is quoted. */
  lemma LinesOfQuote(s: string)
    ensures AllQuoted(QuoteLines(s))
  {
    var e := Escape(s);
    if '\n' in e { PartsQuoted(Split(e, "\n")); }
  }

  // ----- the text as blocks of lines -----

  /** Blocks joined the way the parser splits them. */
  function Body(blocks: seq<seq<string>>): string
    requires blocks != []
  {
    if |blocks| == 1 then Join(blocks[0], "\n") else Join(blocks[0], "\n") + "\n\n" + Body(blocks[1..])
  }

  /** A block of an entry or of the header: clean lines, the first and the last one not starting or ending with space. */
  predicate Solid(block: seq<string>) {
    && block != [] && AllClean(block)
    && !IsSpace(block[0][0])
    && var last := block[|block| - 1]; !IsSpace(last[|last| - 1])
  }

  predicate AllSolid(blocks: seq<seq<string>>) {
    forall i :: 0 <= i < |blocks| ==> Solid(blocks[i])
  }

  lemma {:induction false} BlockTextsAreBody(blocks: seq<seq<string>>)
    requires blocks != [] && AllSolid(blocks)
    ensures BlockTexts(blocks) == Body(blocks) + "\n\n"
  {
    TerminatedJoin(blocks[0]);
    var j := Join(blocks[0], "\n");
    assert j + "\n" + "\n" == j + "\n\n";
    if |blocks| > 1 {
      BlockTextsAreBody(blocks[1..]);
      assert j + "\n\n" + (Body(blocks[1..]) + "\n\n") == (j + "\n\n" + Body(blocks[1..])) + "\n\n";
    } else {
      assert blocks[1..] == [];
    }
  }

  /** Where a text starts and ends. */
  predicate Trimmed(t: string) {
    t != [] && !IsSpace(t[0]) && !IsSpace(t[|t| - 1])
  }

  lemma {:induction false} JoinTrimmed(block: seq<string>)
    requires Solid(block)
    ensures Trimmed(Join(block, "\n"))
  {
    JoinStart(block);
    JoinEnd(block);
  }

  lemma {:induction false} BodyTrimmed(blocks: seq<seq<string>>)
    requires blocks != [] && AllSolid(blocks)
    ensures Trimmed(Body(blocks))
  {
    JoinTrimmed(blocks[0]);
    if |blocks| > 1 { BodyTrimmed(blocks[1..]); }
  }

  lemma {:induction false} StripEnd(t: string)
    requires Trimmed(t)
    ensures Strip(t + "\n\n") == t
  {
    var a, b := t + "\n\n", t + "\n";
    assert a[..|a| - 1] == b;
    assert b[..|b| - 1] == t;
    assert Strip(b) == Strip(t) == t;
  }

  // ----- splitting into blocks -----

  /** No blank line inside and none at the end. */
  predicate NoBreak(t: string) {
    forall i :: 0 <= i < |t| - 1 ==> !(t[i] == '\n' && t[i + 1] == '\n')
  }

  lemma NoBreakAround(line: string, rest: string)
    requires Clean(line) && NoBreak(rest) && rest != [] && rest[0] != '\n'
    ensures NoBreak(line + "\n" + rest)
  {
    var t := line + "\n" + rest;
    forall i | 0 <= i < |t| - 1 ensures !(t[i] == '\n' && t[i + 1] == '\n') {
      if i > |line| {
        assert t[i] == rest[i - |line| - 1] && t[i + 1] == rest[i - |line|];
      } else if i < |line| {
        assert t[i] == line[i];
      } else {
        assert t[i + 1] == rest[0];
      }
    }
  }

  lemma {:induction false} JoinNoBreak(block: seq<string>)
    requires block != [] && AllClean(block)
    ensures NoBreak(Join(block, "\n"))
  {
    if |block| > 1 {
      var rest := Join(block[1..], "\n");
      JoinNoBreak(block[1..]);
      JoinStart(block[1..]);
      assert rest[0] == block[1][0] && rest[0] != '\n';
      NoBreakAround(block[0], rest);
    }
  }

  lemma {:induction false} BreakAfter(x: string, rest: string)
    requires x != [] && NoBreak(x) && x[|x| - 1] != '\n'
    ensures BreakAt(x + "\n\n" + rest) == |x|
    ensures BreakAt(x) == |x|
  {
    var t := x + "\n\n" + rest;
    if |x| > 1 {
      assert NoBreak(x[1..]) by {
        forall i | 0 <= i < |x[1..]| - 1 ensures !(x[1..][i] == '\n' && x[1..][i + 1] == '\n') {
          assert x[1..][i] == x[i + 1] && x[1..][i + 1] == x[i + 2];
        }
      }
      assert t[1..] == x[1..] + "\n\n" + rest;
      BreakAfter(x[1..], rest);
      assert t[0] == x[0] && t[1] == x[1];
    } else {
      assert t[0] == x[0] && t[1..] == "\n\n" + rest;
      assert t[1..][0] == '\n' && t[1..][1] == '\n';
    }
  }

  lemma {:induction false} DropTwo(rest: string)
    requires rest != [] && rest[0] != '\n'
    ensures DropBreaks("\n\n" + rest) == rest
  {
    var u := "\n\n" + rest;
    assert u[1..] == "\n" + rest && u[1..][1..] == rest;
    assert DropBreaks(u) == DropBreaks(u[1..]) == DropBreaks(rest) == rest;
  }

  lemma {:induction false} OneBlock(x: string)
    requires x != [] && NoBreak(x) && x[|x| - 1] != '\n'
    ensures Blocks(x) == [x]
  {
    BreakAfter(x, []);
  }

  lemma Slices(x: string, y: string, z: string)
    ensures (x + y + z)[..|x|] == x && (x + y + z)[|x|..] == y + z && |x + y + z| == |x| + |y| + |z|
  {
    assert x + y + z == x + (y + z);
  }

  lemma {:induction false} BlocksStep(x: string, rest: string)
    requires x != [] && NoBreak(x) && x[|x| - 1] != '\n'
    requires rest != [] && rest[0] != '\n'
    ensures Blocks(x + "\n\n" + rest) == [x] + Blocks(rest)
  {
    BreakAfter(x, rest);
    DropTwo(rest);
    Slices(x, "\n\n", rest);
  }

  function Joined(blocks: seq<seq<string>>): seq<string> {
    if blocks == [] then [] else [Join(blocks[0], "\n")] + Joined(blocks[1..])
  }

  /** The regular expression finds exactly the block boundaries that were written. */
  lemma {:induction false} BlocksOfBody(blocks: seq<seq<string>>)
    requires blocks != [] && AllSolid(blocks)
    ensures Blocks(Body(blocks)) == Joined(blocks)
  {
    var x := Join(blocks[0], "\n");
    JoinTrimmed(blocks[0]);
    JoinNoBreak(blocks[0]);
    if |blocks| == 1 {
      OneBlock(x);
      assert blocks[1..] == [];
    } else {
      BodyTrimmed(blocks[1..]);
      BlocksStep(x, Body(blocks[1..]));
      BlocksOfBody(blocks[1..]);
    }
  }

  /** Splitting a block gives its lines back. */
  lemma {:induction false} SplitJoined(block: seq<string>)
    requires block != [] && AllClean(block)
    ensures Split(Join(block, "\n"), "\n") == block
  {
    if |block| == 1 {
      SplitFirstLine([], block[0], []);
      assert [] + block[0] == block[0];
    } else {
      var rest := Join(block[1..], "\n");
      SplitFirstLine([], block[0], rest);
      assert [] + block[0] == block[0];
      SplitJoined(block[1..]);
    }
  }

  // ----- no CR -----

  lemma {:induction false} NoCrIsKept(t: string)
    requires '\r' !in t
    ensures UniversalNewlines(t) == t
  {
    if t != [] { NoCrIsKept(t[1..]); }
  }

  lemma {:induction false} TerminatedNoCr(lines: seq<string>)
    requires AllClean(lines)
    ensures '\r' !in Terminated(lines)
  {
    if lines != [] { TerminatedNoCr(lines[1..]); }
  }

  lemma {:induction false} BlockTextsNoCr(blocks: seq<seq<string>>)
    requires AllSolid(blocks)
    ensures '\r' !in BlockTexts(blocks)
  {
    if blocks != [] {
      TerminatedNoCr(blocks[0]);
      BlockTextsNoCr(blocks[1..]);
    }
  }

  /** The text of solid blocks is read as exactly these blocks. */
  lemma {:induction false} TextOfBlocks(blocks: seq<seq<string>>)
    requires blocks != [] && AllSolid(blocks)
    ensures Blocks(Strip(UniversalNewlines(BlockTexts(blocks)))) == Joined(blocks)
  {
    BlockTextsNoCr(blocks);
    NoCrIsKept(BlockTexts(blocks));
    BlockTextsAreBody(blocks);
    BodyTrimmed(blocks);
    StripEnd(Body(blocks));
    BlocksOfBody(blocks);
  }

  // ----- the writing methods of the source -----

  /** The lines that are still to be written when the loop comes to part `i`. */
  function LinesLeft(parts: seq<string>, i: nat): string
    requires i <= |parts|
  {
    if i == |parts| then "" else Terminated(PartLines(parts[i..]))
  }

  lemma OneLineLess(parts: seq<string>, i: nat, line: string)
    requires i < |parts| - 1 && line == "\"" + parts[i] + "\\n\""
    ensures LinesLeft(parts, i) == line + "\n" + LinesLeft(parts, i + 1)
  {
    assert parts[i..][1..] == parts[i + 1..];
    assert ([line] + PartLines(parts[i + 1..]))[1..] == PartLines(parts[i + 1..]);
  }

  lemma LastLine(parts: seq<string>, line: string)
    requires parts != [] && parts[|parts| - 1] != [] && line == "\"" + parts[|parts| - 1] + "\""
    ensures LinesLeft(parts, |parts| - 1) == line + "\n"
  {
    OneTerminated(line);
  }

  lemma MoveOver(a: string, text: string, rest: string)
    ensures a + (text + rest) == (a + text) + rest
  {
  }

  /** What one turn of the loop of _quote() appends: an empty last part has no line. */
  method LineOfPart(parts: seq<string>, i: nat) returns (text: string)
    requires i < |parts|
    ensures LinesLeft(parts, i) == text + LinesLeft(parts, i + 1)
  {
    text := "";
    if i < |parts| - 1 {
      var line := "\"" + parts[i] + "\\n\"";
      OneLineLess(parts, i, line);
      text := line + "\n";
    } else if parts[i] != [] {
      var line := "\"" + parts[i] + "\"";
      LastLine(parts, line);
      text := line + "\n";
      assert text + "" == text;
    }
  }

  /** The loop of _quote() for a string with line breaks. */
  method QuoteParts(start: string, parts: seq<string>) returns (result: string)
    requires parts != []
    ensures result == start + Terminated(PartLines(parts))
  {
    result := start;
    assert parts[0..] == parts;
    for i := 0 to |parts|
      invariant result + LinesLeft(parts, i) == start + LinesLeft(parts, 0)
    {
      var text := LineOfPart(parts, i);
      MoveOver(result, text, LinesLeft(parts, i + 1));
      result := result + text;
    }
    assert result + "" == result;
  }

  lemma {:induction false} FirstLine(lines: seq<string>)
    ensures Terminated(["\"\""] + lines) == "\"\"\n" + Terminated(lines)
  {
    assert (["\"\""] + lines)[1..] == lines;
  }

  /** _quote() */
  method Quote(s: string) returns (result: string)
    ensures result == Join(QuoteLines(s), "\n")
  {
    var e := Escape(s);
    if '\n' !in e {
      return "\"" + e + "\"";
    }
    var parts := Split(e, "\n");
    result := QuoteParts("\"\"\n", parts);
    FirstLine(PartLines(parts));
    LinesOfQuote(s);
    TrimTerminated(["\"\""] + PartLines(parts));
    result := TrimBreaks(result);
  }

  method SavePrefixed(prefix: string, values: seq<string>) returns (t: string)
    ensures t == Terminated(Prefixed(prefix, values))
  {
    t := "";
    for i := 0 to |values|
      invariant t + Terminated(Prefixed(prefix, values[i..])) == Terminated(Prefixed(prefix, values))
    {
      assert values[i..][1..] == values[i + 1..];
      ghost var rest := Prefixed(prefix, values[i + 1..]);
      assert ([prefix + values[i]] + rest)[1..] == rest;
      assert Terminated(Prefixed(prefix, values[i..])) == prefix + values[i] + "\n" + Terminated(rest);
      t := t + (prefix + values[i] + "\n");
    }
  }

  method SaveKeyed(keyword: string, s: string) returns (t: string)
    ensures t == Terminated(Keyed(keyword, s))
  {
    var q := Quote(s);
    t := keyword + q + "\n";
    TerminatedJoin(QuoteLines(s));
    ghost var lines := QuoteLines(s);
    assert Keyed(keyword, s)[1..] == lines[1..];
    assert Terminated(lines) == lines[0] + "\n" + Terminated(lines[1..]);
    assert t == keyword + Terminated(lines);
  }

  /** The part of POFile.save() for one entry. */
  method SaveEntry(e: Entry) returns (t: string)
    ensures t == Terminated(EntryLines(e)) + "\n"
  {
    var tc := SavePrefixed("#. ", e.translatorComments);
    var rf := SavePrefixed("#: ", e.references);
    var fl := "";
    if e.flags != [] {
      fl := "#, " + Join(e.flags, ", ") + "\n";
    }
    var cx := "";
    if e.msgctxt != "" {
      cx := SaveKeyed("msgctxt ", e.msgctxt);
    }
    var id := SaveKeyed("msgid ", e.msgid);
    var st := SaveKeyed("msgstr ", e.msgstr);
    t := tc + rf + fl + cx + id + st + "\n";
    TerminatedSix(Prefixed("#. ", e.translatorComments), Prefixed("#: ", e.references), FlagLines(e.flags),
                  CtxtLines(e.msgctxt), Keyed("msgid ", e.msgid), Keyed("msgstr ", e.msgstr));
    OneTerminated("#, " + Join(e.flags, ", "));
  }

  /** The loop of POFile.parse() over the lines of a block. */
  method ReadBlock(block: string) returns (e: Entry)
    ensures e == ReadEntry(block)
  {
    var lines := Split(block, "\n");
    var r := Reader(NEW_ENTRY, NoKey);
    for j := 0 to |lines|
      invariant ReadLines(r, lines[j..]).entry == ReadEntry(block)
    {
      assert lines[j..][1..] == lines[j + 1..];
      r := ReadLine(r, lines[j]);
    }
    e := r.entry;
  }

  /** POFile */
  class PoDocument {
    var header: string
    var entries: seq<Entry>

    /** POFile.parse() on the text of the file */
    constructor Parse(text: string)
      ensures File(header, entries) == ParseText(text)
    {
      var blocks := Blocks(Strip(UniversalNewlines(text)));
      var f := File("", []);
      for i := 0 to |blocks|
        invariant ReadBlocks(f, blocks[i..]) == ParseText(text)
      {
        var e := ReadBlock(blocks[i]);
        assert blocks[i..][1..] == blocks[i + 1..];
        f := AddEntry(f, e);
      }
      header, entries := f.header, f.entries;
    }

    /** POFile.save(): the text written to the file, with the fields of its header */
    method Save(fields: seq<string>) returns (text: string)
      ensures text == SaveText(fields, entries)
    {
      text := Terminated(HeaderLines(fields)) + "\n";
      EntriesStart(fields, entries);
      for i := 0 to |entries|
        invariant WithEntries(text, entries[i..]) == SaveText(fields, entries)
      {
        var t := SaveEntry(entries[i]);
        EntriesStep(text, entries[i..]);
        assert entries[i..][1..] == entries[i + 1..];
        text := text + t;
      }
      EntriesEnd(text);
    }
  }
}
