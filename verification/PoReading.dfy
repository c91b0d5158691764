/**
 What POFile.parse makes of files that POFile.save did not write: other line
 endings, more blank lines, surrounding space, comments and obsolete entries
 (tools/i18n_translate.py, lines 90-145).
 */
module PoReading {
  import opened PoStrings
  import opened PoFile
  import opened PoRoundTrip

  // ----- line endings -----

  /** The text with another line ending. */
  function WithEndings(t: string, ending: string): string {
    if t == [] then [] else (if t[0] == '\n' then ending else [t[0]]) + WithEndings(t[1..], ending)
  }

  lemma {:induction false} NewlinesOfPlain(c: char, rest: string)
    requires c != '\r'
    ensures UniversalNewlines([c] + rest) == [c] + UniversalNewlines(rest)
  {
    assert ([c] + rest)[1..] == rest;
  }

  lemma {:induction false} NewlinesOfCrLf(rest: string)
    ensures UniversalNewlines(['\r', '\n'] + rest) == ['\n'] + UniversalNewlines(rest)
  {
    assert (['\r', '\n'] + rest)[2..] == rest;
  }

  lemma {:induction false} NewlinesOfCr(rest: string)
    requires rest != [] ==> rest[0] != '\n'
    ensures UniversalNewlines(['\r'] + rest) == ['\n'] + UniversalNewlines(rest)
  {
    assert (['\r'] + rest)[1..] == rest;
  }

  lemma {:induction false} CrLfIsRead(t: string)
    requires '\r' !in t
    ensures UniversalNewlines(WithEndings(t, ['\r', '\n'])) == t
  {
    if t != [] {
      var rest := WithEndings(t[1..], ['\r', '\n']);
      CrLfIsRead(t[1..]);
      if t[0] == '\n' { NewlinesOfCrLf(rest); } else { NewlinesOfPlain(t[0], rest); }
    }
  }

  lemma {:induction false} NoLfWithCr(t: string)
    ensures '\n' !in WithEndings(t, ['\r'])
  {
    if t != [] { NoLfWithCr(t[1..]); }
  }

  lemma {:induction false} CrIsRead(t: string)
    requires '\r' !in t
    ensures UniversalNewlines(WithEndings(t, ['\r'])) == t
  {
    if t != [] {
      var rest := WithEndings(t[1..], ['\r']);
      CrIsRead(t[1..]);
      NoLfWithCr(t[1..]);
      if t[0] == '\n' { NewlinesOfCr(rest); } else { NewlinesOfPlain(t[0], rest); }
    }
  }

  /** No CR is left in any text that is read. */
  lemma {:induction false} NoCrIsLeft(t: string)
    ensures '\r' !in UniversalNewlines(t)
    decreases |t|
  {
    if t != [] {
      NoCrIsLeft(t[1..]);
      if |t| > 1 { NoCrIsLeft(t[2..]); }
    }
  }

  /** A file is read alike with LF, CR LF and CR at the ends of its lines. */
  lemma {:induction false} LineEndingsDoNotMatter(t: string)
    requires '\r' !in t
    ensures ParseText(WithEndings(t, ['\r', '\n'])) == ParseText(t)
    ensures ParseText(WithEndings(t, ['\r'])) == ParseText(t)
  {
    CrLfIsRead(t);
    CrIsRead(t);
    NoCrIsKept(t);
  }

  // ----- space around the text and between its blocks -----

  /** The 29 characters that are space, by their numbers. */
  lemma SpacesAre(c: char)
    ensures IsSpace(c) <==> c as int in {9, 10, 11, 12, 13, 28, 29, 30, 31, 32, 133, 160, 5760,
                                         8192, 8193, 8194, 8195, 8196, 8197, 8198, 8199, 8200, 8201, 8202,
                                         8232, 8233, 8239, 8287, 12288}
  {
  }

  predicate AllSpace(s: string) {
    forall i :: 0 <= i < |s| ==> IsSpace(s[i])
  }

  /** The space around a text does not matter. */
  lemma {:induction false} StripTrims(a: string, t: string, b: string)
    requires AllSpace(a) && AllSpace(b) && (t == [] || Trimmed(t))
    ensures Strip(a + t + b) == t
    decreases |a| + |b|
  {
    var s := a + t + b;
    if a != [] {
      assert s[0] == a[0] && s[1..] == a[1..] + t + b;
      StripTrims(a[1..], t, b);
    } else if b != [] {
      var c := b[..|b| - 1];
      assert s[|s| - 1] == b[|b| - 1] && s[..|s| - 1] == a + t + c;
      StripTrims(a, t, c);
      if t == [] {
        assert s == b && IsSpace(s[0]);
        assert s[1..] == a + t + b[1..];
        StripTrims(a, t, b[1..]);
      }
    } else {
      assert s == t;
    }
  }

  function LineFeeds(n: nat): string {
    if n == 0 then [] else ['\n'] + LineFeeds(n - 1)
  }

  lemma {:induction false} DropLineFeeds(n: nat, rest: string)
    requires rest != [] && rest[0] != '\n'
    ensures DropBreaks(LineFeeds(n) + rest) == rest
  {
    if n == 0 {
      assert LineFeeds(n) + rest == rest;
    } else {
      DropLineFeeds(n - 1, rest);
      assert (LineFeeds(n) + rest)[1..] == LineFeeds(n - 1) + rest;
    }
  }

  /** Blocks may be any number of blank lines apart. */
  lemma {:induction false} BlankLinesSeparate(x: string, n: nat, rest: string)
    requires x != [] && NoBreak(x) && x[|x| - 1] != '\n'
    requires n >= 2 && rest != [] && rest[0] != '\n'
    ensures Blocks(x + LineFeeds(n) + rest) == [x] + Blocks(rest)
  {
    var more := LineFeeds(n - 2) + rest;
    assert LineFeeds(n) == ['\n'] + (['\n'] + LineFeeds(n - 2));
    assert x + LineFeeds(n) + rest == x + "\n\n" + more;
    BreakAfter(x, more);
    DropLineFeeds(n, rest);
    Slices(x, LineFeeds(n), rest);
  }

  // ----- comments -----

  lemma {:induction false} ReadComments(e: Entry, k: Key, values: seq<string>)
    ensures ReadLines(Reader(e, k), Prefixed("# ", values)) == Reader(e.(comments := e.comments + values), k)
    decreases |values|
  {
    if values == [] {
      assert e.comments + values == e.comments;
    } else {
      var line := "# " + values[0];
      StartsWithPrefix("# ", values[0]);
      DiffersAt(line, "#, ", 1);
      DiffersAt(line, "#: ", 1);
      DiffersAt(line, "#. ", 1);
      DiffersAt(line, "#~ ", 1);
      var e' := e.(comments := e.comments + [values[0]]);
      ReadComments(e', k, values[1..]);
      assert e'.comments + values[1..] == e.comments + values;
      assert Prefixed("# ", values)[1..] == Prefixed("# ", values[1..]);
    }
  }

  /** A comment may also follow the sign directly; a line that is nothing of all this is ignored. */
  lemma ReadOtherLine(r: Reader, line: string)
    requires line != []
    ensures line[0] == '#' && (|line| == 1 || line[1] !in " ,:.~") ==>
              ReadLine(r, line) == r.(entry := r.entry.(comments := r.entry.comments + [line[1..]]))
    ensures line[0] !in "#m\"" ==> ReadLine(r, line) == r
  {
    if line[0] == '#' && (|line| == 1 || line[1] !in " ,:.~") {
      if |line| > 1 {
        assert ',' in " ,:.~" && ':' in " ,:.~" && '.' in " ,:.~" && '~' in " ,:.~" && ' ' in " ,:.~";
        DiffersAt(line, "#, ", 1);
        DiffersAt(line, "#: ", 1);
        DiffersAt(line, "#. ", 1);
        DiffersAt(line, "#~ ", 1);
        DiffersAt(line, "# ", 1);
      }
      assert line[..1] == "#";
    }
    if line[0] !in "#m\"" {
      assert '#' in "#m\"" && 'm' in "#m\"" && '"' in "#m\"";
      NotComment(line);
      DiffersAt(line, "msgctxt ", 0);
      DiffersAt(line, "msgid ", 0);
      DiffersAt(line, "msgstr ", 0);
      DiffersAt(line, "\"", 0);
    }
  }

  // ----- obsolete entries -----

  ghost predicate HasObsoleteLine(lines: seq<string>) {
    exists i :: 0 <= i < |lines| && StartsWith(lines[i], "#~ ")
  }

  lemma ReadLineObsolete(r: Reader, line: string)
    ensures ReadLine(r, line).entry.isObsolete <==> r.entry.isObsolete || StartsWith(line, "#~ ")
  {
    if StartsWith(line, "#~ ") {
      PrefixAgrees(line, "#~ ", 1);
      DiffersAt(line, "#, ", 1);
      DiffersAt(line, "#: ", 1);
      DiffersAt(line, "#. ", 1);
    }
  }

  lemma {:induction false} ReadLinesObsolete(r: Reader, lines: seq<string>)
    ensures ReadLines(r, lines).entry.isObsolete <==> r.entry.isObsolete || HasObsoleteLine(lines)
    decreases |lines|
  {
    if lines != [] {
      ReadLineObsolete(r, lines[0]);
      ReadLinesObsolete(ReadLine(r, lines[0]), lines[1..]);
      assert HasObsoleteLine(lines) <==> StartsWith(lines[0], "#~ ") || HasObsoleteLine(lines[1..]) by {
        forall i | 0 <= i < |lines[1..]| ensures lines[1..][i] == lines[i + 1] {}
      }
    }
  }

  /** The entries of the blocks that name a string and have no obsolete line. */
  ghost function Named(blocks: seq<string>): seq<Entry> {
    if blocks == [] then []
    else
      var e := ReadEntry(blocks[0]);
      (if e.msgid != "" && !HasObsoleteLine(Split(blocks[0], "\n")) then [e] else []) + Named(blocks[1..])
  }

  /** A file has exactly the entries of these blocks, in their order. */
  lemma {:induction false} EntriesAreNamed(f: File, blocks: seq<string>)
    ensures ReadBlocks(f, blocks).entries == f.entries + Named(blocks)
    decreases |blocks|
  {
    if blocks == [] {
      assert f.entries + Named(blocks) == f.entries;
    } else {
      var e := ReadEntry(blocks[0]);
      ReadLinesObsolete(Reader(NEW_ENTRY, NoKey), Split(blocks[0], "\n"));
      EntriesAreNamed(AddEntry(f, e), blocks[1..]);
      assert f.entries + [e] + Named(blocks[1..]) == f.entries + ([e] + Named(blocks[1..]));
    }
  }
}
