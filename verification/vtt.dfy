/**
  The cue-text extractor of the podcast analyzer (`parse_vtt_subtitle`),
  over the content of a WebVTT file (a simplified reading of the W3C WebVTT
  format): the header, `NOTE` blocks and blank lines are skipped, each
  timing line (one holding "-->") opens a cue whose text runs to the next
  blank line, markup tags are removed, and the cue texts are joined with
  spaces.
 */
module Vtt {
  import opened Common

  // ---------------------------------------------------------------------
  // Tag removal: `re.sub(r"<[^>]+>", "", s)`

  /** One past the first `>` at or after `j`, or 0 when there is none. */
  function CloseFrom(s: string, j: nat): (k: nat)
    requires j <= |s|
    ensures k == 0 || j < k <= |s|
    decreases |s| - j
  {
    if j == |s| then 0 else if s[j] == '>' then j + 1 else CloseFrom(s, j + 1)
  }

  lemma {:induction false} CloseFromSpec(s: string, j: nat)
    requires j <= |s|
    ensures var k := CloseFrom(s, j);
      && (k == 0 <==> forall i :: j <= i < |s| ==> s[i] != '>')
      && (k > 0 ==> s[k - 1] == '>' && forall i :: j <= i < k - 1 ==> s[i] != '>')
    decreases |s| - j
  {
    if j < |s| && s[j] != '>' {
      CloseFromSpec(s, j + 1);
    }
  }

  /** Length of the tag `s` starts with: a `<`, at least one character that
      is not `>`, then the first `>`; 0 when `s` does not start with a tag. */
  function TagEnd(s: string): (k: nat)
    ensures k == 0 || 3 <= k <= |s|
  {
    if |s| >= 3 && s[0] == '<' && s[1] != '>' then CloseFrom(s, 2) else 0
  }

  /** Scanning left to right, every tag is dropped; other characters are
      kept. */
  function RemoveTags(s: string): (r: string)
    ensures |r| <= |s|
    decreases |s|
  {
    if s == [] then []
    else if TagEnd(s) > 0 then RemoveTags(s[TagEnd(s)..])
    else [s[0]] + RemoveTags(s[1..])
  }

  /** No position starts a tag. */
  predicate TagFree(s: string)
  {
    forall j :: 0 <= j < |s| ==> TagEnd(s[j..]) == 0
  }

  lemma {:induction false} RemoveTagsKeepsNoNewChars(s: string)
    ensures forall c :: c in RemoveTags(s) ==> c in s
    decreases |s|
  {
    if s != [] {
      var k := TagEnd(s);
      if k > 0 {
        RemoveTagsKeepsNoNewChars(s[k..]);
        assert forall c :: c in s[k..] ==> c in s;
      } else {
        RemoveTagsKeepsNoNewChars(s[1..]);
        assert forall c :: c in s[1..] ==> c in s;
      }
    }
  }

  /** Text without `<` passes through unchanged. */
  lemma {:induction false} RemoveTagsPlain(s: string)
    requires '<' !in s
    ensures RemoveTags(s) == s
    decreases |s|
  {
    if s != [] {
      assert s[0] != '<';
      assert '<' !in s[1..] by {
        assert forall c :: c in s[1..] ==> c in s;
      }
      RemoveTagsPlain(s[1..]);
      assert s == [s[0]] + s[1..];
    }
  }

  /** Text without `<` in front of the rest is kept as it is. */
  lemma {:induction false} RemoveTagsPrefix(p: string, u: string)
    requires '<' !in p
    ensures RemoveTags(p + u) == p + RemoveTags(u)
    decreases |p|
  {
    if p != [] {
      assert (p + u)[0] == p[0];
      assert (p + u)[1..] == p[1..] + u;
      assert '<' !in p[1..] by {
        assert forall c :: c in p[1..] ==> c in p;
      }
      RemoveTagsPrefix(p[1..], u);
    } else {
      assert p + u == u;
    }
  }

  /** After removal no tag is left: the substitution need not be repeated. */
  lemma {:induction false} RemoveTagsTagFree(s: string)
    ensures TagFree(RemoveTags(s))
    decreases |s|
  {
    if s != [] {
      var k := TagEnd(s);
      if k > 0 {
        RemoveTagsTagFree(s[k..]);
      } else {
        var rest := RemoveTags(s[1..]);
        var r := [s[0]] + rest;
        RemoveTagsTagFree(s[1..]);
        forall j | 0 <= j < |r| ensures TagEnd(r[j..]) == 0 {
          if j == 0 {
            KeptHeadStartsNoTag(s, rest);
            assert r[0..] == r;
          } else {
            assert r[j..] == rest[j - 1..];
          }
        }
      }
    }
  }

  /** A first character that does not open a tag does not open one after
      removal either. */
  lemma {:induction false} KeptHeadStartsNoTag(s: string, rest: string)
    requires s != [] && TagEnd(s) == 0
    requires rest == RemoveTags(s[1..])
    ensures TagEnd([s[0]] + rest) == 0
  {
    var r := [s[0]] + rest;
    if s[0] == '<' && |r| >= 3 {
      assert |s| >= 3;
      if s[1] == '>' {
        assert s[1..][0] == '>';
        assert TagEnd(s[1..]) == 0;
        assert rest == [s[1]] + RemoveTags(s[2..]) by {
          assert s[1..][1..] == s[2..];
        }
        assert r[1] == '>';
      } else {
        CloseFromSpec(s, 2);
        assert forall i :: 1 <= i < |s| ==> s[i] != '>';
        RemoveTagsKeepsNoNewChars(s[1..]);
        assert '>' !in s[1..];
        assert '>' !in rest;
        forall i | 2 <= i < |r| ensures r[i] != '>' {
          assert r[i] == rest[i - 1];
        }
        CloseFromSpec(r, 2);
      }
    }
  }

  // ---------------------------------------------------------------------
  // Lines and cues

  /** What the extractor looks at in one line: whether it is blank after
      `strip()`, whether the outer loop skips it (header, `NOTE`, blank),
      whether it holds "-->", and the text it contributes inside a cue. */
  datatype LineInfo = LineInfo(blank: bool, skipped: bool, timing: bool, text: string)

  function LineOf(line: string): (info: LineInfo)
    ensures info.blank ==> info.skipped
  {
    var t := Strip(line);
    LineInfo(
      blank := t == "",
      skipped := StartsWith(t, "WEBVTT") || StartsWith(t, "NOTE") || t == "",
      timing := Contains(t, "-->"),
      text := RemoveTags(t))
  }

  function Infos(lines: seq<string>): (infos: seq<LineInfo>)
    ensures |infos| == |lines|
  {
    if lines == [] then [] else [LineOf(lines[0])] + Infos(lines[1..])
  }

  lemma {:induction false} InfosDescribe(lines: seq<string>)
    ensures Describes(Infos(lines), lines)
  {
    if lines != [] {
      InfosDescribe(lines[1..]);
      var infos := Infos(lines);
      forall j | 0 <= j < |lines| ensures infos[j] == LineOf(lines[j]) {
        if j > 0 {
          assert infos[j] == Infos(lines[1..])[j - 1];
          assert lines[j] == lines[1..][j - 1];
        }
      }
    }
  }

  /** Number of leading non-blank lines: the text lines of a cue. */
  function CueLength(infos: seq<LineInfo>): (n: nat)
    ensures n <= |infos|
    ensures forall j :: 0 <= j < n ==> !infos[j].blank
    ensures n < |infos| ==> infos[n].blank
  {
    if infos == [] || infos[0].blank then 0 else 1 + CueLength(infos[1..])
  }

  /** `text_parts`: the non-empty texts of the cue lines, in order. */
  function CueParts(cue: seq<LineInfo>): (parts: seq<string>)
    ensures |parts| <= |cue|
    ensures forall p :: p in parts ==> p != ""
  {
    if cue == [] then []
    else
      var t := cue[|cue| - 1].text;
      CueParts(cue[..|cue| - 1]) + (if t != "" then [t] else [])
  }

  /** A cue with text becomes one entry; a cue without text none. */
  function Group(parts: seq<string>): seq<string>
  {
    if parts == [] then [] else [Join(parts, " ")]
  }

  /** `xs[i:]`, empty once `i` is past the end. */
  function Suffix<T>(xs: seq<T>, i: nat): seq<T>
  {
    if i <= |xs| then xs[i..] else []
  }

  /** `transcript_lines` for a list of lines: skipped lines and lines that
      are neither skipped nor timing lines contribute nothing; a timing line
      contributes the group of the text lines up to the next blank line, and
      the scan resumes after that blank line. */
  function Entries(infos: seq<LineInfo>): seq<string>
    decreases |infos|
  {
    if infos == [] then []
    else if infos[0].skipped then Entries(infos[1..])
    else if infos[0].timing then
      var rest := infos[1..];
      var n := CueLength(rest);
      Group(CueParts(rest[..n])) + Entries(Suffix(rest, n + 1))
    else Entries(infos[1..])
  }

  function Transcript(content: string): string
  {
    Join(Entries(Infos(SplitOn(content, '\n'))), " ")
  }

  /** `parse_vtt_subtitle` after the file has been read in text mode:
      `content` is what that read returns, line breaks already translated
      to `\n`. */
  method ParseVtt(content: string) returns (text: string)
    ensures text == Transcript(content)
  {
    var lines := SplitOn(content, '\n');
    ghost var infos := Infos(lines);
    InfosDescribe(lines);
    var transcriptLines: seq<string> := [];
    var i := 0;
    while i < |lines|
      invariant 0 <= i <= |lines| + 1
      invariant transcriptLines + Entries(Suffix(infos, i)) == Entries(infos)
      decreases |lines| + 1 - i
    {
      i, transcriptLines := ScanLine(lines, i, infos, transcriptLines);
    }
    assert Entries(Suffix(infos, i)) == [];
    assert transcriptLines == Entries(infos);
    text := Join(transcriptLines, " ");
  }

  /** One pass of the outer loop from line `i`: a skipped line or a line
      that is neither skipped nor timing is passed over, a timing line reads
      its cue. */
  method ScanLine(lines: seq<string>, i: nat, ghost infos: seq<LineInfo>, done: seq<string>)
    returns (after: nat, next: seq<string>)
    requires Describes(infos, lines)
    requires i < |lines|
    requires done + Entries(Suffix(infos, i)) == Entries(infos)
    ensures i < after <= |lines| + 1
    ensures next + Entries(Suffix(infos, after)) == Entries(infos)
  {
    var info := LineOf(lines[i]);
    assert infos[i] == info;
    if info.skipped {
      EntriesStep(infos, i);
      after, next := i + 1, done;
    } else if info.timing {
      after, next := AppendCue(lines, i, infos, done);
    } else {
      EntriesStep(infos, i);
      after, next := i + 1, done;
    }
  }

  /** One cue of the outer loop: reads the text lines after the timing line
      at `timing` and appends their joined text, if there is any; `after` is the
      line after the blank line (or the end) that closes the cue. */
  method AppendCue(lines: seq<string>, timing: nat, ghost infos: seq<LineInfo>, done: seq<string>)
    returns (after: nat, next: seq<string>)
    requires Describes(infos, lines)
    requires timing < |lines|
    requires !infos[timing].skipped && infos[timing].timing
    requires done + Entries(Suffix(infos, timing)) == Entries(infos)
    ensures timing + 1 < after <= |lines| + 1
    ensures next + Entries(Suffix(infos, after)) == Entries(infos)
  {
    var textParts;
    var e;
    e, textParts := ReadCue(lines, timing + 1, infos);
    next := done;
    if textParts != [] {
      next := done + [Join(textParts, " ")];
    }
    after := e + 1;
    CueEntries(done, next, infos, timing, e, after, textParts);
  }

  /** `infos` describes `lines` line by line. */
  predicate Describes(infos: seq<LineInfo>, lines: seq<string>)
  {
    |infos| == |lines| && forall j {:trigger LineOf(lines[j])} :: 0 <= j < |lines| ==> infos[j] == LineOf(lines[j])
  }

  method ReadCue(lines: seq<string>, start: nat, ghost infos: seq<LineInfo>) returns (i: nat, textParts: seq<string>)
    requires start <= |lines|
    requires Describes(infos, lines)
    ensures start <= i <= |lines|
    ensures forall j :: start <= j < i ==> !infos[j].blank
    ensures i < |lines| ==> infos[i].blank
    ensures textParts == CueParts(infos[start..i])
  {
    i := start;
    textParts := [];
    while i < |lines| && Strip(lines[i]) != ""
      invariant start <= i <= |lines|
      invariant forall j :: start <= j < i ==> !infos[j].blank
      invariant textParts == CueParts(infos[start..i])
    {
      var textLine := RemoveTags(Strip(lines[i]));
      var next := if textLine != "" then textParts + [textLine] else textParts;
      CueLineStep(lines, start, i, infos, textParts, textLine, next);
      NonBlankExtend(infos, start, i);
      textParts := next;
      i := i + 1;
    }
    if i < |lines| {
      LineFields(lines[i]);
    }
  }

  lemma {:induction false} NonBlankExtend(infos: seq<LineInfo>, start: nat, i: nat)
    requires start <= i < |infos|
    requires forall j :: start <= j < i ==> !infos[j].blank
    requires !infos[i].blank
    ensures forall j :: start <= j < i + 1 ==> !infos[j].blank
  {
  }

  lemma {:induction false} LineFields(line: string)
    ensures LineOf(line).blank == (Strip(line) == "")
    ensures LineOf(line).text == RemoveTags(Strip(line))
  {
  }

  /** One text line of a cue: the line is not blank and its text, when
      non-empty, extends the parts. */
  lemma {:induction false} CueLineStep(lines: seq<string>, start: nat, i: nat, infos: seq<LineInfo>,
                                       textParts: seq<string>, textLine: string, next: seq<string>)
    requires Describes(infos, lines)
    requires start <= i < |lines| && Strip(lines[i]) != ""
    requires textParts == CueParts(infos[start..i])
    requires textLine == RemoveTags(Strip(lines[i]))
    requires next == if textLine != "" then textParts + [textLine] else textParts
    ensures !infos[i].blank
    ensures next == CueParts(infos[start..i + 1])
  {
    LineFields(lines[i]);
    assert infos[i] == LineOf(lines[i]);
    CuePartsStep(infos, start, i);
  }

  lemma {:induction false} CuePartsStep(infos: seq<LineInfo>, start: nat, i: nat)
    requires start <= i < |infos|
    ensures CueParts(infos[start..i + 1]) ==
      CueParts(infos[start..i]) + (if infos[i].text != "" then [infos[i].text] else [])
  {
    assert infos[start..i + 1] == infos[start..i] + [infos[i]];
    CuePartsSnoc(infos[start..i], infos[i]);
  }

  lemma {:induction false} CuePartsSnoc(cue: seq<LineInfo>, info: LineInfo)
    ensures CueParts(cue + [info]) == CueParts(cue) + (if info.text != "" then [info.text] else [])
  {
    assert (cue + [info])[..|cue|] == cue;
  }

  /** A line that is skipped, or that is not a timing line, contributes
      nothing. */
  lemma {:induction false} EntriesStep(infos: seq<LineInfo>, i: nat)
    requires i < |infos|
    requires infos[i].skipped || !infos[i].timing
    ensures Entries(Suffix(infos, i)) == Entries(Suffix(infos, i + 1))
  {
    assert Suffix(infos, i)[1..] == Suffix(infos, i + 1);
  }

  /** A timing line at `timing` whose text lines end at `e` (a blank line or
      the end) gives the cue's group followed by what comes after the blank
      line. */
  lemma {:induction false} CueStep(infos: seq<LineInfo>, timing: nat, e: nat)
    requires timing < e <= |infos|
    requires !infos[timing].skipped && infos[timing].timing
    requires forall j :: timing + 1 <= j < e ==> !infos[j].blank
    requires e < |infos| ==> infos[e].blank
    ensures Entries(Suffix(infos, timing)) ==
      Group(CueParts(infos[timing + 1..e])) + Entries(Suffix(infos, e + 1))
  {
    var s := Suffix(infos, timing);
    assert s == infos[timing..];
    var rest := s[1..];
    var n := e - timing - 1;
    assert rest == infos[timing + 1..];
    assert forall j :: 0 <= j < n ==> !rest[j].blank by {
      forall j | 0 <= j < n ensures !rest[j].blank {
        assert rest[j] == infos[timing + 1 + j];
      }
    }
    assert n < |rest| ==> rest[n].blank by {
      if n < |rest| { assert rest[n] == infos[e]; }
    }
    CueLengthAt(rest, n);
    assert Entries(s) == Group(CueParts(rest[..n])) + Entries(Suffix(rest, n + 1));
    assert rest[..n] == infos[timing + 1..e];
    assert Suffix(rest, n + 1) == Suffix(infos, e + 1);
  }

  lemma {:induction false} CueLengthAt(infos: seq<LineInfo>, n: nat)
    requires n <= |infos|
    requires forall j :: 0 <= j < n ==> !infos[j].blank
    requires n < |infos| ==> infos[n].blank
    ensures CueLength(infos) == n
  {
    if n > 0 {
      assert !infos[0].blank;
      CueLengthAt(infos[1..], n - 1);
    }
  }

  // ---------------------------------------------------------------------
  // Properties

  /** Lines outside a cue contribute nothing: without a timing line (other
      than a skipped one) there is no entry. */
  lemma {:induction false} NoTimingNoEntries(infos: seq<LineInfo>)
    requires forall j :: 0 <= j < |infos| ==> infos[j].skipped || !infos[j].timing
    ensures Entries(infos) == []
    decreases |infos|
  {
    if infos != [] {
      NoTimingNoEntries(infos[1..]);
    }
  }

  /** A blank line separates: the entries of `a`, a blank line and `c` are
      the entries of `a` followed by those of `c`, wherever `a` ends. */
  lemma {:induction false} EntriesConcat(a: seq<LineInfo>, b: LineInfo, c: seq<LineInfo>)
    requires b.blank && b.skipped
    ensures Entries(a + [b] + c) == Entries(a) + Entries(c)
    decreases |a|
  {
    if a == [] {
      ConcatEmpty(b, c);
    } else if a[0].skipped || !a[0].timing {
      EntriesConcat(Suffix(a, 1), b, c);
      ConcatOther(a, b, c);
    } else {
      var e := 1 + CueLength(a[1..]);
      if e < |a| {
        EntriesConcat(Suffix(a, e + 1), b, c);
      }
      ConcatCue(a, b, c, e);
    }
  }

  lemma {:induction false} ConcatEmpty(b: LineInfo, c: seq<LineInfo>)
    requires b.skipped
    ensures Entries([] + [b] + c) == Entries([]) + Entries(c)
  {
    assert ([] + [b] + c)[1..] == c;
  }

  lemma {:induction false} ConcatOther(a: seq<LineInfo>, b: LineInfo, c: seq<LineInfo>)
    requires a != [] && (a[0].skipped || !a[0].timing)
    requires Entries(Suffix(a, 1) + [b] + c) == Entries(Suffix(a, 1)) + Entries(c)
    ensures Entries(a + [b] + c) == Entries(a) + Entries(c)
  {
    SuffixConcat(a, b, c);
    EntriesSkip(a + [b] + c);
    EntriesSkip(a);
  }

  lemma {:induction false} SuffixConcat(a: seq<LineInfo>, b: LineInfo, c: seq<LineInfo>)
    requires a != []
    ensures (a + [b] + c)[0] == a[0]
    ensures Suffix(a + [b] + c, 1) == Suffix(a, 1) + [b] + c
  {
  }

  lemma {:induction false} EntriesSkip(infos: seq<LineInfo>)
    requires infos != [] && (infos[0].skipped || !infos[0].timing)
    ensures Entries(infos) == Entries(Suffix(infos, 1))
  {
  }

  lemma {:induction false} ConcatCue(a: seq<LineInfo>, b: LineInfo, c: seq<LineInfo>, e: nat)
    requires b.blank
    requires a != [] && !a[0].skipped && a[0].timing
    requires e == 1 + CueLength(a[1..])
    requires e < |a| ==>
      Entries(Suffix(a, e + 1) + [b] + c) == Entries(Suffix(a, e + 1)) + Entries(c)
    ensures Entries(a + [b] + c) == Entries(a) + Entries(c)
  {
    var all := a + [b] + c;
    var g := Group(CueParts(a[1..e]));
    var rest := Suffix(a, e + 1);
    assert forall j :: 1 <= j < e ==> a[j] == a[1..][j - 1];
    if e < |a| {
      assert a[e] == a[1..][e - 1];
    }
    ConcatSlices(a, b, c, e);
    CueHead(a, e);
    CueHead(all, e);
    assert Entries(a) == g + Entries(rest);
    if e < |a| {
      assert Entries(all) == g + Entries(rest + [b] + c);
      AppendAssoc(g, Entries(rest), Entries(c));
    } else {
      assert Entries(all) == g + Entries(c);
      assert Entries(rest) == [];
      assert Entries(a) == g;
    }
  }

  /** The outer loop's invariant across one cue. */
  lemma {:induction false} CueEntries(done: seq<string>, next: seq<string>, infos: seq<LineInfo>, timing: nat, e: nat, after: nat,
                   textParts: seq<string>)
    requires timing < e <= |infos|
    requires done + Entries(Suffix(infos, timing)) == Entries(infos)
    requires !infos[timing].skipped && infos[timing].timing
    requires forall j :: timing + 1 <= j < e ==> !infos[j].blank
    requires e < |infos| ==> infos[e].blank
    requires textParts == CueParts(infos[timing + 1..e])
    requires next == if textParts != [] then done + [Join(textParts, " ")] else done
    requires after == e + 1
    ensures next + Entries(Suffix(infos, after)) == Entries(infos)
  {
    CueStep(infos, timing, e);
    AppendAssoc(done, Group(textParts), Entries(Suffix(infos, e + 1)));
    if textParts == [] {
      assert done + Group(textParts) == done;
    }
  }

  /** `CueStep` for a cue at the front. */
  lemma {:induction false} CueHead(infos: seq<LineInfo>, e: nat)
    requires 0 < e <= |infos|
    requires !infos[0].skipped && infos[0].timing
    requires forall j :: 1 <= j < e ==> !infos[j].blank
    requires e < |infos| ==> infos[e].blank
    ensures Entries(infos) == Group(CueParts(infos[1..e])) + Entries(Suffix(infos, e + 1))
  {
    var rest := infos[1..];
    CueLengthAt(rest, e - 1);
    assert rest[..e - 1] == infos[1..e];
    assert Suffix(rest, e) == Suffix(infos, e + 1);
  }

  lemma {:induction false} ConcatSlices(a: seq<LineInfo>, b: LineInfo, c: seq<LineInfo>, e: nat)
    requires 1 <= e <= |a|
    ensures (a + [b] + c)[1..e] == a[1..e]
    ensures forall j :: 1 <= j < e ==> (a + [b] + c)[j] == a[j]
    ensures (a + [b] + c)[e] == if e < |a| then a[e] else b
    ensures e < |a| ==> Suffix(a + [b] + c, e + 1) == Suffix(a, e + 1) + [b] + c
    ensures e == |a| ==> Suffix(a + [b] + c, e + 1) == c && Suffix(a, e + 1) == []
  {
  }

  /** One cue: its timing line and text lines give one entry, the texts
      joined by a space, or none when no line has text left. */
  lemma {:induction false} SingleCue(timing: LineInfo, cue: seq<LineInfo>)
    requires !timing.skipped && timing.timing
    requires forall j :: 0 <= j < |cue| ==> !cue[j].blank
    ensures Entries([timing] + cue) == Group(CueParts(cue))
  {
    var infos := [timing] + cue;
    assert infos[1..] == cue;
    CueLengthAt(cue, |cue|);
    assert cue[..|cue|] == cue;
  }

  /** Splitting the joined lines gives the lines back. */
  lemma {:induction false} SplitJoinInverse(parts: seq<string>, c: char)
    requires parts != []
    requires forall p :: p in parts ==> c !in p
    ensures SplitOn(Join(parts, [c]), c) == parts
    decreases |parts|
  {
    var p := parts[0];
    assert p in parts;
    if |parts| == 1 {
      SplitPrefix(p, "", c);
      assert p + "" == p;
    } else {
      var rest := [c] + Join(parts[1..], [c]);
      assert Join(parts, [c]) == p + rest;
      assert rest[1..] == Join(parts[1..], [c]);
      assert forall q :: q in parts[1..] ==> q in parts;
      SplitJoinInverse(parts[1..], c);
      assert SplitOn(rest, c) == [""] + parts[1..];
      SplitPrefix(p, rest, c);
      assert p + "" == p;
    }
  }

  /** A separator-free prefix extends the first piece of the split. */
  lemma {:induction false} SplitPrefix(p: string, rest: string, c: char)
    requires c !in p
    ensures SplitOn(p + rest, c) == [p + SplitOn(rest, c)[0]] + SplitOn(rest, c)[1..]
    decreases |p|
  {
    var t := SplitOn(rest, c);
    if p != [] {
      assert p[0] in p;
      assert forall ch :: ch in p[1..] ==> ch in p;
      SplitPrefix(p[1..], rest, c);
      assert p + rest == [p[0]] + (p[1..] + rest);
      SplitCons(p[0], p[1..] + rest, c);
      assert [p[0]] + (p[1..] + t[0]) == p + t[0];
    } else {
      assert p + rest == rest;
      assert p + t[0] == t[0];
      assert [t[0]] + t[1..] == t;
    }
  }

  /** A character other than the separator joins the first piece. */
  lemma {:induction false} SplitCons(ch: char, s: string, c: char)
    requires ch != c
    ensures SplitOn([ch] + s, c) == [[ch] + SplitOn(s, c)[0]] + SplitOn(s, c)[1..]
  {
    assert ([ch] + s)[1..] == s;
  }

  /** The worked example: a header, a blank line, a cue whose text lines are
      `<c>Hello</c>` and `there`, a blank line and a cue whose text line is
      `World`; it reads as "Hello there World". */
  lemma {:induction false} ExampleTranscript(lines: seq<string>)
    requires |lines| == 8
    requires lines[0] == "WEBVTT" && lines[1] == "" && lines[5] == ""
    requires lines[2] == "0 --> 1" && lines[6] == "1 --> 2"
    requires lines[3] == "<c>Hello</c>" && lines[4] == "there" && lines[7] == "World"
    ensures Transcript(Join(lines, "\n")) == "Hello there World"
  {
    ExampleSplit(lines);
    ExampleInfos(lines);
    var infos := Infos(lines);
    assert infos == [infos[0], infos[1], infos[2], infos[3], infos[4], infos[5], infos[6], infos[7]];
    TwoCues(infos[0], infos[1], infos[5], infos[2], infos[3], infos[4], infos[6], infos[7]);
    JoinTwo(infos[3].text + " " + infos[4].text, infos[7].text);
    HelloThereWorld();
  }

  lemma {:induction false} ExampleSplit(lines: seq<string>)
    requires |lines| == 8
    requires lines[0] == "WEBVTT" && lines[1] == "" && lines[5] == ""
    requires lines[2] == "0 --> 1" && lines[6] == "1 --> 2"
    requires lines[3] == "<c>Hello</c>" && lines[4] == "there" && lines[7] == "World"
    ensures SplitOn(Join(lines, "\n"), '\n') == lines
  {
    forall j | 0 <= j < |lines| ensures '\n' !in lines[j] { }
    SplitJoinInverse(lines, '\n');
  }

  lemma {:induction false} ExampleInfos(lines: seq<string>)
    requires |lines| == 8
    requires lines[0] == "WEBVTT" && lines[1] == "" && lines[5] == ""
    requires lines[2] == "0 --> 1" && lines[6] == "1 --> 2"
    requires lines[3] == "<c>Hello</c>" && lines[4] == "there" && lines[7] == "World"
    ensures var infos := Infos(lines);
      && |infos| == 8
      && infos[0].skipped && infos[1].blank && infos[1].skipped && infos[5].blank && infos[5].skipped
      && !infos[2].skipped && infos[2].timing && !infos[6].skipped && infos[6].timing
      && !infos[3].blank && !infos[4].blank && !infos[7].blank
      && infos[3].text == "Hello" && infos[4].text == "there" && infos[7].text == "World"
  {
    InfosDescribe(lines);
    HeaderLine(lines[0]);
    BlankLine(lines[1]);
    BlankLine(lines[5]);
    TimingLine(lines[2]);
    TimingLine(lines[6]);
    HelloLine(lines[3]);
    PlainTextLine(lines[4]);
    PlainTextLine(lines[7]);
  }

  lemma {:induction false} HelloLine(t: string)
    requires t == "<c>Hello</c>"
    ensures !LineOf(t).blank && LineOf(t).text == "Hello"
  {
    TextLine(t);
    ExampleTags();
  }

  lemma {:induction false} PlainTextLine(t: string)
    requires t == "World" || t == "there"
    ensures !LineOf(t).blank && LineOf(t).text == t
  {
    TextLine(t);
    RemoveTagsPlain(t);
  }

  /** A skipped line, a blank line, a cue of two text lines, a blank line and
      a cue of one text line give two entries. */
  lemma {:induction false} TwoCues(header: LineInfo, b1: LineInfo, b2: LineInfo, t1: LineInfo, x: LineInfo, y: LineInfo,
                t2: LineInfo, z: LineInfo)
    requires header.skipped && b1.blank && b1.skipped && b2.blank && b2.skipped
    requires !t1.skipped && t1.timing && !t2.skipped && t2.timing
    requires !x.blank && !y.blank && !z.blank && x.text != "" && y.text != "" && z.text != ""
    ensures Entries([header, b1, t1, x, y, b2, t2, z]) == [x.text + " " + y.text, z.text]
  {
    var rest := [t1, x, y] + [b2] + [t2, z];
    assert [header, b1, t1, x, y, b2, t2, z] == [header] + [b1] + rest;
    EntriesConcat([header], b1, rest);
    NoTimingNoEntries([header]);
    CuePair(b2, t1, x, y, t2, z);
  }

  lemma {:induction false} CuePair(b2: LineInfo, t1: LineInfo, x: LineInfo, y: LineInfo, t2: LineInfo, z: LineInfo)
    requires b2.blank && b2.skipped
    requires !t1.skipped && t1.timing && !t2.skipped && t2.timing
    requires !x.blank && !y.blank && !z.blank && x.text != "" && y.text != "" && z.text != ""
    ensures Entries([t1, x, y] + [b2] + [t2, z]) == [x.text + " " + y.text, z.text]
  {
    EntriesConcat([t1, x, y], b2, [t2, z]);
    CueOfTwo(t1, x, y);
    CueOfOne(t2, z);
  }

  lemma {:induction false} HelloThereWorld()
    ensures "Hello" + " " + "there" + " " + "World" == "Hello there World"
  {
  }

  lemma {:induction false} JoinTwo(a: string, b: string)
    ensures Join([a, b], " ") == a + " " + b
  {
    assert [a, b][1..] == [b];
  }

  lemma {:induction false} BlankLine(t: string)
    requires t == ""
    ensures LineOf(t).blank
  {
  }

  lemma {:induction false} HeaderLine(t: string)
    requires t == "WEBVTT"
    ensures LineOf(t).skipped
  {
    assert SkipSpace(t, 0) == 0;
    assert SkipSpaceBack(t, |t|) == |t|;
    assert Strip(t) == t;
    assert t[..6] == "WEBVTT";
  }

  lemma {:induction false} TimingLine(t: string)
    requires t == "0 --> 1" || t == "1 --> 2"
    ensures !LineOf(t).skipped && LineOf(t).timing
  {
    assert SkipSpace(t, 0) == 0;
    assert SkipSpaceBack(t, |t|) == |t|;
    assert Strip(t) == t;
    assert t[..6][0] != 'W' && t[..4][0] != 'N';
    assert t[2..5] == "-->";
    assert OccursAt(t, "-->", 2);
  }

  lemma {:induction false} TextLine(t: string)
    requires t == "World" || t == "there" || t == "<c>Hello</c>"
    ensures !LineOf(t).blank
    ensures LineOf(t).text == RemoveTags(t)
  {
    assert !IsSpace(t[0]);
    assert SkipSpace(t, 0) == 0;
    assert SkipSpaceBack(t, |t|) == |t|;
    assert Strip(t) == t;
  }

  /** A cue of two lines with text reads as the two texts. */
  lemma {:induction false} CueOfTwo(timing: LineInfo, x: LineInfo, y: LineInfo)
    requires !timing.skipped && timing.timing
    requires !x.blank && !y.blank && x.text != "" && y.text != ""
    ensures Entries([timing, x, y]) == [x.text + " " + y.text]
  {
    SingleCue(timing, [x, y]);
    assert [timing] + [x, y] == [timing, x, y];
    CuePartsSnoc([], x);
    assert [] + [x] == [x];
    CuePartsSnoc([x], y);
    assert [x] + [y] == [x, y];
    var parts := [x.text, y.text];
    assert CueParts([x, y]) == parts;
    assert parts[1..] == [y.text];
    assert Join(parts, " ") == x.text + " " + y.text;
  }

  /** A cue of one line with text reads as that text. */
  lemma {:induction false} CueOfOne(timing: LineInfo, x: LineInfo)
    requires !timing.skipped && timing.timing
    requires !x.blank && x.text != ""
    ensures Entries([timing, x]) == [x.text]
  {
    SingleCue(timing, [x]);
    assert [timing] + [x] == [timing, x];
    CuePartsSnoc([], x);
    assert [] + [x] == [x];
  }

  lemma {:induction false} ExampleTags()
    ensures RemoveTags("<c>Hello</c>") == "Hello"
  {
    var s := "<c>Hello</c>";
    assert CloseFrom(s, 2) == 3;
    assert s[3..] == "Hello" + "</c>";
    var u := "</c>";
    assert CloseFrom(u, 2) == 4;
    assert u[4..] == [];
    assert RemoveTags(u) == "";
    RemoveTagsPrefix("Hello", u);
  }

}
