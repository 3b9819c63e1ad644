/** write_section: replacing one heading's own body (internal/aichattools/content_drafts.go). */
module DraftSections {
  import opened Options
  import opened Text
  import opened Seqs
  import opened DraftLines
  import opened Drafts

  datatype DraftHeading = DraftHeading(index: nat, heading: Heading)

  /** The headings with their line numbers. */
  function Indexed(lines: seq<string>): seq<DraftHeading> {
    if lines == [] then []
    else
      var n := |lines| - 1;
      Indexed(lines[..n]) +
      (match KindOf(lines[n], FenceAfter(lines[..n], false))
       case HeadingLine(heading) => [DraftHeading(n, heading)]
       case _ => [])
  }

  method ParseDraftHeadings(body: string) returns (headings: seq<DraftHeading>)
    ensures headings == Indexed(Split(body))
  {
    hide HeadingOf, IsFence;
    headings := [];
    var inFence := false;
    var lines := Split(body);
    for i := 0 to |lines|
      invariant headings == Indexed(lines[..i]) && inFence == FenceAfter(lines[..i], false)
    {
      TakeSnoc(lines, i);
      LastOf(lines[..i], lines[i]);
      if IsFence(lines[i]) {
        inFence := !inFence;
        continue;
      }
      if inFence {
        continue;
      }
      var heading := HeadingOf(lines[i]);
      if heading.None? {
        continue;
      }
      headings := headings + [DraftHeading(i, heading.value)];
    }
    TakeAll(lines);
  }

  // ---------------------------------------------------------------- one write

  datatype WriteResult = Written(body: string) | NotFound | Ambiguous | HasHeadings

  /** `fold` is a canonical form of Unicode case folding, so strings.EqualFold is equality of it. */
  function Matching(headings: seq<DraftHeading>, want: string, fold: string -> string): seq<DraftHeading> {
    if headings == [] then []
    else
      var last := headings[|headings| - 1];
      Matching(headings[..|headings| - 1], want, fold) + (if fold(last.heading.text) == fold(want) then [last] else [])
  }

  /** The line of the next heading after x, or the end. */
  function EndAfter(headings: seq<DraftHeading>, x: nat, n: nat): nat {
    if headings == [] then n
    else if headings[0].index > x then headings[0].index
    else EndAfter(headings[1..], x, n)
  }

  function FirstText(lines: seq<string>, from: nat): (i: nat)
    requires from <= |lines|
    ensures from <= i <= |lines|
    decreases |lines| - from
  {
    if from < |lines| && TrimSpace(lines[from]) == "" then FirstText(lines, from + 1) else from
  }

  function WithoutHashes(text: string): string
    decreases |text|
  {
    if text != "" && text[0] == '#' then
      TrimSpaceShrinks(text[1..]);
      WithoutHashes(TrimSpace(text[1..]))
    else text
  }

  lemma TrimSpaceShrinks(s: string)
    ensures |TrimSpace(s)| <= |s|
  {
  }

  /** Drops a leading line that repeats the heading. */
  function StripLeadingHeading(content: string, heading: string, fold: string -> string): string {
    var lines := Split(content);
    var start := FirstText(lines, 0);
    if start == |lines| then content
    else
      if Repeats(lines[start], heading, fold) then Joined(lines[start + 1..]) else content
  }

  predicate Repeats(line: string, heading: string, fold: string -> string) {
    var text := WithoutHashes(TrimSpace(line));
    text != "" && fold(text) == fold(TrimSpace(heading))
  }

  predicate Blank(line: string) {
    TrimSpace(line) == ""
  }

  /** The first line with text, and that text repeats the heading after its hashes. */
  predicate RepeatsAt(lines: seq<string>, i: nat, heading: string, fold: string -> string)
    requires i < |lines|
  {
    && (forall j :: 0 <= j < i ==> Blank(lines[j])) && !Blank(lines[i])
    && WithoutHashes(TrimSpace(lines[i])) != ""
    && fold(WithoutHashes(TrimSpace(lines[i]))) == fold(TrimSpace(heading))
  }

  lemma {:induction false} FirstTextIs(lines: seq<string>, from: nat)
    requires from <= |lines|
    ensures var i := FirstText(lines, from);
      (forall j :: from <= j < i ==> Blank(lines[j])) && (i < |lines| ==> !Blank(lines[i]))
    decreases |lines| - from
  {
    hide TrimSpace;
    if from < |lines| && Blank(lines[from]) {
      FirstTextIs(lines, from + 1);
    }
  }

  /** Stripping returns what follows such a line if there is one, and otherwise everything. */
  lemma StrippedIs(content: string, heading: string, fold: string -> string)
    ensures forall i :: 0 <= i < |Split(content)| && RepeatsAt(Split(content), i, heading, fold) ==>
      StripLeadingHeading(content, heading, fold) == Joined(Split(content)[i + 1..])
    ensures (forall i :: 0 <= i < |Split(content)| ==> !RepeatsAt(Split(content), i, heading, fold)) ==>
      StripLeadingHeading(content, heading, fold) == content
  {
    hide Split, Blank, FirstText, Joined, WithoutHashes, TrimSpace;
    var lines := Split(content);
    FirstTextIs(lines, 0);
    forall i | 0 <= i < |lines| && RepeatsAt(lines, i, heading, fold) ensures i == FirstText(lines, 0) {
      FirstIsOnly(lines, i, FirstText(lines, 0));
    }
    var start := FirstText(lines, 0);
    if start < |lines| {
      assert RepeatsAt(lines, start, heading, fold) <==> Repeats(lines[start], heading, fold);
    }
  }

  lemma FirstIsOnly(lines: seq<string>, i: nat, k: nat)
    requires i < |lines| && (forall j :: 0 <= j < i ==> Blank(lines[j])) && !Blank(lines[i])
    requires k <= |lines| && (forall j :: 0 <= j < k ==> Blank(lines[j])) && (k < |lines| ==> !Blank(lines[k]))
    ensures i == k
  {
    hide Blank;
  }

  lemma {:induction false} LeftSpaces(s: string)
    ensures forall i :: 0 <= i < |s| - |TrimLeft(s)| ==> IsSpace(s[i])
  {
    hide IsSpace;
    if s != "" && IsSpace(s[0]) {
      LeftSpaces(s[1..]);
      forall i | 0 <= i < |s| - |TrimLeft(s)| ensures IsSpace(s[i]) {
        assert i > 0 ==> s[1..][i - 1] == s[i];
      }
    }
  }

  lemma SameEnd(s: string, d: nat)
    requires d <= |s|
    ensures s[d..] == "" || s[d..][|s[d..]| - 1] == s[|s| - 1]
  {
  }

  lemma NothingOnTheRight(s: string)
    requires s == "" || !IsSpace(s[|s| - 1])
    ensures TrimRight(s) == s
  {
    hide IsSpace;
  }

  lemma TrimmedRest(s: string) returns (d: nat)
    requires s == "" || !IsSpace(s[|s| - 1])
    ensures d <= |s| && TrimSpace(s) == s[d..] && forall i :: 0 <= i < d ==> IsSpace(s[i])
  {
    hide IsSpace, TrimLeft, TrimRight;
    var rest := TrimLeft(s);
    d := |s| - |rest|;
    LeftSpaces(s);
    SameEnd(s, d);
    NothingOnTheRight(rest);
  }

  predicate HashOrSpace(c: char) {
    c == '#' || IsSpace(c)
  }

  predicate Droppable(s: string) {
    forall i :: 0 <= i < |s| ==> HashOrSpace(s[i])
  }

  lemma DroppableJoin(s: string, a: nat, b: nat)
    requires a + b <= |s| && Droppable(s[..a]) && Droppable(s[a..][..b])
    ensures Droppable(s[..a + b]) && s[a..][b..] == s[a + b..]
  {
    hide HashOrSpace;
    assert s[..a + b] == s[..a] + s[a..][..b];
  }

  lemma HashIsDroppable(s: string, d: nat)
    requires s != "" && s[0] == '#' && d <= |s| - 1 && forall i :: 0 <= i < d ==> IsSpace(s[1..][i])
    ensures Droppable(s[..1 + d]) && s[1..][d..] == s[1 + d..]
  {
    hide IsSpace;
    DroppableJoin(s, 1, d);
  }

  /** One hash dropped, with the blanks behind it. */
  lemma HashDropped(text: string) returns (a: nat)
    requires Trimmed(text) && text[0] == '#'
    ensures 1 <= a <= |text| && Droppable(text[..a]) && WithoutHashes(text) == WithoutHashes(text[a..])
    ensures text[a..] == "" || Trimmed(text[a..])
  {
    hide IsSpace, TrimSpace, Droppable;
    SameEnd(text, 1);
    var d := TrimmedRest(text[1..]);
    HashIsDroppable(text, d);
    a := 1 + d;
  }

  lemma NothingDropped(text: string)
    requires text == "" || (Trimmed(text) && text[0] != '#')
    ensures WithoutHashes(text) == text && text[0..] == text && Droppable(text[..0])
    ensures text != "" ==> !HashOrSpace(text[0])
  {
    hide IsSpace;
  }

  /** Of a trimmed line, exactly the hashes and blanks in front of its text are dropped. */
  lemma {:induction false} WithoutHashesIs(text: string) returns (k: nat)
    requires text == "" || Trimmed(text)
    ensures k <= |text| && WithoutHashes(text) == text[k..] && Droppable(text[..k])
    ensures k < |text| ==> !HashOrSpace(text[k])
    decreases |text|
  {
    hide *;
    if text == "" || text[0] != '#' {
      k := 0;
      NothingDropped(text);
    } else {
      var a := HashDropped(text);
      var k' := WithoutHashesIs(text[a..]);
      DroppableJoin(text, a, k');
      k := a + k';
    }
  }

  /** The section markdown a call really writes. */
  function SectionText(content: string, heading: string, fold: string -> string): string {
    TrimSpace(StripLeadingHeading(content, TrimSpace(heading), fold))
  }

  function RawBody(lines: seq<string>, x: nat, end: nat, text: string): string
    requires x < |lines| && end <= |lines|
  {
    Ended(lines[..x + 1]) + (if text == "" then [] else ['\n'] + text + ['\n']) + Preceded(lines[end..])
  }

  function Replaced(body: string, heading: string, content: string, fold: string -> string): WriteResult {
    var lines := Split(body);
    var headings := Indexed(lines);
    var matches := Matching(headings, TrimSpace(heading), fold);
    if matches == [] then NotFound
    else if |matches| > 1 then Ambiguous
    else
      var x := matches[0].index;
      var end := EndAfter(headings, x, |lines|);
      var text := SectionText(content, heading, fold);
      if Indexed(Split(text)) != [] then HasHeadings
      else if x < |lines| && end <= |lines| then Written(Collapse(RawBody(lines, x, end, text), 0))
      else NotFound
  }

  method StripLeadingHeadingLine(content: string, heading: string, fold: string -> string) returns (stripped: string)
    ensures stripped == StripLeadingHeading(content, heading, fold)
  {
    hide TrimSpace, Split, Joined;
    var lines := Split(content);
    var start := 0;
    while start < |lines| && TrimSpace(lines[start]) == ""
      invariant start <= |lines| && FirstText(lines, 0) == FirstText(lines, start)
    {
      start := start + 1;
    }
    if start >= |lines| {
      return content;
    }
    var text := TrimSpace(lines[start]);
    while text != "" && text[0] == '#'
      invariant WithoutHashes(TrimSpace(lines[start])) == WithoutHashes(text)
      decreases |text|
    {
      TrimSpaceShrinks(text[1..]);
      text := TrimSpace(text[1..]);
    }
    if text != "" && fold(text) == fold(TrimSpace(heading)) {
      return Joined(lines[start + 1..]);
    }
    return content;
  }

  method FindMatches(headings: seq<DraftHeading>, want: string, fold: string -> string)
    returns (matches: seq<DraftHeading>)
    ensures matches == Matching(headings, want, fold)
  {
    matches := [];
    for i := 0 to |headings|
      invariant matches == Matching(headings[..i], want, fold)
    {
      TakeSnoc(headings, i);
      if fold(headings[i].heading.text) == fold(want) {
        matches := matches + [headings[i]];
      }
    }
    TakeAll(headings);
  }

  method FindEnd(headings: seq<DraftHeading>, x: nat, n: nat) returns (end: nat)
    ensures end == EndAfter(headings, x, n)
  {
    for i := 0 to |headings|
      invariant EndAfter(headings, x, n) == EndAfter(headings[i..], x, n)
    {
      DropCons(headings, i);
      if headings[i].index > x {
        return headings[i].index;
      }
    }
    return n;
  }

  method WriteLines(lines: seq<string>) returns (text: string)
    ensures text == Ended(lines)
  {
    text := [];
    for i := 0 to |lines|
      invariant text == Ended(lines[..i])
    {
      TakeSnoc(lines, i);
      text := text + lines[i];
      text := text + ['\n'];
    }
    TakeAll(lines);
  }

  method WriteRest(before: string, lines: seq<string>) returns (text: string)
    ensures text == before + Preceded(lines)
  {
    text := before;
    for i := 0 to |lines|
      invariant text == before + Preceded(lines[..i])
    {
      TakeSnoc(lines, i);
      AppendAssoc(before, Preceded(lines[..i]), ['\n']);
      AppendAssoc(before, Preceded(lines[..i]) + ['\n'], lines[i]);
      text := text + ['\n'];
      text := text + lines[i];
    }
    TakeAll(lines);
  }

  lemma ReplacedCases(body: string, heading: string, content: string, fold: string -> string)
    ensures var lines := Split(body);
      var matches := Matching(Indexed(lines), TrimSpace(heading), fold);
      var text := SectionText(content, heading, fold);
      && (matches == [] ==> Replaced(body, heading, content, fold) == NotFound)
      && (|matches| > 1 ==> Replaced(body, heading, content, fold) == Ambiguous)
      && (|matches| == 1 && Indexed(Split(text)) != [] ==> Replaced(body, heading, content, fold) == HasHeadings)
      && (|matches| == 1 && Indexed(Split(text)) == [] ==>
            var x := matches[0].index;
            var end := EndAfter(Indexed(lines), x, |lines|);
            x < |lines| && end <= |lines| ==>
              Replaced(body, heading, content, fold) == Written(Collapse(RawBody(lines, x, end, text), 0)))
  {
    hide Indexed, Matching, EndAfter, SectionText, Collapse, RawBody, Split, TrimSpace;
  }

  lemma RawBodyIs(lines: seq<string>, x: nat, end: nat, text: string)
    requires x < |lines| && end <= |lines|
    ensures text != "" ==>
      RawBody(lines, x, end, text) == Ended(lines[..x + 1]) + (['\n'] + text + ['\n']) + Preceded(lines[end..])
    ensures text == "" ==> RawBody(lines, x, end, text) == Ended(lines[..x + 1]) + Preceded(lines[end..])
  {
    hide Ended, Preceded;
    AppendNil(Ended(lines[..x + 1]));
  }

  lemma SectionTextIs(content: string, heading: string, fold: string -> string)
    ensures SectionText(content, heading, fold) == TrimSpace(StripLeadingHeading(content, TrimSpace(heading), fold))
  {
  }

  method ReplaceSection(body: string, heading: string, content: string, fold: string -> string) returns (r: WriteResult)
    ensures r == Replaced(body, heading, content, fold)
  {
    hide *;
    ReplacedCases(body, heading, content, fold);
    SectionTextIs(content, heading, fold);
    var want := TrimSpace(heading);
    var lines := Split(body);
    var headings := ParseDraftHeadings(body);
    var matches := FindMatches(headings, want, fold);
    if |matches| == 0 {
      return NotFound;
    }
    if |matches| > 1 {
      return Ambiguous;
    }
    var target := matches[0];
    TheMatch(headings, want, fold);
    var end := FindEnd(headings, target.index, |lines|);
    HeadingPlaces(lines, target);
    var stripped := StripLeadingHeadingLine(content, want, fold);
    var text := TrimSpace(stripped);
    var inner := ParseDraftHeadings(text);
    if |inner| > 0 {
      return HasHeadings;
    }
    RawBodyIs(lines, target.index, end, text);
    var raw := WriteLines(lines[..target.index + 1]);
    if text != "" {
      raw := raw + (['\n'] + text + ['\n']);
    }
    raw := WriteRest(raw, lines[end..]);
    var normalized := NormalizeDraftBlankLines(raw);
    return Written(normalized);
  }

  // ---------------------------------------------------------------- where headings are

  /** A heading's line is in range, outside fences, and the next heading's line is too. */
  lemma {:induction false} IndexedIsExact(lines: seq<string>, k: nat)
    requires k < |Indexed(lines)|
    ensures var x := Indexed(lines)[k].index;
      && x < |lines| && KindOf(lines[x], FenceAfter(lines[..x], false)) == HeadingLine(Indexed(lines)[k].heading)
      && Indexed(lines[..x]) == Indexed(lines)[..k]
  {
    hide KindOf, FenceAfter;
    var n := |lines| - 1;
    var front := lines[..n];
    if k < |Indexed(front)| {
      IndexedIsExact(front, k);
      var x := Indexed(front)[k].index;
      TakeTake(lines, x, n);
      assert Indexed(lines)[..k] == Indexed(front)[..k];
    } else {
      assert Indexed(lines)[..k] == Indexed(front);
    }
  }

  /** Line numbers increase. */
  lemma {:induction false} IndexedIncreases(lines: seq<string>)
    ensures forall j, k :: 0 <= j < k < |Indexed(lines)| ==> Indexed(lines)[j].index < Indexed(lines)[k].index
    ensures forall k :: 0 <= k < |Indexed(lines)| ==> Indexed(lines)[k].index < |lines|
  {
    hide KindOf, FenceAfter;
    if lines != [] {
      IndexedIncreases(lines[..|lines| - 1]);
    }
  }

  /** With increasing line numbers, the end of heading k is heading k + 1. */
  lemma {:induction false} EndIsNext(headings: seq<DraftHeading>, k: nat, n: nat)
    requires k < |headings| && forall i, j :: 0 <= i < j < |headings| ==> headings[i].index < headings[j].index
    ensures EndAfter(headings, headings[k].index, n) == if k + 1 < |headings| then headings[k + 1].index else n
  {
    if k > 0 {
      EndIsNext(headings[1..], k - 1, n);
    } else if |headings| > 1 {
      assert headings[1..][0] == headings[1];
    }
  }

  lemma {:induction false} MatchesAreHeadings(headings: seq<DraftHeading>, want: string, fold: string -> string)
    ensures forall i :: 0 <= i < |Matching(headings, want, fold)| ==> Matching(headings, want, fold)[i] in headings
  {
    if headings != [] {
      MatchesAreHeadings(headings[..|headings| - 1], want, fold);
    }
  }

  lemma TheMatch(headings: seq<DraftHeading>, want: string, fold: string -> string)
    requires Matching(headings, want, fold) != []
    ensures Matching(headings, want, fold)[0] in headings
  {
    MatchesAreHeadings(headings, want, fold);
  }

  lemma HeadingPlaces(lines: seq<string>, target: DraftHeading)
    requires target in Indexed(lines)
    ensures target.index < EndAfter(Indexed(lines), target.index, |lines|) <= |lines|
  {
    hide Indexed;
    var k :| 0 <= k < |Indexed(lines)| && Indexed(lines)[k] == target;
    IndexedIncreases(lines);
    EndIsNext(Indexed(lines), k, |lines|);
  }

  /** The reading's sections are the indexed headings. */
  lemma {:induction false} IndexedIsRead(lines: seq<string>)
    ensures |Indexed(lines)| == |Read(lines, false).sections|
    ensures forall k :: 0 <= k < |Indexed(lines)| ==>
      Indexed(lines)[k].heading == Read(lines, false).sections[k].heading
  {
    hide WithLine, FenceAfter, KindOf;
    if lines != [] {
      var n := |lines| - 1;
      IndexedIsRead(lines[..n]);
      LineHeadings(Read(lines[..n], false), lines[n], FenceAfter(lines[..n], false));
    }
  }

  /** A line adds a section exactly when it is a heading, and keeps the earlier headings. */
  lemma LineHeadings(d: Doc, line: string, inFence: bool)
    ensures var sections := WithLine(d, line, inFence).sections;
      && (forall k :: 0 <= k < |d.sections| ==> k < |sections| && sections[k].heading == d.sections[k].heading)
      && (match KindOf(line, inFence)
          case HeadingLine(heading) => |sections| == |d.sections| + 1 && sections[|d.sections|].heading == heading
          case _ => |sections| == |d.sections|)
  {
    hide KindOf, WithBody;
    SameHeadings(d, [line]);
  }

  lemma SameHeadings(d: Doc, lines: seq<string>)
    ensures |WithBody(d, lines).sections| == |d.sections|
    ensures forall k :: 0 <= k < |d.sections| ==> WithBody(d, lines).sections[k].heading == d.sections[k].heading
  {
  }

  // ---------------------------------------------------------------- what a write keeps

  /** The lines a write puts under its heading: the text between two empty lines, or one. */
  function WrittenLines(text: string): seq<string> {
    [""] + (if text == "" then [] else Split(text) + [""])
  }

  /** Fences opened in the text are closed in it. */
  predicate Balanced(text: string) {
    !FenceAfter(Split(text), false)
  }

  lemma {:induction false} PlainText(lines: seq<string>, inFence: bool)
    requires Read(lines, inFence).sections == []
    ensures Read(lines, inFence) == Doc(lines, [])
  {
    hide WithLine, FenceAfter;
    if lines != [] {
      var front, last := lines[..|lines| - 1], lines[|lines| - 1];
      PlainLine(Read(front, inFence), last, FenceAfter(front, inFence));
      PlainText(front, inFence);
      assert lines == front + [last];
    }
  }

  lemma PlainLine(d: Doc, line: string, inFence: bool)
    requires WithLine(d, line, inFence).sections == []
    ensures d.sections == [] && WithLine(d, line, inFence) == Doc(d.preamble + [line], [])
  {
    hide KindOf;
  }

  /** The document ends with heading k, just opened. */
  predicate EndsAtHeading(d: Doc, k: nat, h: Heading) {
    |d.sections| == k + 1 && d.sections[k] == Section(h, [])
  }

  /** A draft read up to a heading's line ends with that heading, outside fences. */
  lemma CutAtHeading(lines: seq<string>, k: nat, x: nat)
    requires k < |Indexed(lines)| && x == Indexed(lines)[k].index && x < |lines|
    ensures !FenceAfter(lines[..x + 1], false)
    ensures EndsAtHeading(Read(lines[..x + 1], false), k, Indexed(lines)[k].heading)
  {
    hide KindOf, FenceAfter, Read, Indexed;
    IndexedIsExact(lines, k);
    TakeSnoc(lines, x);
    IndexedIsRead(lines[..x]);
    HeadingIsOutside(lines[..x], lines[x], Indexed(lines)[k].heading);
  }

  lemma HeadingIsOutside(before: seq<string>, line: string, h: Heading)
    requires KindOf(line, FenceAfter(before, false)) == HeadingLine(h)
    ensures !FenceAfter(before, false) && !FenceAfter(before + [line], false)
    ensures Read(before + [line], false)
      == Read(before, false).(sections := Read(before, false).sections + [Section(h, [])])
  {
    hide HeadingOf, IsFence;
    LastOf(before, line);
  }

  lemma TailStartsSection(before: seq<string>, tail: seq<string>, h: Heading)
    requires tail != [] && KindOf(tail[0], FenceAfter(before, false)) == HeadingLine(h)
    ensures !FenceAfter(before, false) && Read(tail, false).preamble == [] && Read(tail, false).sections != []
  {
    hide KindOf, FenceAfter, HeadingOf, IsFence, Read, Appended;
    HeadingIsOutside(before, tail[0], h);
    DropCons(tail, 0);
    TakeAll(tail);
    HeadingFirst(tail[0], tail[1..], h);
  }

  lemma HeadingFirst(line: string, rest: seq<string>, h: Heading)
    requires KindOf(line, false) == HeadingLine(h)
    ensures Read([line] + rest, false).preamble == [] && Read([line] + rest, false).sections != []
  {
    hide KindOf, FenceAfter, HeadingOf, IsFence, Read;
    ReadAppend([line], rest, false);
    FirstIsHeading(line, h);
  }

  lemma FirstIsHeading(line: string, h: Heading)
    requires KindOf(line, false) == HeadingLine(h)
    ensures Read([line], false) == Doc([], [Section(h, [])])
  {
    hide HeadingOf, IsFence;
    assert [line][..0] == [];
  }

  /** A draft in three parts, around the body of heading k. */
  lemma ThreeParts(lines: seq<string>, k: nat, x: nat, e: nat)
    requires k < |Indexed(lines)| && x == Indexed(lines)[k].index && e == EndAfter(Indexed(lines), x, |lines|)
    ensures x < e <= |lines| && !FenceAfter(lines[..x + 1], false)
    ensures EndsAtHeading(Read(lines[..x + 1], false), k, Indexed(lines)[k].heading)
    ensures Read(lines[x + 1..e], false).sections == [] && Read(lines[e..], false).preamble == []
    ensures Read(lines, false)
         == Appended(Appended(Read(lines[..x + 1], false), Read(lines[x + 1..e], false)), Read(lines[e..], false))
  {
    hide KindOf, FenceAfter, Read, Indexed, Appended;
    var headings := Indexed(lines);
    IndexedIncreases(lines);
    CutAtHeading(lines, k, x);
    EndIsNext(headings, k, |lines|);
    var a, own, tail := lines[..x + 1], lines[x + 1..e], lines[e..];
    assert lines[..e] == a + own && lines == lines[..e] + tail;
    ReadAppend(a, own, false);
    ReadAppend(lines[..e], tail, false);
    SectionsUpTo(lines, k, e);
    AppendedCount(Read(a, false), Read(own, false));
    if e < |lines| {
      IndexedIsExact(lines, k + 1);
      TailStartsSection(lines[..e], tail, headings[k + 1].heading);
    } else {
      NothingAnyway();
      assert tail == [];
    }
  }

  lemma NothingAnyway()
    ensures forall inFence :: Read([], inFence) == Doc([], [])
  {
  }

  lemma AppendedCount(a: Doc, b: Doc)
    ensures |Appended(a, b).sections| == |a.sections| + |b.sections|
  {
  }

  /** Up to the next heading there are k + 1 sections. */
  lemma SectionsUpTo(lines: seq<string>, k: nat, e: nat)
    requires k < |Indexed(lines)| && e == (if k + 1 < |Indexed(lines)| then Indexed(lines)[k + 1].index else |lines|)
    requires e <= |lines|
    ensures |Read(lines[..e], false).sections| == k + 1
  {
    hide KindOf, FenceAfter, Read, Indexed;
    IndexedIsRead(lines[..e]);
    if k + 1 < |Indexed(lines)| {
      IndexedIsExact(lines, k + 1);
    } else {
      TakeAll(lines);
    }
  }

  /** The lines a write leaves. */
  lemma RawLines(lines: seq<string>, x: nat, end: nat, text: string)
    requires x < end <= |lines| && SingleLines(lines)
    ensures Split(RawBody(lines, x, end, text))
         == lines[..x + 1] + WrittenLines(text) + lines[end..]
  {
    hide Split, Ended, Preceded;
    var a, tail := lines[..x + 1], lines[end..];
    var middle := if text == "" then [] else ['\n'] + text + ['\n'];
    EmptySplit();
    SplitPreceded(Ended(a) + middle, tail);
    if text == "" {
      AppendNil(Ended(a));
      AppendNil([""]);
      SplitEnded(a, "");
      AppendNil(Ended(a));
    } else {
      AppendAssoc(['\n'], text, ['\n']);
      SplitEnded(a, middle);
      SplitMiddle(text);
    }
  }

  lemma EmptySplit()
    ensures Split("") == [""]
  {
  }

  lemma SplitMiddle(text: string)
    ensures Split(['\n'] + text + ['\n']) == [""] + (Split(text) + [""])
  {
    hide Split;
    EmptySplit();
    AppendAssoc(['\n'], text, ['\n']);
    NewlineFirst(text + ['\n']);
    SplitAt(text, "");
    AppendNil(text + ['\n']);
    assert text + ['\n'] + "" == text + ['\n'];
  }

  /** The written part reads as its own lines, without headings. */
  lemma MiddleReads(text: string)
    requires Indexed(Split(text)) == []
    ensures Read(WrittenLines(text), false) == Doc(WrittenLines(text), [])
    ensures FenceAfter(WrittenLines(text), false) == FenceAfter(Split(text), false)
  {
    hide Read, FenceAfter, Indexed, Split, Appended;
    var lines := Split(text);
    IndexedIsRead(lines);
    EmptyLine(false);
    EmptySplit();
    if text == "" {
      AppendNil([""]);
    } else {
      ReadEmptyLine(lines, false);
      SameHeadings(Read(lines, false), [""]);
      ReadAppend([""], lines + [""], false);
      FenceAppend([""], lines + [""], false);
      AppendedCount(Read([""], false), Read(lines + [""], false));
      PlainText(WrittenLines(text), false);
    }
  }

  /** Putting a body into section k of a document whose k-th section was just opened. */
  lemma BodyGoesThere(upTo: Doc, body: seq<string>, rest: Doc)
    requires upTo.sections != [] && upTo.sections[|upTo.sections| - 1].body == [] && rest.preamble == []
    ensures var k := |upTo.sections| - 1;
      var d := Appended(Appended(upTo, Doc(body, [])), rest);
      && d.preamble == upTo.preamble
      && d.sections == upTo.sections[..k] + [upTo.sections[k].(body := body)] + rest.sections
  {
    var k := |upTo.sections| - 1;
    NilAppend(body);
    AppendNil(WithBody(upTo, body).sections);
    WithBodyNothing(Appended(upTo, Doc(body, [])));
  }

  /** A successful write of balanced text changes the named section's own body, and nothing else:
      every heading, every other body and the preamble stay line by line, except that a run of empty
      lines may be shortened. */
  lemma WriteChangesOneBody(body: string, heading: string, content: string, fold: string -> string, k: nat)
    requires Replaced(body, heading, content, fold).Written?
    requires k < |Indexed(Split(body))|
    requires Indexed(Split(body))[k] == Matching(Indexed(Split(body)), TrimSpace(heading), fold)[0]
    requires Balanced(SectionText(content, heading, fold))
    ensures var d := DocOf(body);
      var text := SectionText(content, heading, fold);
      && k < |d.sections|
      && Squeezed(DocOf(Replaced(body, heading, content, fold).body))
         == Squeezed(d.(sections := d.sections[k := d.sections[k].(body := WrittenLines(text))]))
  {
    hide *;
    var lines := Split(body);
    var text := SectionText(content, heading, fold);
    var x := Indexed(lines)[k].index;
    var e := EndAfter(Indexed(lines), x, |lines|);
    ThreeParts(lines, k, x, e);
    WrittenIs(body, heading, content, fold, k);
    SplitIsSingle(body);
    var raw := RawBody(lines, x, e, text);
    CollapseKeepsDoc(raw);
    BalancedIs(text);
    RawReads(lines, x, e, text);
    DocOfIs(raw);
    DocOfIs(body);
    var upTo, own, rest := Read(lines[..x + 1], false), Read(lines[x + 1..e], false), Read(lines[e..], false);
    OnlyPreamble(own);
    SwapBody(upTo, k, Indexed(lines)[k].heading, own.preamble, WrittenLines(text), rest);
  }

  /** The k-th heading of the draft has this name, up to case. */
  predicate Named(headings: seq<Heading>, name: string, fold: string -> string, k: nat) {
    k < |headings| && fold(headings[k].text) == fold(name)
  }

  ghost predicate NoneNamed(headings: seq<Heading>, name: string, fold: string -> string) {
    forall k: nat :: !Named(headings, name, fold, k)
  }

  ghost predicate OneNamed(headings: seq<Heading>, name: string, fold: string -> string, k: nat) {
    Named(headings, name, fold, k) && forall j: nat :: Named(headings, name, fold, j) ==> j == k
  }

  ghost predicate TwoNamed(headings: seq<Heading>, name: string, fold: string -> string) {
    exists j: nat, k: nat :: j < k && Named(headings, name, fold, j) && Named(headings, name, fold, k)
  }

  function Texts(headings: seq<DraftHeading>): (r: seq<Heading>)
    ensures |r| == |headings| && forall k :: 0 <= k < |r| ==> r[k] == headings[k].heading
  {
    if headings == [] then [] else Texts(headings[..|headings| - 1]) + [headings[|headings| - 1].heading]
  }

  lemma {:induction false} MatchingIs(headings: seq<DraftHeading>, name: string, fold: string -> string)
    ensures Matching(headings, name, fold) == [] ==> NoneNamed(Texts(headings), name, fold)
    ensures |Matching(headings, name, fold)| == 1 ==>
      exists k: nat :: OneNamed(Texts(headings), name, fold, k) && Matching(headings, name, fold)[0] == headings[k]
    ensures |Matching(headings, name, fold)| > 1 ==> TwoNamed(Texts(headings), name, fold)
  {
    if headings != [] {
      var n := |headings| - 1;
      var front := Matching(headings[..n], name, fold);
      MatchingIs(headings[..n], name, fold);
      hide Matching;
      MatchingSnoc(headings, name, fold);
      NamedSnoc(headings, name, fold);
      if |front| == 1 {
        var k: nat :| OneNamed(Texts(headings[..n]), name, fold, k) && front[0] == headings[..n][k];
        assert Named(Texts(headings), name, fold, k);
        assert k < n;
        if Named(Texts(headings), name, fold, n) {
          assert TwoNamed(Texts(headings), name, fold);
        } else {
          assert OneNamed(Texts(headings), name, fold, k) && front[0] == headings[k];
        }
      } else if front == [] && Named(Texts(headings), name, fold, n) {
        assert OneNamed(Texts(headings), name, fold, n);
      } else if |front| > 1 {
        var j: nat, k: nat :|
          j < k && Named(Texts(headings[..n]), name, fold, j) && Named(Texts(headings[..n]), name, fold, k);
        assert Named(Texts(headings), name, fold, j) && Named(Texts(headings), name, fold, k);
      }
    }
  }

  lemma MatchingSnoc(headings: seq<DraftHeading>, name: string, fold: string -> string)
    requires headings != []
    ensures var n := |headings| - 1;
      Matching(headings, name, fold) ==
      Matching(headings[..n], name, fold) + (if Named(Texts(headings), name, fold, n) then [headings[n]] else [])
  {
  }

  lemma NamedSnoc(headings: seq<DraftHeading>, name: string, fold: string -> string)
    requires headings != []
    ensures forall k: nat {:trigger Named(Texts(headings), name, fold, k)} :: k != |headings| - 1 ==>
      (Named(Texts(headings), name, fold, k) <==> Named(Texts(headings[..|headings| - 1]), name, fold, k))
  {
  }

  lemma TextsAre(lines: seq<string>)
    ensures Texts(Indexed(lines)) == HeadingsOf(Read(lines, false))
  {
    hide Indexed, Read;
    IndexedIsRead(lines);
  }

  /** What a write answers, by the draft's headings: not found without the name, ambiguous with two
      of it, refused for text with headings of its own, and otherwise written. */
  lemma WriteOutcome(body: string, heading: string, content: string, fold: string -> string)
    ensures var headings, name, r :=
        HeadingsOf(DocOf(body)), TrimSpace(heading), Replaced(body, heading, content, fold);
      && (r == NotFound <==> NoneNamed(headings, name, fold))
      && (r == Ambiguous <==> TwoNamed(headings, name, fold))
      && (r == HasHeadings ==> HeadingsOf(DocOf(SectionText(content, heading, fold))) != [])
      && (r.Written? ==> HeadingsOf(DocOf(SectionText(content, heading, fold))) == [])
      && (r == HasHeadings || r.Written? ==> exists k: nat :: OneNamed(headings, name, fold, k))
  {
    hide *;
    var lines := Split(body);
    DocOfIs(body);
    TextsAre(lines);
    MatchingIs(Indexed(lines), TrimSpace(heading), fold);
    NamedCases(HeadingsOf(DocOf(body)), TrimSpace(heading), fold);
    var text := SectionText(content, heading, fold);
    DocOfIs(text);
    TextsAre(Split(text));
    OutcomeIs(body, heading, content, fold);
  }

  lemma NamedCases(headings: seq<Heading>, name: string, fold: string -> string)
    ensures NoneNamed(headings, name, fold) ==> !TwoNamed(headings, name, fold)
    ensures forall k: nat :: OneNamed(headings, name, fold, k) ==>
      !TwoNamed(headings, name, fold) && !NoneNamed(headings, name, fold)
  {
  }

  lemma OutcomeIs(body: string, heading: string, content: string, fold: string -> string)
    ensures var matches := Matching(Indexed(Split(body)), TrimSpace(heading), fold);
      var r := Replaced(body, heading, content, fold);
      && (r == NotFound <==> matches == []) && (r == Ambiguous <==> |matches| > 1)
      && (r == HasHeadings ==> Texts(Indexed(Split(SectionText(content, heading, fold)))) != [])
      && (r.Written? ==> Texts(Indexed(Split(SectionText(content, heading, fold)))) == [])
  {
    hide Indexed, Matching, EndAfter, SectionText, Split, RawBody, Collapse, TrimSpace;
    var headings := Indexed(Split(body));
    if Matching(headings, TrimSpace(heading), fold) != [] {
      TheMatch(headings, TrimSpace(heading), fold);
      HeadingPlaces(Split(body), Matching(headings, TrimSpace(heading), fold)[0]);
    }
  }

  /** And what it changes, by name: the body of the one section so named. */
  lemma WritesTheNamedSection(body: string, heading: string, content: string, fold: string -> string, k: nat)
    requires Replaced(body, heading, content, fold).Written?
    requires Named(HeadingsOf(DocOf(body)), TrimSpace(heading), fold, k)
    requires Balanced(SectionText(content, heading, fold))
    ensures var d := DocOf(body);
      && k < |d.sections|
      && Squeezed(DocOf(Replaced(body, heading, content, fold).body))
         == Squeezed(d.(sections := d.sections[k := d.sections[k].(
                         body := WrittenLines(SectionText(content, heading, fold)))]))
  {
    hide *;
    OutcomeIs(body, heading, content, fold);
    DocOfIs(body);
    TextsAre(Split(body));
    var j := OnlyMatch(Indexed(Split(body)), TrimSpace(heading), fold, k);
    WriteChangesOneBody(body, heading, content, fold, k);
  }

  lemma OnlyMatch(headings: seq<DraftHeading>, name: string, fold: string -> string, k: nat) returns (j: nat)
    requires |Matching(headings, name, fold)| == 1 && Named(Texts(headings), name, fold, k)
    ensures j == k < |headings| && Matching(headings, name, fold)[0] == headings[k]
  {
    MatchingIs(headings, name, fold);
    j :| OneNamed(Texts(headings), name, fold, j) && Matching(headings, name, fold)[0] == headings[j];
  }

  lemma OnlyPreamble(d: Doc)
    requires d.sections == []
    ensures d == Doc(d.preamble, [])
  {
  }

  lemma DocOfIs(body: string)
    ensures DocOf(body) == Read(Split(body), false)
  {
  }

  lemma BalancedIs(text: string)
    ensures Balanced(text) <==> !FenceAfter(Split(text), false)
  {
  }

  /** What a successful write returns. */
  lemma WrittenIs(body: string, heading: string, content: string, fold: string -> string, k: nat)
    requires Replaced(body, heading, content, fold).Written?
    requires k < |Indexed(Split(body))|
    requires Indexed(Split(body))[k] == Matching(Indexed(Split(body)), TrimSpace(heading), fold)[0]
    ensures var lines := Split(body);
      var text := SectionText(content, heading, fold);
      var x := Indexed(lines)[k].index;
      var e := EndAfter(Indexed(lines), x, |lines|);
      && Indexed(Split(text)) == [] && x < |lines| && e <= |lines|
      && Replaced(body, heading, content, fold) == Written(Collapse(RawBody(lines, x, e, text), 0))
  {
    hide Indexed, Matching, EndAfter, SectionText, Split, RawBody, Collapse;
  }

  /** The written draft reads as its three parts, the last in the state the text's fences leave. */
  lemma RawReads(lines: seq<string>, x: nat, e: nat, text: string)
    requires x < e <= |lines| && SingleLines(lines) && Indexed(Split(text)) == [] && !FenceAfter(lines[..x + 1], false)
    ensures Read(Split(RawBody(lines, x, e, text)), false)
         == Appended(Appended(Read(lines[..x + 1], false), Doc(WrittenLines(text), [])),
                     Read(lines[e..], FenceAfter(Split(text), false)))
  {
    hide *;
    RawLines(lines, x, e, text);
    MiddleReads(text);
    var middle := WrittenLines(text);
    ReadAppend(lines[..x + 1], middle, false);
    FenceAppend(lines[..x + 1], middle, false);
    ReadAppend(lines[..x + 1] + middle, lines[e..], false);
  }

  lemma SwapBody(upTo: Doc, k: nat, h: Heading, before: seq<string>, body: seq<string>, rest: Doc)
    requires EndsAtHeading(upTo, k, h) && rest.preamble == []
    ensures var d := Appended(Appended(upTo, Doc(before, [])), rest);
      && k < |d.sections|
      && Appended(Appended(upTo, Doc(body, [])), rest) == d.(sections := d.sections[k := d.sections[k].(body := body)])
  {
    hide Appended;
    BodyGoesThere(upTo, before, rest);
    BodyGoesThere(upTo, body, rest);
    OneBodyDiffers(upTo.sections[..k], upTo.sections[k].(body := before), body, rest.sections);
  }

  lemma OneBodyDiffers(a: seq<Section>, s: Section, body: seq<string>, b: seq<Section>)
    ensures (a + [s] + b)[|a|] == s
    ensures (a + [s] + b)[|a| := s.(body := body)] == a + [s.(body := body)] + b
  {
  }

  lemma HeadingsAppended(a: Doc, b: Doc)
    ensures HeadingsOf(Appended(a, b)) == HeadingsOf(a) + HeadingsOf(b)
  {
    SameHeadings(a, b.preamble);
  }

  /** Which heading a successful write replaced the body of. */
  lemma WrittenAt(body: string, heading: string, content: string, fold: string -> string) returns (k: nat)
    requires Replaced(body, heading, content, fold).Written?
    ensures k < |Indexed(Split(body))|
    ensures Indexed(Split(body))[k] == Matching(Indexed(Split(body)), TrimSpace(heading), fold)[0]
  {
    hide Indexed, Matching, EndAfter, SectionText, Split;
    var headings := Indexed(Split(body));
    TheMatch(headings, TrimSpace(heading), fold);
    k :| 0 <= k < |headings| && headings[k] == Matching(headings, TrimSpace(heading), fold)[0];
  }

  /** The lines after the named section. */
  function TailOf(body: string, k: nat): seq<string>
    requires k < |Indexed(Split(body))|
  {
    var e := EndAfter(Indexed(Split(body)), Indexed(Split(body))[k].index, |Split(body)|);
    if e <= |Split(body)| then Split(body)[e..] else []
  }

  /** Exactly when a write keeps the heading sequence: the text's fences are balanced, or the rest
      of the draft happens to show the same headings with its fenced lines swapped, as an empty
      rest does. */
  lemma WriteKeepsHeadings(body: string, heading: string, content: string, fold: string -> string, k: nat)
    requires Replaced(body, heading, content, fold).Written?
    requires k < |Indexed(Split(body))|
    requires Indexed(Split(body))[k] == Matching(Indexed(Split(body)), TrimSpace(heading), fold)[0]
    ensures HeadingsOf(DocOf(Replaced(body, heading, content, fold).body)) == HeadingsOf(DocOf(body))
       <==> (Balanced(SectionText(content, heading, fold)) ||
             HeadingsOf(Read(TailOf(body, k), true)) == HeadingsOf(Read(TailOf(body, k), false)))
  {
    hide *;
    var lines := Split(body);
    var text := SectionText(content, heading, fold);
    var x := Indexed(lines)[k].index;
    var e := EndAfter(Indexed(lines), x, |lines|);
    ThreeParts(lines, k, x, e);
    WrittenIs(body, heading, content, fold, k);
    SplitIsSingle(body);
    var raw := RawBody(lines, x, e, text);
    CollapseKeepsDoc(raw);
    BalancedIs(text);
    RawReads(lines, x, e, text);
    DocOfIs(raw);
    DocOfIs(body);
    TailIs(body, k);
    var upTo, own, rest := Read(lines[..x + 1], false), Read(lines[x + 1..e], false), Read(lines[e..], false);
    var swapped := Read(lines[e..], FenceAfter(Split(text), false));
    SqueezedHeadings(DocOf(Collapse(raw, 0)));
    SqueezedHeadings(DocOf(raw));
    OnlyPreamble(own);
    NoHeadingsIn(own.preamble);
    NoHeadingsIn(WrittenLines(text));
    HeadingsAppended(upTo, own);
    HeadingsAppended(Appended(upTo, own), rest);
    HeadingsAppended(upTo, Doc(WrittenLines(text), []));
    HeadingsAppended(Appended(upTo, Doc(WrittenLines(text), [])), swapped);
    AppendNil(HeadingsOf(upTo));
    SamePrefix(HeadingsOf(upTo), HeadingsOf(rest), HeadingsOf(swapped));
  }

  lemma TailIs(body: string, k: nat)
    requires k < |Indexed(Split(body))|
    ensures var e := EndAfter(Indexed(Split(body)), Indexed(Split(body))[k].index, |Split(body)|);
      e <= |Split(body)| ==> TailOf(body, k) == Split(body)[e..]
  {
    hide Indexed, EndAfter, Split;
  }

  lemma NoHeadingsIn(lines: seq<string>)
    ensures HeadingsOf(Doc(lines, [])) == []
  {
  }

  lemma SamePrefix(a: seq<Heading>, b: seq<Heading>, c: seq<Heading>)
    ensures a + b == a + c <==> b == c
  {
    if a + b == a + c {
      assert b == (a + b)[|a|..] && c == (a + c)[|a|..];
    }
  }

  /** An example: an unclosed fence in the first section hides the second heading. */
  lemma UnclosedFenceHidesHeadings()
    ensures var body := Joined([HeadingText(Heading(2, "a")), HeadingText(Heading(2, "b"))]);
      var r := Replaced(body, "a", "```", text => text);
      && r.Written? && HeadingsOf(DocOf(body)) == [Heading(2, "a"), Heading(2, "b")]
      && HeadingsOf(DocOf(r.body)) != HeadingsOf(DocOf(body))
  {
    var a, b := Heading(2, "a"), Heading(2, "b");
    LetterIsTrimmed();
    LettersAreSingle();
    UnclosedFenceHides(a, b, text => text);
  }

  lemma UnclosedFenceHides(a: Heading, b: Heading, fold: string -> string)
    requires a.text == "a" && a.level == b.level == 2 && Trimmed(a.text)
      && Trimmed(b.text) && SingleLine(a.text) && SingleLine(b.text)
    requires fold(a.text) != fold(b.text) && fold("```") != fold("a")
    ensures var body := Joined([HeadingText(a), HeadingText(b)]);
      var r := Replaced(body, "a", "```", fold);
      && r.Written? && HeadingsOf(DocOf(body)) == [a, b]
      && HeadingsOf(DocOf(r.body)) != HeadingsOf(DocOf(body))
  {
    hide *;
    var lines := [HeadingText(a), HeadingText(b)];
    var body := Joined(lines);
    HeadingReadsBack(a);
    HeadingReadsBack(b);
    TwoHeadings(a, b);
    FenceText(fold);
    FenceLineOf();
    TwoAreSingle(a, b);
    SplitJoined(lines);
    MatchesFirst(a, b, fold);
    ReplacedIs(body, "a", "```", fold);
    WriteKeepsHeadings(body, "a", "```", fold, 0);
    TailOfTwo(body, a, b);
    DocOfIs(body);
  }

  lemma TwoAreSingle(a: Heading, b: Heading)
    requires SingleLine(a.text) && SingleLine(b.text)
    ensures SingleLines([HeadingText(a), HeadingText(b)])
  {
    HeadingIsSingle(a);
    HeadingIsSingle(b);
  }

  lemma LettersAreSingle()
    ensures SingleLine("a") && SingleLine("b")
  {
  }

  lemma LetterIsTrimmed()
    ensures Trimmed("a") && Trimmed("b") && Trimmed("```")
  {
  }

  lemma TwoHeadings(a: Heading, b: Heading)
    requires !IsFence(HeadingText(a)) && HeadingOf(HeadingText(a)) == Some(a)
    requires !IsFence(HeadingText(b)) && HeadingOf(HeadingText(b)) == Some(b)
    ensures Indexed([HeadingText(a), HeadingText(b)]) == [DraftHeading(0, a), DraftHeading(1, b)]
    ensures Read([HeadingText(a), HeadingText(b)], false) == Doc([], [Section(a, []), Section(b, [])])
    ensures Read([HeadingText(b)], false) == Doc([], [Section(b, [])])
    ensures Read([HeadingText(b)], true).sections == []
  {
    hide HeadingText, IsFence, HeadingOf;
    var first := [HeadingText(a)];
    FirstIsHeading(HeadingText(a), a);
    FirstIsHeading(HeadingText(b), b);
    OneLine(HeadingText(a), a);
    OneLine(HeadingText(b), b);
    ReadHeading(first, HeadingText(b), b);
    LastOf(first, HeadingText(b));
    assert first + [HeadingText(b)] == [HeadingText(a), HeadingText(b)];
    assert [Section(a, [])] + [Section(b, [])] == [Section(a, []), Section(b, [])];
    assert [DraftHeading(0, a)] + [DraftHeading(1, b)] == [DraftHeading(0, a), DraftHeading(1, b)];
  }

  lemma OneLine(line: string, h: Heading)
    requires !IsFence(line) && HeadingOf(line) == Some(h)
    ensures Indexed([line]) == [DraftHeading(0, h)] && !FenceAfter([line], false)
    ensures Read([line], true).sections == []
  {
    hide IsFence, HeadingOf;
    assert [line][..0] == [];
    NilAppend([DraftHeading(0, h)]);
  }

  lemma FenceLineOf()
    ensures TrimSpace("```") == "```" && TrimSpace("a") == "a" && IsFence("```") && Split("```") == ["```"]
  {
    hide IsSpace, TrimSpace;
    LetterIsTrimmed();
    TrimmedStays("```");
    TrimmedStays("a");
    SplitLine("```");
  }

  lemma FenceText(fold: string -> string)
    requires fold("```") != fold("a")
    ensures SectionText("```", "a", fold) == "```" && !Balanced("```") && Indexed(Split("```")) == []
  {
    FenceLineOf();
    hide TrimSpace, IsFence, Split, HeadingOf;
    var lines := ["```"];
    assert lines[..0] == [];
    assert FirstText(lines, 0) == 0;
    assert WithoutHashes("```") == "```";
    assert StripLeadingHeading("```", "a", fold) == "```";
  }

  lemma MatchesFirst(a: Heading, b: Heading, fold: string -> string)
    requires fold(a.text) != fold(b.text)
    ensures Matching([DraftHeading(0, a), DraftHeading(1, b)], a.text, fold) == [DraftHeading(0, a)]
  {
    var one := [DraftHeading(0, a)];
    assert one[..0] == [];
    assert Matching(one, a.text, fold) == one;
    LastOf(one, DraftHeading(1, b));
    assert one + [DraftHeading(1, b)] == [DraftHeading(0, a), DraftHeading(1, b)];
  }

  lemma EndOfFirst(a: Heading, b: Heading)
    ensures EndAfter([DraftHeading(0, a), DraftHeading(1, b)], 0, 2) == 1
  {
    var two := [DraftHeading(0, a), DraftHeading(1, b)];
    assert two[1..][0].index == 1;
  }

  lemma ReplacedIs(body: string, heading: string, content: string, fold: string -> string)
    requires |Matching(Indexed(Split(body)), TrimSpace(heading), fold)| == 1
    requires Indexed(Split(SectionText(content, heading, fold))) == []
    ensures Replaced(body, heading, content, fold).Written?
  {
    hide Indexed, Matching, SectionText, Split, EndAfter, Collapse, RawBody, TrimSpace;
    TheMatch(Indexed(Split(body)), TrimSpace(heading), fold);
    HeadingPlaces(Split(body), Matching(Indexed(Split(body)), TrimSpace(heading), fold)[0]);
  }

  lemma TailOfTwo(body: string, a: Heading, b: Heading)
    requires Split(body) == [HeadingText(a), HeadingText(b)]
    requires Indexed(Split(body)) == [DraftHeading(0, a), DraftHeading(1, b)]
    ensures TailOf(body, 0) == [HeadingText(b)]
    ensures HeadingsOf(Doc([], [Section(a, []), Section(b, [])])) == [a, b]
    ensures HeadingsOf(Doc([], [Section(b, [])])) == [b]
    ensures forall d: Doc :: d.sections == [] ==> HeadingsOf(d) == []
  {
    hide Indexed, Split, HeadingText, EndAfter;
    EndOfFirst(a, b);
    assert [Section(a, []), Section(b, [])][..1] == [Section(a, [])];
    assert [Section(a, [])][..0] == [] && [Section(b, [])][..0] == [];
    assert [HeadingText(a), HeadingText(b)][1..] == [HeadingText(b)];
  }

  // ---------------------------------------------------------------- whole sessions

  datatype Write = Write(heading: string, content: string)

  /** A draft after some writes; refused writes leave it as it is. */
  function After(body: string, writes: seq<Write>, fold: string -> string): string {
    if writes == [] then body
    else
      var before, w := After(body, writes[..|writes| - 1], fold), writes[|writes| - 1];
      match Replaced(before, w.heading, w.content, fold)
      case Written(next) => next
      case _ => before
  }

  lemma StepKeepsHeadings(body: string, w: Write, fold: string -> string)
    requires Replaced(body, w.heading, w.content, fold).Written? && Balanced(SectionText(w.content, w.heading, fold))
    ensures HeadingsOf(DocOf(Replaced(body, w.heading, w.content, fold).body)) == HeadingsOf(DocOf(body))
  {
    hide *;
    var k := WrittenAt(body, w.heading, w.content, fold);
    WriteKeepsHeadings(body, w.heading, w.content, fold, k);
  }

  /** Every write that succeeds carries balanced text. */
  ghost predicate BalancedWrites(body: string, writes: seq<Write>, fold: string -> string) {
    forall i :: 0 <= i < |writes| && Succeeds(After(body, writes[..i], fold), writes[i], fold) ==>
      Balanced(SectionText(writes[i].content, writes[i].heading, fold))
  }

  predicate Succeeds(body: string, w: Write, fold: string -> string) {
    Replaced(body, w.heading, w.content, fold).Written?
  }

  lemma BalancedPrefix(body: string, writes: seq<Write>, fold: string -> string)
    requires writes != [] && BalancedWrites(body, writes, fold)
    ensures var n := |writes| - 1;
      && BalancedWrites(body, writes[..n], fold)
      && (Succeeds(After(body, writes[..n], fold), writes[n], fold) ==>
            Balanced(SectionText(writes[n].content, writes[n].heading, fold)))
  {
    hide After, Succeeds, Balanced, SectionText;
    var n := |writes| - 1;
    forall i | 0 <= i < n ensures writes[..n][..i] == writes[..i] && writes[..n][i] == writes[i] {
      TakeTake(writes, i, n);
    }
  }

  /** After an outline is set, any sequence of writes, refused ones among them, whose successful
      ones carry balanced fences leaves exactly the outline's headings. */
  lemma {:induction false} OutlineSurvives(sections: seq<Heading>, writes: seq<Write>, fold: string -> string)
    requires sections != []
    requires forall i :: 0 <= i < |sections| ==>
      2 <= sections[i].level <= 3 && Trimmed(sections[i].text) && SingleLine(sections[i].text)
    requires BalancedWrites(Joined(OutlineLines(sections)), writes, fold)
    ensures HeadingsOf(DocOf(After(Joined(OutlineLines(sections)), writes, fold))) == sections
  {
    hide Replaced, HeadingsOf, DocOf, Joined, OutlineLines, Balanced, SectionText, Trimmed, SingleLine, BalancedWrites;
    if writes == [] {
      OutlineReadsBack(sections);
    } else {
      var before := After(Joined(OutlineLines(sections)), writes[..|writes| - 1], fold);
      var w := writes[|writes| - 1];
      BalancedPrefix(Joined(OutlineLines(sections)), writes, fold);
      OutlineSurvives(sections, writes[..|writes| - 1], fold);
      if Replaced(before, w.heading, w.content, fold).Written? {
        StepKeepsHeadings(before, w, fold);
      }
    }
  }
}
