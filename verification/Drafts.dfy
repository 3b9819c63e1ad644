/** Outlines and section writes of a content draft (internal/aichattools/content_drafts.go). */
module Drafts {
  import opened Options
  import opened Text
  import opened Seqs
  import opened DraftLines

  // ---------------------------------------------------------------- one line

  datatype Heading = Heading(level: nat, text: string)

  predicate IsFence(line: string) {
    var trimmed := TrimSpace(line);
    StartsThrice(trimmed, '`') || StartsThrice(trimmed, '~')
  }

  predicate StartsThrice(s: string, c: char) {
    |s| >= 3 && s[0] == c && s[1] == c && s[2] == c
  }

  function Hashes(s: string): (n: nat)
    ensures n <= |s| && (n < |s| ==> s[n] != '#') && forall i :: 0 <= i < n ==> s[i] == '#'
  {
    if s == [] || s[0] != '#' then 0 else Hashes(s[1..]) + 1
  }

  /** An ATX heading: one to six hashes, a blank, and some text. */
  function HeadingOf(line: string): Option<Heading> {
    var trimmed := TrimSpace(line);
    var level := Hashes(trimmed);
    if level == 0 || level > 6 || level == |trimmed| || (trimmed[level] != ' ' && trimmed[level] != '\t') then None
    else
      var text := TrimSpace(trimmed[level..]);
      if text == "" then None else Some(Heading(level, text))
  }

  /** The trimmed line is this many hashes, a blank, and this text. */
  predicate Spells(line: string, h: Heading) {
    var trimmed := TrimSpace(line);
    && 1 <= h.level <= 6 && h.level < |trimmed|
    && (forall i :: 0 <= i < h.level ==> trimmed[i] == '#')
    && (trimmed[h.level] == ' ' || trimmed[h.level] == '\t')
    && h.text == TrimSpace(trimmed[h.level..]) != ""
  }

  /** A line is a heading exactly when it spells one, and a fence when it starts with three backticks
      or three tildes. */
  lemma LineIs(line: string, h: Heading)
    ensures HeadingOf(line) == Some(h) <==> Spells(line, h)
    ensures IsFence(line) <==> "```" <= TrimSpace(line) || "~~~" <= TrimSpace(line)
  {
    hide TrimSpace;
  }

  datatype LineKind = FenceLine | HeadingLine(heading: Heading) | BodyLine

  /** Inside a fence only its end matters. */
  function KindOf(line: string, inFence: bool): LineKind {
    if IsFence(line) then FenceLine
    else if inFence then BodyLine
    else match HeadingOf(line) case Some(heading) => HeadingLine(heading) case None => BodyLine
  }

  function FenceAfter(lines: seq<string>, inFence: bool): bool {
    if lines == [] then inFence
    else if IsFence(lines[|lines| - 1]) then !FenceAfter(lines[..|lines| - 1], inFence)
    else FenceAfter(lines[..|lines| - 1], inFence)
  }

  // ---------------------------------------------------------------- a draft as sections

  /** A heading and the lines up to the next one. */
  datatype Section = Section(heading: Heading, body: seq<string>)

  datatype Doc = Doc(preamble: seq<string>, sections: seq<Section>)

  function WithBody(d: Doc, lines: seq<string>): Doc {
    if d.sections == [] then d.(preamble := d.preamble + lines)
    else
      var last := |d.sections| - 1;
      d.(sections := d.sections[..last] + [d.sections[last].(body := d.sections[last].body + lines)])
  }

  function WithLine(d: Doc, line: string, inFence: bool): Doc {
    match KindOf(line, inFence)
    case HeadingLine(heading) => d.(sections := d.sections + [Section(heading, [])])
    case _ => WithBody(d, [line])
  }

  /** The reference reading of a draft, line by line. */
  function Read(lines: seq<string>, inFence: bool): Doc {
    if lines == [] then Doc([], [])
    else
      var front := lines[..|lines| - 1];
      WithLine(Read(front, inFence), lines[|lines| - 1], FenceAfter(front, inFence))
  }

  function DocOf(body: string): Doc {
    Read(Split(body), false)
  }

  function HeadingsOf(d: Doc): seq<Heading> {
    HeadingsIn(d.sections)
  }

  function HeadingsIn(sections: seq<Section>): (r: seq<Heading>)
    ensures |r| == |sections| && forall i :: 0 <= i < |r| ==> r[i] == sections[i].heading
  {
    if sections == [] then [] else HeadingsIn(sections[..|sections| - 1]) + [sections[|sections| - 1].heading]
  }

  /** Reading on after another text. */
  function Appended(a: Doc, b: Doc): Doc {
    var d := WithBody(a, b.preamble);
    d.(sections := d.sections + b.sections)
  }

  lemma WithBodyNothing(d: Doc)
    ensures WithBody(d, []) == d
  {
    AppendNil(d.preamble);
    if d.sections != [] {
      AppendNil(d.sections[|d.sections| - 1].body);
    }
  }

  lemma WithBodyTwice(d: Doc, a: seq<string>, b: seq<string>)
    ensures WithBody(WithBody(d, a), b) == WithBody(d, a + b)
    ensures |WithBody(d, a).sections| == |d.sections|
  {
    AppendAssoc(d.preamble, a, b);
    if d.sections != [] {
      AppendAssoc(d.sections[|d.sections| - 1].body, a, b);
    }
  }

  lemma AppendedNothing(d: Doc)
    ensures Appended(d, Doc([], [])) == d
  {
    WithBodyNothing(d);
    AppendNil(d.sections);
  }

  lemma AppendedBody(a: Doc, b: Doc, lines: seq<string>)
    ensures Appended(a, WithBody(b, lines)) == WithBody(Appended(a, b), lines)
  {
    if b.sections == [] {
      WithBodyTwice(a, b.preamble, lines);
      AppendNil(WithBody(a, b.preamble).sections);
      AppendNil(WithBody(a, b.preamble + lines).sections);
    } else {
      var d := WithBody(a, b.preamble);
      var last := |b.sections| - 1;
      var grown := b.sections[last].(body := b.sections[last].body + lines);
      assert (d.sections + b.sections)[..|d.sections| + last] == d.sections + b.sections[..last];
      AppendAssoc(d.sections, b.sections[..last], [grown]);
    }
  }

  lemma AppendedHeading(a: Doc, b: Doc, s: Section)
    ensures Appended(a, b.(sections := b.sections + [s])) == Appended(a, b).(sections := Appended(a, b).sections + [s])
  {
    AppendAssoc(WithBody(a, b.preamble).sections, b.sections, [s]);
  }

  lemma AppendedLine(a: Doc, b: Doc, line: string, inFence: bool)
    ensures Appended(a, WithLine(b, line, inFence)) == WithLine(Appended(a, b), line, inFence)
  {
    hide KindOf, Appended, WithBody;
    match KindOf(line, inFence)
    case HeadingLine(heading) => AppendedHeading(a, b, Section(heading, []));
    case _ => AppendedBody(a, b, [line]);
  }

  lemma {:induction false} FenceAppend(a: seq<string>, b: seq<string>, inFence: bool)
    ensures FenceAfter(a + b, inFence) == FenceAfter(b, FenceAfter(a, inFence))
  {
    hide IsFence;
    if b == [] {
      AppendNil(a);
    } else {
      var front, last := b[..|b| - 1], b[|b| - 1];
      AppendAssoc(a, front, [last]);
      LastOf(a + front, last);
      assert b == front + [last];
      FenceAppend(a, front, inFence);
    }
  }

  /** Reading composes: a text in two parts reads as its parts, the second in the fence state the
      first leaves. */
  lemma {:induction false} ReadAppend(a: seq<string>, b: seq<string>, inFence: bool)
    ensures Read(a + b, inFence) == Appended(Read(a, inFence), Read(b, FenceAfter(a, inFence)))
  {
    hide WithLine, Appended, FenceAfter;
    if b == [] {
      AppendNil(a);
      AppendedNothing(Read(a, inFence));
    } else {
      var front, last := b[..|b| - 1], b[|b| - 1];
      AppendAssoc(a, front, [last]);
      LastOf(a + front, last);
      assert b == front + [last];
      ReadAppend(a, front, inFence);
      FenceAppend(a, front, inFence);
      AppendedLine(Read(a, inFence), Read(front, FenceAfter(a, inFence)),
        last, FenceAfter(front, FenceAfter(a, inFence)));
    }
  }

  // ---------------------------------------------------------------- collapsed blank lines

  /** Runs of empty lines shortened to one. */
  function Squeeze(lines: seq<string>): seq<string> {
    if lines == [] then []
    else
      var n := |lines| - 1;
      Squeeze(lines[..n]) + (if n > 0 && lines[n - 1] == "" && lines[n] == "" then [] else [lines[n]])
  }

  predicate AdjacentEmpty(lines: seq<string>) {
    exists i :: 0 < i < |lines| && lines[i - 1] == "" && lines[i] == ""
  }

  /** Nothing else is lost: without two empty lines in a row, and only then, all lines stay. */
  lemma {:induction false} SqueezeIsIdentity(lines: seq<string>)
    ensures |Squeeze(lines)| <= |lines|
    ensures Squeeze(lines) == lines <==> |Squeeze(lines)| == |lines|
    ensures Squeeze(lines) == lines <==> !AdjacentEmpty(lines)
  {
    if lines != [] {
      var n := |lines| - 1;
      var front := lines[..n];
      SqueezeIsIdentity(front);
      assert lines == front + [lines[n]];
      assert forall i :: 0 <= i < n ==> front[i] == lines[i];
      if AdjacentEmpty(lines) {
        var i :| 0 < i < |lines| && lines[i - 1] == "" && lines[i] == "";
        assert i < n ==> front[i - 1] == "" && front[i] == "";
      }
    }
  }

  predicate EndsEmpty(lines: seq<string>) {
    lines != [] && lines[|lines| - 1] == ""
  }

  lemma {:induction false} SqueezeEnds(lines: seq<string>)
    ensures EndsEmpty(Squeeze(lines)) <==> EndsEmpty(lines)
  {
    if lines != [] {
      SqueezeEnds(lines[..|lines| - 1]);
    }
  }

  lemma SqueezeSnoc(lines: seq<string>, line: string)
    ensures Squeeze(lines + [line]) ==
      Squeeze(lines) + (if EndsEmpty(lines) && line == "" then [] else [line])
  {
    LastOf(lines, line);
  }

  lemma SqueezeNext(a: seq<string>, b: seq<string>, line: string)
    requires Squeeze(a) == Squeeze(b)
    ensures Squeeze(a + [line]) == Squeeze(b + [line])
  {
    hide Squeeze, EndsEmpty;
    SqueezeEnds(a);
    SqueezeEnds(b);
    SqueezeSnoc(a, line);
    SqueezeSnoc(b, line);
  }

  /** The reading with runs of empty lines shortened. */
  function Squeezed(d: Doc): Doc {
    Doc(Squeeze(d.preamble), SqueezedSections(d.sections))
  }

  function SqueezedSections(sections: seq<Section>): seq<Section> {
    seq(|sections|, i requires 0 <= i < |sections| => sections[i].(body := Squeeze(sections[i].body)))
  }

  lemma SqueezedSnoc(sections: seq<Section>, s: Section)
    ensures SqueezedSections(sections + [s]) == SqueezedSections(sections) + [s.(body := Squeeze(s.body))]
  {
    hide Squeeze;
  }

  lemma SqueezedHeadings(d: Doc)
    ensures HeadingsOf(Squeezed(d)) == HeadingsOf(d)
  {
    hide Squeeze;
  }

  /** Documents that differ in runs of empty lines only still do after one more line. */
  lemma SqueezedBody(a: Doc, b: Doc, line: string)
    requires Squeezed(a) == Squeezed(b)
    ensures Squeezed(WithBody(a, [line])) == Squeezed(WithBody(b, [line]))
  {
    hide Squeeze;
    var n := |SqueezedSections(a.sections)|;
    assert |a.sections| == |b.sections| == n;
    if n == 0 {
      SqueezeNext(a.preamble, b.preamble, line);
    } else {
      assert SqueezedSections(a.sections)[n - 1] == SqueezedSections(b.sections)[n - 1];
      SqueezeNext(a.sections[n - 1].body, b.sections[n - 1].body, line);
      SqueezedLast(a, [line]);
      SqueezedLast(b, [line]);
    }
  }

  lemma SqueezedLast(d: Doc, lines: seq<string>)
    requires d.sections != []
    ensures var last := |d.sections| - 1;
      && WithBody(d, lines).preamble == d.preamble
      && SqueezedSections(WithBody(d, lines).sections) ==
           SqueezedSections(d.sections)[..last] + [d.sections[last].(body := Squeeze(d.sections[last].body + lines))]
  {
    hide Squeeze;
  }

  lemma SqueezedLine(a: Doc, b: Doc, line: string, inFence: bool)
    requires Squeezed(a) == Squeezed(b)
    ensures Squeezed(WithLine(a, line, inFence)) == Squeezed(WithLine(b, line, inFence))
  {
    hide KindOf, WithBody, Squeeze, SqueezedSections;
    match KindOf(line, inFence)
    case HeadingLine(heading) =>
      SqueezedSnoc(a.sections, Section(heading, []));
      SqueezedSnoc(b.sections, Section(heading, []));
    case _ => SqueezedBody(a, b, line);
  }

  lemma EmptyLine(inFence: bool)
    ensures TrimSpace("") == "" && !IsFence("") && HeadingOf("") == None
    ensures Read([""], inFence) == Doc([""], []) && FenceAfter([""], inFence) == inFence
  {
    assert [""][..0] == [];
    NilAppend([""]);
  }

  lemma ReadEmptyLine(a: seq<string>, inFence: bool)
    ensures Read(a + [""], inFence) == WithBody(Read(a, inFence), [""])
    ensures FenceAfter(a + [""], inFence) == FenceAfter(a, inFence)
  {
    EmptyLine(FenceAfter(a, inFence));
    LastOf(a, "");
    hide IsFence, HeadingOf;
  }

  lemma SecondEmpty(d: Doc)
    ensures Squeezed(WithBody(WithBody(d, [""]), [""])) == Squeezed(WithBody(d, [""]))
  {
    WithBodyTwice(d, [""], [""]);
    if d.sections == [] {
      TwoEmpty(d.preamble);
    } else {
      TwoEmpty(d.sections[|d.sections| - 1].body);
      hide Squeeze;
      SqueezedLast(d, [""] + [""]);
      SqueezedLast(d, [""]);
    }
  }

  lemma TwoEmpty(lines: seq<string>)
    ensures Squeeze(lines + ([""] + [""])) == Squeeze(lines + [""])
  {
    hide Squeeze;
    AppendAssoc(lines, [""], [""]);
    SqueezeSnoc(lines + [""], "");
    LastOf(lines, "");
    AppendNil(Squeeze(lines + [""]));
  }

  /** Only an empty line next to another one is invisible. */
  lemma {:induction false} EmptyAfterEmpty(a: seq<string>, b: seq<string>, inFence: bool)
    ensures Squeezed(Read(a + [""] + [""] + b, inFence)) == Squeezed(Read(a + [""] + b, inFence))
    ensures FenceAfter(a + [""] + [""] + b, inFence) == FenceAfter(a + [""] + b, inFence)
  {
    hide WithLine, WithBody, Squeezed, IsFence;
    ReadEmptyLine(a, inFence);
    ReadEmptyLine(a + [""], inFence);
    if b == [] {
      AppendNil(a + [""]);
      AppendNil(a + [""] + [""]);
      SecondEmpty(Read(a, inFence));
    } else {
      var front, last := b[..|b| - 1], b[|b| - 1];
      EmptyAfterEmpty(a, front, inFence);
      assert b == front + [last];
      AppendAssoc(a + [""], front, [last]);
      AppendAssoc(a + [""] + [""], front, [last]);
      LastOf(a + [""] + front, last);
      LastOf(a + [""] + [""] + front, last);
      SqueezedLine(Read(a + [""] + [""] + front, inFence),
        Read(a + [""] + front, inFence), last, FenceAfter(a + [""] + front, inFence));
    }
  }

  /** One pass of collapsing keeps the draft's reading, wherever it starts. */
  lemma {:induction false} PassKeepsDoc(before: string, s: string)
    ensures Squeezed(DocOf(before + Pass(s))) == Squeezed(DocOf(before + s))
    decreases |s|
  {
    hide DocOf, Squeezed;
    if s == [] {
    } else if StartsWithRun(s) {
      var rest := s[3..];
      var two := ['\n', '\n'];
      PassKeepsDoc(before + two, rest);
      AppendAssoc(before, two, Pass(rest));
      AppendAssoc(before, two, rest);
      assert s == ['\n'] + (two + rest);
      ThirdNewline(before, rest);
    } else {
      PassKeepsDoc(before + [s[0]], s[1..]);
      AppendAssoc(before, [s[0]], Pass(s[1..]));
      AppendAssoc(before, [s[0]], s[1..]);
      assert s == [s[0]] + s[1..];
    }
  }

  lemma ThirdNewline(before: string, rest: string)
    ensures Squeezed(DocOf(before + (['\n'] + (['\n', '\n'] + rest))))
      == Squeezed(DocOf(before + (['\n', '\n'] + rest)))
  {
    hide Read, Split, Squeezed;
    var afterTwo := ['\n'] + rest;
    assert before + (['\n', '\n'] + rest) == before + ['\n'] + afterTwo;
    assert before + (['\n'] + (['\n', '\n'] + rest)) == before + ['\n'] + (['\n'] + afterTwo);
    SplitAt(before, afterTwo);
    SplitAt(before, ['\n'] + afterTwo);
    NewlineFirst(rest);
    NewlineFirst(afterTwo);
    AppendAssoc(Split(before), [""], Split(rest));
    AppendAssoc(Split(before), [""], [""] + Split(rest));
    AppendAssoc(Split(before) + [""], [""], Split(rest));
    EmptyAfterEmpty(Split(before), Split(rest), false);
  }

  /** So collapsing keeps every heading and every line of every body, and shortens runs of empty
      lines only. */
  lemma {:induction false} CollapseKeepsDoc(s: string)
    ensures Squeezed(DocOf(Collapse(s, 0))) == Squeezed(DocOf(s))
    decreases |s|
  {
    hide DocOf, Squeezed;
    if HasRun(s) {
      PassCollapses(s, 0);
      CollapseKeepsDoc(Pass(s));
      PassKeepsDoc([], s);
      NilAppend(s);
      NilAppend(Pass(s));
    } else {
      NothingToCollapse(s, 0);
    }
  }

  // ---------------------------------------------------------------- the outline

  predicate Trimmed(text: string) {
    text != "" && !IsSpace(text[0]) && !IsSpace(text[|text| - 1])
  }

  function HeadingText(h: Heading): string {
    seq(h.level, _ => '#') + [' '] + h.text
  }

  /** strings.Join of the heading lines with blank lines between, and a final newline. */
  function OutlineLines(sections: seq<Heading>): seq<string> {
    if sections == [] then []
    else OutlineLines(sections[..|sections| - 1]) + [HeadingText(sections[|sections| - 1]), ""]
  }

  method RenderOutline(sections: seq<Heading>) returns (body: string)
    requires sections != []
    ensures body == Joined(OutlineLines(sections))
  {
    hide HeadingText, OutlineLines, Joined;
    var parts: seq<string> := [];
    for i := 0 to |sections|
      invariant |parts| == i && forall k :: 0 <= k < i ==> parts[k] == HeadingText(sections[k])
    {
      parts := parts + [HeadingText(sections[i])];
    }
    body := parts[0];
    FirstHeading(sections);
    for i := 1 to |parts|
      invariant body + ['\n'] == Joined(OutlineLines(sections[..i]))
    {
      NextHeading(sections, i);
      BlankLineBetween(body, parts[i]);
      body := body + ['\n', '\n'] + parts[i];
    }
    TakeAll(sections);
    body := body + ['\n'];
  }

  lemma BlankLineBetween(body: string, part: string)
    ensures body + ['\n', '\n'] + part + ['\n'] == body + ['\n'] + ['\n'] + part + ['\n']
  {
    assert ['\n', '\n'] == ['\n'] + ['\n'];
    AppendAssoc(body, ['\n'], ['\n']);
  }

  lemma FirstHeading(sections: seq<Heading>)
    requires sections != []
    ensures Joined(OutlineLines(sections[..1])) == HeadingText(sections[0]) + ['\n']
  {
    assert sections[..1] == [sections[0]] && [sections[0]][..0] == [];
    NilAppend([HeadingText(sections[0]), ""]);
    JoinedSnoc([HeadingText(sections[0])], "");
    assert [HeadingText(sections[0])] + [""] == [HeadingText(sections[0]), ""];
  }

  lemma NextHeading(sections: seq<Heading>, i: nat)
    requires 0 < i < |sections|
    ensures Joined(OutlineLines(sections[..i + 1]))
      == Joined(OutlineLines(sections[..i])) + ['\n'] + HeadingText(sections[i]) + ['\n']
  {
    TakeSnoc(sections, i);
    var lines, text := OutlineLines(sections[..i]), HeadingText(sections[i]);
    assert lines + [text, ""] == lines + [text] + [""];
    JoinedSnoc(lines, text);
    JoinedSnoc(lines + [text], "");
  }

  lemma JoinedSnoc(lines: seq<string>, line: string)
    requires lines != []
    ensures Joined(lines + [line]) == Joined(lines) + ['\n'] + line
  {
    DropAppend(lines, [line]);
    LastOf(lines[1..], line);
  }

  lemma TrimmedStays(s: string)
    requires Trimmed(s)
    ensures TrimSpace(s) == s
  {
    hide IsSpace;
    assert TrimLeft(s) == s;
    assert TrimRight(s) == s;
  }

  lemma {:induction false} HashesOf(level: nat, rest: string)
    requires rest != [] && rest[0] != '#'
    ensures Hashes(seq(level, _ => '#') + rest) == level
  {
    var s := seq(level, _ => '#') + rest;
    if level == 0 {
      assert s == rest;
    } else {
      assert s[1..] == seq(level - 1, _ => '#') + rest;
      HashesOf(level - 1, rest);
    }
  }

  lemma TrimLeftBlank(text: string)
    requires Trimmed(text)
    ensures TrimSpace([' '] + text) == text
  {
    assert ([' '] + text)[1..] == text;
    TrimmedStays(text);
  }

  /** A rendered heading line reads back as that heading. */
  lemma HeadingReadsBack(h: Heading)
    requires 1 <= h.level <= 6 && Trimmed(h.text)
    ensures !IsFence(HeadingText(h)) && HeadingOf(HeadingText(h)) == Some(h)
  {
    hide IsSpace, TrimSpace;
    var line := HeadingText(h);
    assert line[0] == '#' && line[|line| - 1] == h.text[|h.text| - 1];
    assert !IsSpace('#') by { HashIsNoSpace(); }
    TrimmedStays(line);
    assert line == seq(h.level, _ => '#') + ([' '] + h.text);
    HashesOf(h.level, [' '] + h.text);
    assert line[h.level..] == [' '] + h.text;
    TrimLeftBlank(h.text);
  }

  lemma HashIsNoSpace()
    ensures !IsSpace('#')
  {
  }

  /** Outside fences a heading line starts a section. */
  lemma ReadHeading(lines: seq<string>, line: string, h: Heading)
    requires !IsFence(line) && HeadingOf(line) == Some(h) && !FenceAfter(lines, false)
    ensures Read(lines + [line], false)
      == Read(lines, false).(sections := Read(lines, false).sections + [Section(h, [])])
    ensures !FenceAfter(lines + [line], false)
  {
    hide HeadingOf, IsFence;
    LastOf(lines, line);
  }

  lemma {:induction false} EmptySections(sections: seq<Heading>)
    requires forall i :: 0 <= i < |sections| ==> 1 <= sections[i].level <= 6 && Trimmed(sections[i].text)
    ensures var d := Read(OutlineLines(sections), false);
      && d.preamble == [] && HeadingsOf(d) == sections
      && forall i :: 0 <= i < |d.sections| ==> d.sections[i].body == [""]
    ensures !FenceAfter(OutlineLines(sections), false)
  {
    hide HeadingOf, IsFence, HeadingText, Read, FenceAfter, OutlineLines, Trimmed, HeadingsIn;
    if sections == [] {
      NothingRead();
    } else {
      var front, last := sections[..|sections| - 1], sections[|sections| - 1];
      EmptySections(front);
      HeadingReadsBack(last);
      var lines := OutlineLines(front);
      OutlineSnoc(sections);
      HeadingsSnoc(Read(lines, false).sections, Section(last, [""]));
      ReadHeading(lines, HeadingText(last), last);
      ReadEmptyLine(lines + [HeadingText(last)], false);
      LastOf(Read(lines, false).sections, Section(last, []));
      NilAppend([""]);
    }
  }

  lemma OutlineSnoc(sections: seq<Heading>)
    requires sections != []
    ensures OutlineLines(sections)
      == OutlineLines(sections[..|sections| - 1]) + [HeadingText(sections[|sections| - 1])] + [""]
  {
    hide HeadingText;
    AppendAssoc(OutlineLines(sections[..|sections| - 1]), [HeadingText(sections[|sections| - 1])], [""]);
  }

  lemma HeadingsSnoc(sections: seq<Section>, s: Section)
    ensures HeadingsIn(sections + [s]) == HeadingsIn(sections) + [s.heading]
  {
    LastOf(sections, s);
  }

  lemma NothingRead()
    ensures Read([], false) == Doc([], []) && !FenceAfter([], false) && OutlineLines([]) == [] && HeadingsIn([]) == []
  {
  }

  lemma {:induction false} OutlineIsSingle(sections: seq<Heading>)
    ensures SingleLines(OutlineLines(sections)) <==> forall i :: 0 <= i < |sections| ==> SingleLine(sections[i].text)
  {
    if sections != [] {
      var front, last := sections[..|sections| - 1], sections[|sections| - 1];
      OutlineIsSingle(front);
      HeadingIsSingle(last);
      SingleTwo(OutlineLines(front), HeadingText(last));
      assert forall i :: 0 <= i < |front| ==> sections[i] == front[i];
    }
  }

  lemma HeadingIsSingle(h: Heading)
    ensures SingleLine(HeadingText(h)) <==> SingleLine(h.text)
  {
    var line := HeadingText(h);
    if SingleLine(line) {
      forall i | 0 <= i < |h.text| ensures h.text[i] != '\n' {
        assert line[h.level + 1 + i] == h.text[i];
      }
    }
  }

  lemma SingleTwo(lines: seq<string>, line: string)
    ensures SingleLines(lines + [line, ""]) <==> SingleLines(lines) && SingleLine(line)
  {
    if SingleLines(lines + [line, ""]) {
      forall i | 0 <= i < |lines| ensures SingleLine(lines[i]) {
        assert (lines + [line, ""])[i] == lines[i];
      }
      assert (lines + [line, ""])[|lines|] == line;
    }
  }

  /** A heading read from a line has no newline in it. */
  lemma HeadingIsOneLine(line: string)
    requires SingleLine(line) && HeadingOf(line).Some?
    ensures SingleLine(HeadingOf(line).value.text)
  {
    hide IsSpace;
    TrimSingle(line);
    var trimmed := TrimSpace(line);
    TrimSingle(trimmed[Hashes(trimmed)..]);
  }

  lemma TrimSingle(s: string)
    requires SingleLine(s)
    ensures SingleLine(TrimSpace(s))
  {
    hide IsSpace;
  }

  lemma WithBodyHeadings(d: Doc, lines: seq<string>)
    ensures HeadingsOf(WithBody(d, lines)) == HeadingsOf(d)
  {
    if d.sections != [] {
      var last := d.sections[|d.sections| - 1];
      LastOf(d.sections[..|d.sections| - 1], last.(body := last.body + lines));
    }
  }

  lemma {:induction false} ReadIsOneLine(lines: seq<string>, inFence: bool)
    requires SingleLines(lines)
    ensures forall i :: 0 <= i < |HeadingsOf(Read(lines, inFence))| ==>
      SingleLine(HeadingsOf(Read(lines, inFence))[i].text)
  {
    hide HeadingOf, IsFence;
    if lines != [] {
      var front, last := lines[..|lines| - 1], lines[|lines| - 1];
      ReadIsOneLine(front, inFence);
      WithBodyHeadings(Read(front, inFence), [last]);
      if HeadingOf(last).Some? {
        HeadingIsOneLine(last);
        LastOf(Read(front, inFence).sections, Section(HeadingOf(last).value, []));
      }
    }
  }

  /** A rendered outline reads back as exactly its headings, with one empty line under each, precisely when
      every heading is a single line: a newline inside one is accepted and splits it. */
  lemma OutlineReadsBack(sections: seq<Heading>)
    requires sections != [] && forall i :: 0 <= i < |sections| ==>
      2 <= sections[i].level <= 3 && Trimmed(sections[i].text)
    ensures var d := DocOf(Joined(OutlineLines(sections)));
      && (HeadingsOf(d) == sections <==> forall i :: 0 <= i < |sections| ==> SingleLine(sections[i].text))
      && ((forall i :: 0 <= i < |sections| ==> SingleLine(sections[i].text)) ==>
            d.preamble == [] && forall i :: 0 <= i < |d.sections| ==> d.sections[i].body == [""])
  {
    hide Read, OutlineLines, Split, HeadingsIn;
    var body := Joined(OutlineLines(sections));
    if forall i :: 0 <= i < |sections| ==> SingleLine(sections[i].text) {
      OutlineIsSingle(sections);
      OutlineIsNotEmpty(sections);
      SplitJoined(OutlineLines(sections));
      EmptySections(sections);
    } else {
      SplitIsSingle(body);
      ReadIsOneLine(Split(body), false);
    }
  }

  /** An example of such a heading. */
  lemma NewlineSplitsHeading()
    ensures var sections := [Heading(2, "a\nb")];
      Trimmed(sections[0].text) && HeadingsOf(DocOf(Joined(OutlineLines(sections)))) != sections
  {
    var text := "a\nb";
    assert Trimmed(text);
    assert text[1] == '\n';
    OutlineReadsBack([Heading(2, text)]);
  }

  lemma OutlineIsNotEmpty(sections: seq<Heading>)
    requires sections != []
    ensures OutlineLines(sections) != []
  {
  }
}
