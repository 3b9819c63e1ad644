/** Lines of a draft, and collapsing its blank lines (internal/aichattools/content_drafts.go). */
module DraftLines {
  import opened Seqs

  // ---------------------------------------------------------------- lines

  /** strings.Split on newlines: one line more than there are newlines. */
  function Split(s: string): (lines: seq<string>)
    ensures |lines| > 0
  {
    if s == [] then [[]] else ConsChar(s[0], Split(s[1..]))
  }

  function ConsChar(c: char, lines: seq<string>): (r: seq<string>)
    requires |lines| > 0
    ensures |r| > 0
  {
    if c == '\n' then [[]] + lines else [[c] + lines[0]] + lines[1..]
  }

  lemma ConsCharAppend(c: char, a: seq<string>, b: seq<string>)
    requires |a| > 0
    ensures ConsChar(c, a + b) == ConsChar(c, a) + b
  {
    DropAppend(a, b);
    AppendAssoc([[c] + a[0]], a[1..], b);
    AppendAssoc([[]], a, b);
  }

  predicate SingleLine(line: string) {
    forall i :: 0 <= i < |line| ==> line[i] != '\n'
  }

  predicate SingleLines(lines: seq<string>) {
    forall i :: 0 <= i < |lines| ==> SingleLine(lines[i])
  }

  /** Lines each ended by a newline. */
  function Ended(lines: seq<string>): string {
    if lines == [] then [] else Ended(lines[..|lines| - 1]) + lines[|lines| - 1] + ['\n']
  }

  /** Lines each preceded by a newline. */
  function Preceded(lines: seq<string>): string {
    if lines == [] then [] else Preceded(lines[..|lines| - 1]) + ['\n'] + lines[|lines| - 1]
  }

  /** strings.Join with a newline. */
  function Joined(lines: seq<string>): string {
    if lines == [] then [] else lines[0] + Preceded(lines[1..])
  }

  /** Splitting at any one newline. */
  lemma {:induction false} SplitAt(a: string, b: string)
    ensures Split(a + ['\n'] + b) == Split(a) + Split(b)
  {
    hide ConsChar;
    if a == [] {
      NilAppend(['\n']);
      DropAppend(['\n'], b);
      NewlineFirst(b);
    } else {
      AppendAssoc(a, ['\n'], b);
      DropAppend(a, ['\n'] + b);
      AppendAssoc(a[1..], ['\n'], b);
      SplitAt(a[1..], b);
      ConsCharAppend(a[0], Split(a[1..]), Split(b));
    }
  }

  lemma NewlineFirst(b: string)
    ensures Split(['\n'] + b) == [[]] + Split(b)
  {
    assert (['\n'] + b)[1..] == b;
  }

  lemma {:induction false} SplitLine(line: string)
    requires SingleLine(line)
    ensures Split(line) == [line]
  {
    if line != [] {
      SplitLine(line[1..]);
      assert line == [line[0]] + line[1..];
    }
  }

  lemma {:induction false} SplitIsSingle(s: string)
    ensures SingleLines(Split(s))
  {
    if s != [] {
      SplitIsSingle(s[1..]);
    }
  }

  /** Text before, then lines ended by newlines, then more. */
  lemma {:induction false} SplitEnded(lines: seq<string>, after: string)
    requires SingleLines(lines)
    ensures Split(Ended(lines) + after) == lines + Split(after)
  {
    if lines == [] {
      NilAppend(after);
      NilAppend(Split(after));
    } else {
      hide Split, SingleLine;
      var front, last := lines[..|lines| - 1], lines[|lines| - 1];
      SplitAt(last, after);
      SplitLine(last);
      SplitEnded(front, last + ['\n'] + after);
      AppendAssoc(Ended(front), last, ['\n']);
      AppendAssoc(Ended(front), last + ['\n'], after);
      assert lines == front + [last];
      AppendAssoc(front, [last], Split(after));
    }
  }

  lemma {:induction false} SplitPreceded(before: string, lines: seq<string>)
    requires SingleLines(lines)
    ensures Split(before + Preceded(lines)) == Split(before) + lines
  {
    if lines == [] {
      AppendNil(before);
      AppendNil(Split(before));
    } else {
      var front, last := lines[..|lines| - 1], lines[|lines| - 1];
      SplitPreceded(before, front);
      SplitAt(before + Preceded(front), last);
      SplitLine(last);
      assert before + Preceded(lines) == before + Preceded(front) + ['\n'] + last;
      assert Split(before) + lines == Split(before) + front + [last];
    }
  }

  /** Splitting undoes joining. */
  lemma SplitJoined(lines: seq<string>)
    requires SingleLines(lines) && lines != []
    ensures Split(Joined(lines)) == lines
  {
    SplitPreceded(lines[0], lines[1..]);
    SplitLine(lines[0]);
  }

  lemma {:induction false} PrecededCons(first: string, rest: seq<string>)
    ensures Preceded([first] + rest) == ['\n'] + first + Preceded(rest)
  {
    if rest == [] {
      AppendNil([first]);
      LastOf([], first);
      NilAppend(['\n']);
      AppendNil(['\n'] + first);
    } else {
      var front, last := rest[..|rest| - 1], rest[|rest| - 1];
      PrecededCons(first, front);
      AppendAssoc([first], front, [last]);
      LastOf([first] + front, last);
      assert rest == front + [last];
      hide Preceded;
      PrecededSnoc(front, last);
      PrecededSnoc([first] + front, last);
      assert ['\n'] + first + Preceded(front) + ['\n'] + last == ['\n'] + first + (Preceded(front) + ['\n'] + last);
    }
  }

  lemma PrecededSnoc(lines: seq<string>, line: string)
    ensures Preceded(lines + [line]) == Preceded(lines) + ['\n'] + line
  {
    LastOf(lines, line);
  }

  /** Joining undoes splitting, so a text is nothing but its lines. */
  lemma {:induction false} JoinedSplit(s: string)
    ensures Joined(Split(s)) == s
  {
    if s != [] {
      JoinedSplit(s[1..]);
      JoinedCons(s[0], Split(s[1..]));
    }
  }

  lemma JoinedCons(c: char, lines: seq<string>)
    requires |lines| > 0
    ensures Joined(ConsChar(c, lines)) == [c] + Joined(lines)
  {
    if c == '\n' {
      PrecededCons(lines[0], lines[1..]);
      assert lines == [lines[0]] + lines[1..];
      hide Preceded;
      DropAppend([[]], lines);
      AppendAssoc(['\n'], lines[0], Preceded(lines[1..]));
    } else {
      hide Preceded;
      DropAppend([[c] + lines[0]], lines[1..]);
      AppendAssoc([c], lines[0], Preceded(lines[1..]));
    }
  }

  // ---------------------------------------------------------------- runs of newlines

  predicate StartsWithRun(s: string) {
    |s| >= 3 && s[0] == '\n' && s[1] == '\n' && s[2] == '\n'
  }

  /** strings.Contains of three newlines. */
  predicate HasRun(s: string) {
    s != [] && (StartsWithRun(s) || HasRun(s[1..]))
  }

  /** strings.ReplaceAll of three newlines by two, left to right. */
  function Pass(s: string): (r: string)
    ensures |r| <= |s|
    ensures HasRun(s) ==> |r| < |s|
  {
    if s == [] then []
    else if StartsWithRun(s) then ['\n', '\n'] + Pass(s[3..])
    else [s[0]] + Pass(s[1..])
  }

  /** What collapsing means: after two newlines in a row, no third. */
  function Collapse(s: string, newlines: nat): string {
    if s == [] then []
    else if s[0] != '\n' then [s[0]] + Collapse(s[1..], 0)
    else if newlines >= 2 then Collapse(s[1..], newlines)
    else ['\n'] + Collapse(s[1..], newlines + 1)
  }

  /** One pass leaves the collapsed text as it is. */
  lemma {:induction false} PassCollapses(s: string, newlines: nat)
    requires newlines <= 2
    ensures Collapse(Pass(s), newlines) == Collapse(s, newlines)
    decreases |s|
  {
    if s == [] {
    } else if StartsWithRun(s) {
      var rest := s[3..];
      PassCollapses(rest, 2);
      CollapseTwo(Pass(rest), newlines);
      CollapseTwo(rest, newlines);
      CollapseThree(rest, newlines);
      assert s == ['\n', '\n', '\n'] + rest;
    } else {
      assert ([s[0]] + Pass(s[1..]))[1..] == Pass(s[1..]);
      if s[0] != '\n' {
        PassCollapses(s[1..], 0);
      } else if newlines >= 2 {
        PassCollapses(s[1..], newlines);
      } else {
        PassCollapses(s[1..], newlines + 1);
      }
    }
  }

  /** The newlines that two more leave of a run. */
  function Room(newlines: nat): string
    requires newlines <= 2
  {
    if newlines == 0 then ['\n', '\n'] else if newlines == 1 then ['\n'] else []
  }

  lemma CollapseTwo(rest: string, newlines: nat)
    requires newlines <= 2
    ensures Collapse(['\n', '\n'] + rest, newlines) == Room(newlines) + Collapse(rest, 2)
  {
    assert (['\n', '\n'] + rest)[1..] == ['\n'] + rest;
    assert (['\n'] + rest)[1..] == rest;
  }

  lemma CollapseThree(rest: string, newlines: nat)
    requires newlines <= 2
    ensures Collapse(['\n', '\n', '\n'] + rest, newlines) == Room(newlines) + Collapse(rest, 2)
  {
    assert ['\n', '\n', '\n'] + rest == ['\n', '\n'] + (['\n'] + rest);
    CollapseTwo(['\n'] + rest, newlines);
    assert (['\n'] + rest)[1..] == rest;
  }

  /** Text without a run of three is collapsed already. */
  lemma {:induction false} NothingToCollapse(s: string, newlines: nat)
    requires newlines <= 2 && !HasRun(s)
    requires newlines >= 1 && s != [] && s[0] == '\n' ==> newlines == 1 && !(|s| >= 2 && s[1] == '\n')
    ensures Collapse(s, newlines) == s
  {
    if s != [] {
      if s[0] != '\n' {
        NothingToCollapse(s[1..], 0);
      } else {
        NothingToCollapse(s[1..], newlines + 1);
      }
    }
  }

  /** Repeats the pass until no run of three is left. */
  method NormalizeDraftBlankLines(body: string) returns (normalized: string)
    ensures normalized == Collapse(body, 0) && !HasRun(normalized)
  {
    normalized := body;
    while HasRun(normalized)
      invariant Collapse(normalized, 0) == Collapse(body, 0)
      decreases |normalized|
    {
      PassCollapses(normalized, 0);
      normalized := Pass(normalized);
    }
    NothingToCollapse(normalized, 0);
  }
}
