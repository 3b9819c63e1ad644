/** Fitting history into the model's context window (internal/aichatworker/worker_context.go). */
module ContextFitting {
  import opened Chat
  import opened Seqs
  import opened Transcript

  datatype LedgerWrite = LedgerWrite(
    turn: string, callId: string, name: string, args: string, status: CallStatus, summary: string)

  /** One earlier turn, kept or dropped whole, with its executed-write records. */
  datatype HistoryExchange = HistoryExchange(messages: seq<Message>, writes: seq<LedgerWrite>)

  /** What every candidate request shares, with the input budget of its model. */
  datatype Prompt = Prompt(
    system: Message, current: Message, model: string, effort: string, tools: seq<ToolDef>, budget: int)

  datatype LedgerWording = LedgerWording(header: string, line: LedgerWrite -> string)

  datatype Notice =
    | NoNotice
    | NewestTooLarge
    | LedgerTooLarge
    | Trimmed(dropped: nat, kept: nat, ledgered: bool)

  // ---------------------------------------------------------------- the write ledger

  /** Every write of the exchanges, oldest first. */
  function AllWrites(exchanges: seq<HistoryExchange>): seq<LedgerWrite> {
    if exchanges == [] then []
    else AllWrites(exchanges[..|exchanges| - 1]) + exchanges[|exchanges| - 1].writes
  }

  function LedgerLines(writes: seq<LedgerWrite>, words: LedgerWording): string {
    if writes == [] then [] else LedgerLines(writes[..|writes| - 1], words) + words.line(writes[|writes| - 1])
  }

  /** One line per write under the header; no writes, no ledger. */
  function Ledger(writes: seq<LedgerWrite>, words: LedgerWording): string {
    if writes == [] then [] else words.header + LedgerLines(writes, words)
  }

  lemma LedgerIs(writes: seq<LedgerWrite>, words: LedgerWording)
    ensures Ledger(writes, words) == if writes == [] then [] else words.header + LedgerLines(writes, words)
  {
  }

  lemma {:induction false} AllWritesAppend(a: seq<HistoryExchange>, b: seq<HistoryExchange>)
    ensures AllWrites(a + b) == AllWrites(a) + AllWrites(b)
  {
    if b == [] {
      AppendNil(a);
      AppendNil(AllWrites(a));
    } else {
      var b', e := b[..|b| - 1], b[|b| - 1];
      AppendAssoc(a, b', [e]);
      LastOf(a + b', e);
      AllWritesAppend(a, b');
      AppendAssoc(AllWrites(a), AllWrites(b'), e.writes);
      assert b == b' + [e];
    }
  }

  lemma {:induction false} LedgerLinesAppend(a: seq<LedgerWrite>, b: seq<LedgerWrite>, words: LedgerWording)
    ensures LedgerLines(a + b, words) == LedgerLines(a, words) + LedgerLines(b, words)
  {
    if b == [] {
      AppendNil(a);
      AppendNil(LedgerLines(a, words));
    } else {
      var b', w := b[..|b| - 1], b[|b| - 1];
      AppendAssoc(a, b', [w]);
      LastOf(a + b', w);
      LedgerLinesAppend(a, b', words);
      AppendAssoc(LedgerLines(a, words), LedgerLines(b', words), words.line(w));
      assert b == b' + [w];
    }
  }

  /** How many writes these exchanges executed. */
  function WriteCount(exchanges: seq<HistoryExchange>): nat {
    if exchanges == [] then 0
    else WriteCount(exchanges[..|exchanges| - 1]) + |exchanges[|exchanges| - 1].writes|
  }

  function LinesLength(writes: seq<LedgerWrite>, words: LedgerWording): nat {
    if writes == [] then 0
    else LinesLength(writes[..|writes| - 1], words) + |words.line(writes[|writes| - 1])|
  }

  lemma {:induction false} AllWritesLength(history: seq<HistoryExchange>)
    ensures |AllWrites(history)| == WriteCount(history)
  {
    if history != [] {
      AllWritesLength(history[..|history| - 1]);
    }
  }

  /** Each write of each exchange stands behind those of all earlier exchanges. */
  lemma {:induction false} WriteStands(history: seq<HistoryExchange>, i: nat, j: nat)
    requires i < |history| && j < |history[i].writes|
    ensures var at := WriteCount(history[..i]) + j;
      at < |AllWrites(history)| == WriteCount(history) && AllWrites(history)[at] == history[i].writes[j]
  {
    var n := |history| - 1;
    AllWritesLength(history);
    AllWritesLength(history[..n]);
    if i < n {
      WriteStands(history[..n], i, j);
      TakeTake(history, i, n);
    }
  }

  lemma {:induction false} LedgerLinesLength(writes: seq<LedgerWrite>, words: LedgerWording)
    ensures |LedgerLines(writes, words)| == LinesLength(writes, words)
  {
    if writes != [] {
      LedgerLinesLength(writes[..|writes| - 1], words);
    }
  }

  /** The line of one executed write, at the place the lines of all earlier ones leave it. */
  predicate LineStands(text: string, dropped: seq<HistoryExchange>, i: nat, j: nat, words: LedgerWording)
    requires i < |dropped| && j < |dropped[i].writes|
  {
    var at, line := WriteCount(dropped[..i]) + j, words.line(dropped[i].writes[j]);
    at < |AllWrites(dropped)| &&
    (var start := |words.header| + LinesLength(AllWrites(dropped)[..at], words);
     start + |line| <= |text| && text[start..start + |line|] == line)
  }

  /** The text is the header and the lines of all writes executed in these exchanges, no more and
      no less, or nothing without writes. */
  predicate ListsWrites(text: string, dropped: seq<HistoryExchange>, words: LedgerWording) {
    && (WriteCount(dropped) == 0 ==> text == [])
    && (WriteCount(dropped) > 0 ==>
          words.header <= text && |text| == |words.header| + LinesLength(AllWrites(dropped), words))
    && forall i, j :: 0 <= i < |dropped| && 0 <= j < |dropped[i].writes| ==> LineStands(text, dropped, i, j, words)
  }

  lemma LedgerLine(writes: seq<LedgerWrite>, at: nat, words: LedgerWording)
    requires at < |writes|
    ensures var start, line := |words.header| + LinesLength(writes[..at], words), words.line(writes[at]);
      var text := Ledger(writes, words);
      && words.header <= text && |text| == |words.header| + LinesLength(writes, words)
      && start + |line| <= |text| && text[start..start + |line|] == line
  {
    LedgerLists(writes, at, words);
    LedgerLinesLength(writes[..at], words);
    LedgerLinesLength(writes, words);
    hide LedgerLines, LinesLength;
    var line := words.line(writes[at]);
    Between(words.header, LedgerLines(writes[..at], words), line, LedgerLines(writes[at + 1..], words));
  }

  lemma Between(a: string, b: string, c: string, d: string)
    ensures (a + (b + (c + d)))[|a| + |b|..|a| + |b| + |c|] == c
  {
  }

  /** The ledger of dropped exchanges lists each of their writes, however the exchanges share them. */
  lemma LedgerIsComplete(dropped: seq<HistoryExchange>, words: LedgerWording)
    ensures ListsWrites(Ledger(AllWrites(dropped), words), dropped, words)
  {
    hide Ledger, LinesLength, AllWrites, WriteCount, LineStands;
    AllWritesLength(dropped);
    var text := Ledger(AllWrites(dropped), words);
    LedgerIs(AllWrites(dropped), words);
    if WriteCount(dropped) > 0 {
      LedgerLine(AllWrites(dropped), 0, words);
    }
    forall i, j | 0 <= i < |dropped| && 0 <= j < |dropped[i].writes| ensures LineStands(text, dropped, i, j, words) {
      LedgerLineStands(dropped, i, j, words);
    }
  }

  lemma LedgerLineStands(dropped: seq<HistoryExchange>, i: nat, j: nat, words: LedgerWording)
    requires i < |dropped| && j < |dropped[i].writes|
    ensures LineStands(Ledger(AllWrites(dropped), words), dropped, i, j, words)
  {
    hide Ledger, LinesLength, AllWrites, WriteCount;
    WriteStands(dropped, i, j);
    LedgerLine(AllWrites(dropped), WriteCount(dropped[..i]) + j, words);
  }

  method RenderWriteLedger(dropped: seq<HistoryExchange>, words: LedgerWording) returns (text: string)
    ensures text == Ledger(AllWrites(dropped), words)
    ensures ListsWrites(text, dropped, words)
  {
    hide *;
    LedgerIsComplete(dropped, words);
    LedgerIs(AllWrites(dropped), words);
    LedgerStarts(dropped, words);
    var total := 0;
    for i := 0 to |dropped|
      invariant total == |AllWrites(dropped[..i])|
    {
      LedgerStep(dropped, i, words);
      total := total + |dropped[i].writes|;
    }
    TakeAll(dropped);
    if total == 0 {
      return [];
    }
    text := words.header;
    for i := 0 to |dropped|
      invariant text == words.header + LedgerLines(AllWrites(dropped[..i]), words)
    {
      LedgerStep(dropped, i, words);
      var lines := LedgerLinesOf(dropped[i].writes, words);
      text := text + lines;
    }
  }

  lemma LedgerStarts(dropped: seq<HistoryExchange>, words: LedgerWording)
    ensures AllWrites(dropped[..0]) == [] && words.header + LedgerLines(AllWrites(dropped[..0]), words) == words.header
  {
    AppendNil(words.header);
  }

  /** One more exchange: its writes are counted, and its lines follow. */
  lemma LedgerStep(dropped: seq<HistoryExchange>, i: nat, words: LedgerWording)
    requires i < |dropped|
    ensures |AllWrites(dropped[..i + 1])| == |AllWrites(dropped[..i])| + |dropped[i].writes|
    ensures words.header + LedgerLines(AllWrites(dropped[..i + 1]), words)
         == words.header + LedgerLines(AllWrites(dropped[..i]), words) + LedgerLines(dropped[i].writes, words)
  {
    TakeSnoc(dropped, i);
    hide LedgerLines;
    LedgerLinesAppend(AllWrites(dropped[..i]), dropped[i].writes, words);
    AppendAssoc(words.header, LedgerLines(AllWrites(dropped[..i]), words), LedgerLines(dropped[i].writes, words));
  }

  method LedgerLinesOf(writes: seq<LedgerWrite>, words: LedgerWording) returns (lines: string)
    ensures lines == LedgerLines(writes, words)
  {
    lines := [];
    for i := 0 to |writes|
      invariant lines == LedgerLines(writes[..i], words)
    {
      TakeSnoc(writes, i);
      lines := lines + words.line(writes[i]);
    }
    TakeAll(writes);
  }

  // ---------------------------------------------------------------- the specification: oldest first

  function Flatten(history: seq<HistoryExchange>): seq<Message> {
    if history == [] then [] else history[0].messages + Flatten(history[1..])
  }

  function WithLedger(system: Message, dropped: seq<HistoryExchange>, words: LedgerWording): Message {
    system.(content := system.content + Ledger(AllWrites(dropped), words))
  }

  function RequestFor(p: Prompt, system: Message, kept: seq<Message>): Request {
    Request(p.model, p.effort, [system] + kept + [p.current], p.tools)
  }

  /** The request that keeps the newest k exchanges and ledgers the others. */
  function FittedAt(p: Prompt, history: seq<HistoryExchange>, k: nat, words: LedgerWording): Request
    requires k <= |history|
  {
    var cut := |history| - k;
    RequestFor(p, WithLedger(p.system, history[..cut], words), Flatten(history[cut..]))
  }

  function MessageCount(history: seq<HistoryExchange>): nat {
    if history == [] then 0 else MessageCount(history[..|history| - 1]) + |history[|history| - 1].messages|
  }

  /** A first message, every message of these exchanges at its own place, and the current message. */
  predicate InOrder(messages: seq<Message>, kept: seq<HistoryExchange>, current: Message) {
    && |messages| == MessageCount(kept) + 2 && messages[|messages| - 1] == current
    && forall i, j :: 0 <= i < |kept| && 0 <= j < |kept[i].messages| ==> MessageStands(messages, kept, i, j)
  }

  predicate MessageStands(messages: seq<Message>, kept: seq<HistoryExchange>, i: nat, j: nat)
    requires i < |kept| && j < |kept[i].messages|
  {
    var at := 1 + MessageCount(kept[..i]) + j;
    at < |messages| && messages[at] == kept[i].messages[j]
  }

  /** What a request that keeps the newest k exchanges consists of: the system prompt, extended by
      the ledger of all dropped writes, and what is kept, in order. */
  predicate KeepsNewest(messages: seq<Message>, p: Prompt, history: seq<HistoryExchange>, k: nat, words: LedgerWording)
    requires k <= |history|
  {
    var cut := |history| - k;
    && InOrder(messages, history[cut..], p.current)
    && messages[0] == p.system.(content := messages[0].content)
    && p.system.content <= messages[0].content
    && ListsWrites(messages[0].content[|p.system.content|..], history[..cut], words)
  }

  lemma {:induction false} FlattenSnoc(history: seq<HistoryExchange>)
    requires history != []
    ensures Flatten(history) == Flatten(history[..|history| - 1]) + history[|history| - 1].messages
  {
    var n := |history| - 1;
    if n == 0 {
      assert history[1..] == [] && history[..0] == [];
      AppendNil(history[0].messages);
      NilAppend(history[0].messages);
    } else {
      FlattenSnoc(history[1..]);
      assert history[..n][1..] == history[1..][..n - 1];
      AppendAssoc(history[0].messages, Flatten(history[1..][..n - 1]), history[n].messages);
    }
  }

  lemma {:induction false} FlattenLength(history: seq<HistoryExchange>)
    ensures |Flatten(history)| == MessageCount(history)
  {
    if history != [] {
      FlattenSnoc(history);
      FlattenLength(history[..|history| - 1]);
    }
  }

  lemma {:induction false} FlattenStands(history: seq<HistoryExchange>, i: nat, j: nat)
    requires i < |history| && j < |history[i].messages|
    ensures var at := MessageCount(history[..i]) + j;
      at < |Flatten(history)| && Flatten(history)[at] == history[i].messages[j]
  {
    hide Flatten;
    var n := |history| - 1;
    FlattenSnoc(history);
    FlattenLength(history);
    FlattenLength(history[..n]);
    if i < n {
      FlattenStands(history[..n], i, j);
      TakeTake(history, i, n);
    }
  }

  lemma FlattenIsInOrder(first: Message, kept: seq<HistoryExchange>, current: Message)
    ensures InOrder([first] + Flatten(kept) + [current], kept, current)
  {
    hide Flatten, MessageCount;
    var messages := [first] + Flatten(kept) + [current];
    FlattenLength(kept);
    forall i, j | 0 <= i < |kept| && 0 <= j < |kept[i].messages| ensures MessageStands(messages, kept, i, j) {
      FlattenStands(kept, i, j);
    }
  }

  /** The request with its ledger keeps model, effort and tools, and loses neither a kept message nor
      an executed write. */
  lemma FittedKeepsNewest(p: Prompt, history: seq<HistoryExchange>, k: nat, words: LedgerWording)
    requires k <= |history|
    ensures var r := FittedAt(p, history, k, words);
      && r.model == p.model && r.effort == p.effort && r.tools == p.tools
      && KeepsNewest(r.messages, p, history, k, words)
  {
    hide Flatten, InOrder, ListsWrites, Ledger, AllWrites;
    var cut := |history| - k;
    var ledger := Ledger(AllWrites(history[..cut]), words);
    LedgerIsComplete(history[..cut], words);
    FlattenIsInOrder(WithLedger(p.system, history[..cut], words), history[cut..], p.current);
    assert (p.system.content + ledger)[|p.system.content|..] == ledger;
  }

  predicate FitsAt(p: Prompt, history: seq<HistoryExchange>, k: nat, words: LedgerWording)
    requires k <= |history|
  {
    RequestTokens(FittedAt(p, history, k, words)) <= p.budget
  }

  /** The simple form: try to keep k exchanges, then one fewer, down to one; 0 if none fits. */
  function LongestFit(p: Prompt, history: seq<HistoryExchange>, k: nat, words: LedgerWording): (best: nat)
    requires k <= |history|
    ensures best <= k
  {
    if k == 0 || FitsAt(p, history, k, words) then k else LongestFit(p, history, k - 1, words)
  }

  /** It is the longest suffix that fits with its ledger, or 0 exactly when none does. */
  lemma {:induction false} LongestFitIsLongest(p: Prompt, history: seq<HistoryExchange>, k: nat, words: LedgerWording)
    requires k <= |history|
    ensures var best := LongestFit(p, history, k, words);
      && (best > 0 ==> FitsAt(p, history, best, words))
      && forall j :: best < j <= k ==> !FitsAt(p, history, j, words)
  {
    hide FitsAt;
    if k > 0 {
      LongestFitIsLongest(p, history, k - 1, words);
    }
  }

  /** The request without any ledger. */
  function PlainAt(p: Prompt, history: seq<HistoryExchange>, k: nat): Request
    requires k <= |history|
  {
    RequestFor(p, p.system, Flatten(history[|history| - k..]))
  }

  predicate PlainFits(p: Prompt, history: seq<HistoryExchange>, k: nat)
    requires k <= |history|
  {
    RequestTokens(PlainAt(p, history, k)) <= p.budget
  }

  function LongestPlain(p: Prompt, history: seq<HistoryExchange>, k: nat): (best: nat)
    requires k <= |history|
    ensures best <= k
  {
    if k == 0 || PlainFits(p, history, k) then k else LongestPlain(p, history, k - 1)
  }

  /** The request without a ledger keeps the same messages behind the bare system prompt. */
  lemma PlainIsInOrder(p: Prompt, history: seq<HistoryExchange>, k: nat)
    requires k <= |history|
    ensures var r := PlainAt(p, history, k);
      && r.model == p.model && r.effort == p.effort && r.tools == p.tools
      && r.messages != [] && r.messages[0] == p.system && InOrder(r.messages, history[|history| - k..], p.current)
  {
    hide Flatten, InOrder;
    FlattenIsInOrder(p.system, history[|history| - k..], p.current);
  }

  // ---------------------------------------------------------------- exact accounting

  function Replays(p: Prompt): bool {
    |p.tools| > 0 && p.effort != "none"
  }

  /** What a request without history costs. */
  function BaseTokens(p: Prompt): nat {
    MessageTokens(p.system, Replays(p)) + MessageTokens(p.current, Replays(p)) + ToolDefsTokens(p.tools)
  }

  lemma RequestForTokens(p: Prompt, system: Message, kept: seq<Message>)
    ensures RequestTokens(RequestFor(p, system, kept))
         == MessageTokens(system, Replays(p)) + MessagesTokens(kept, Replays(p)) +
            MessageTokens(p.current, Replays(p)) + ToolDefsTokens(p.tools)
  {
    MessagesTokensAppend([system] + kept, [p.current], Replays(p));
    MessagesTokensAppend([system], kept, Replays(p));
    MessagesTokensOne(system, Replays(p));
    MessagesTokensOne(p.current, Replays(p));
  }

  lemma PlainAtTokens(p: Prompt, history: seq<HistoryExchange>, k: nat)
    requires k <= |history|
    ensures RequestTokens(PlainAt(p, history, k))
         == BaseTokens(p) + MessagesTokens(Flatten(history[|history| - k..]), Replays(p))
  {
    RequestForTokens(p, p.system, Flatten(history[|history| - k..]));
  }

  /** A larger suffix never costs less. */
  lemma PlainShrinks(p: Prompt, history: seq<HistoryExchange>, k: nat)
    requires 0 < k <= |history| && PlainFits(p, history, k)
    ensures PlainFits(p, history, k - 1)
  {
    hide RequestTokens, PlainAt, BaseTokens, MessagesTokens;
    var cut := |history| - k;
    PlainAtTokens(p, history, k);
    PlainAtTokens(p, history, k - 1);
    DropCons(history, cut);
    MessagesTokensAppend(history[cut].messages, Flatten(history[cut + 1..]), Replays(p));
  }

  lemma {:induction false} PlainGrowthFails(p: Prompt, history: seq<HistoryExchange>, k: nat, j: nat)
    requires k <= j <= |history| && !PlainFits(p, history, k)
    ensures !PlainFits(p, history, j)
  {
    hide PlainFits;
    if k < j {
      if PlainFits(p, history, j) {
        PlainShrinks(p, history, j);
      }
      PlainGrowthFails(p, history, k, j - 1);
    }
  }

  lemma LedgeredMessageCosts(system: Message, dropped: seq<HistoryExchange>, words: LedgerWording, replay: bool)
    ensures MessageTokens(system, replay) <= MessageTokens(WithLedger(system, dropped, words), replay)
  {
    hide TextTokens, Ledger, AllWrites;
    TextTokensAppend(system.content, Ledger(AllWrites(dropped), words));
  }

  /** The ledger only ever adds tokens. */
  lemma LedgerCosts(p: Prompt, history: seq<HistoryExchange>, k: nat, words: LedgerWording)
    requires k <= |history| && FitsAt(p, history, k, words)
    ensures PlainFits(p, history, k)
  {
    hide RequestTokens, RequestFor, MessageTokens, MessagesTokens, ToolDefsTokens, Flatten;
    var cut := |history| - k;
    RequestForTokens(p, p.system, Flatten(history[cut..]));
    RequestForTokens(p, WithLedger(p.system, history[..cut], words), Flatten(history[cut..]));
    LedgeredMessageCosts(p.system, history[..cut], words, Replays(p));
  }

  /** Nothing dropped, nothing ledgered. */
  lemma KeepAll(p: Prompt, history: seq<HistoryExchange>, words: LedgerWording)
    ensures FittedAt(p, history, |history|, words) == PlainAt(p, history, |history|)
    ensures FitsAt(p, history, |history|, words) <==> PlainFits(p, history, |history|)
  {
    assert history[..0] == [];
    AppendNil(p.system.content);
  }

  // ---------------------------------------------------------------- newest first, as the code keeps it

  function Reverse<T>(xs: seq<T>): (r: seq<T>)
    ensures |r| == |xs|
  {
    if xs == [] then [] else Reverse(xs[1..]) + [xs[0]]
  }

  /** Messages of newest-first exchanges, in chronological order. */
  function KeptMessages(kept: seq<HistoryExchange>): seq<Message> {
    if kept == [] then [] else kept[|kept| - 1].messages + KeptMessages(kept[..|kept| - 1])
  }

  lemma {:induction false} ReverseAppend<T>(a: seq<T>, b: seq<T>)
    ensures Reverse(a + b) == Reverse(b) + Reverse(a)
  {
    if a == [] {
      NilAppend(b);
      AppendNil(Reverse(b));
    } else {
      DropAppend(a, b);
      ReverseAppend(a[1..], b);
      AppendAssoc(Reverse(b), Reverse(a[1..]), [a[0]]);
    }
  }

  lemma {:induction false} ReverseTwice<T>(xs: seq<T>)
    ensures Reverse(Reverse(xs)) == xs
  {
    if xs != [] {
      ReverseAppend(Reverse(xs[1..]), [xs[0]]);
      ReverseTwice(xs[1..]);
      assert Reverse([xs[0]]) == [xs[0]];
    }
  }

  lemma {:induction false} ReverseAt<T>(xs: seq<T>, i: nat)
    requires i < |xs|
    ensures Reverse(xs)[i] == xs[|xs| - 1 - i]
  {
    if i < |xs| - 1 {
      ReverseAt(xs[1..], i);
    }
  }

  /** Cutting the newest-first list at k cuts the history k from its end. */
  lemma ReverseCut<T>(history: seq<T>, k: nat)
    requires k <= |history|
    ensures var cut := |history| - k;
      Reverse(history)[..k] == Reverse(history[cut..]) && Reverse(history)[k..] == Reverse(history[..cut])
  {
    var cut := |history| - k;
    assert history == history[..cut] + history[cut..];
    ReverseAppend(history[..cut], history[cut..]);
  }

  lemma {:induction false} KeptIsFlatten(history: seq<HistoryExchange>)
    ensures KeptMessages(Reverse(history)) == Flatten(history)
  {
    if history != [] {
      LastOf(Reverse(history[1..]), history[0]);
      KeptIsFlatten(history[1..]);
    }
  }

  lemma KeptSuffix(history: seq<HistoryExchange>, k: nat)
    requires k <= |history|
    ensures KeptMessages(Reverse(history)[..k]) == Flatten(history[|history| - k..])
  {
    ReverseCut(history, k);
    KeptIsFlatten(history[|history| - k..]);
  }

  // ---------------------------------------------------------------- fitHistoryExchanges

  method KeptChronologically(kept: seq<HistoryExchange>) returns (messages: seq<Message>)
    ensures messages == KeptMessages(kept)
  {
    messages := [];
    var i := |kept|;
    TakeAll(kept);
    while i > 0
      invariant 0 <= i <= |kept|
      invariant KeptMessages(kept) == messages + KeptMessages(kept[..i])
    {
      i := i - 1;
      TakeSnoc(kept, i);
      LastOf(kept[..i], kept[i]);
      AppendAssoc(messages, kept[i].messages, KeptMessages(kept[..i]));
      messages := messages + kept[i].messages;
    }
    AppendNil(messages);
  }

  lemma KeptStep(p: Prompt, newestFirst: seq<HistoryExchange>, i: nat)
    requires i < |newestFirst|
    ensures MessagesTokens(KeptMessages(newestFirst[..i + 1]), Replays(p))
         == MessagesTokens(newestFirst[i].messages, Replays(p)) +
           MessagesTokens(KeptMessages(newestFirst[..i]), Replays(p))
  {
    TakeSnoc(newestFirst, i);
    LastOf(newestFirst[..i], newestFirst[i]);
    MessagesTokensAppend(newestFirst[i].messages, KeptMessages(newestFirst[..i]), Replays(p));
  }

  /** An exchange's own delta: its estimate less the tool schemas, which the base request pays. */
  method ExchangeTokens(p: Prompt, exchange: HistoryExchange, toolSchemaTokens: int) returns (tokens: int)
    requires toolSchemaTokens == ToolDefsTokens(p.tools)
    ensures tokens == MessagesTokens(exchange.messages, Replays(p))
  {
    var whole := EstimateChatInputTokens(Request(p.model, p.effort, exchange.messages, p.tools));
    tokens := whole - toolSchemaTokens;
  }

  /** The greedy pass: keeps the newest exchanges while their plain total fits, and an
      over-guard newest exchange anyway. */
  method FitHistoryExchanges(p: Prompt, newestFirst: seq<HistoryExchange>)
    returns (messages: seq<Message>, dropped: nat, newestOver: bool)
    ensures dropped <= |newestFirst| && (newestFirst != [] ==> dropped < |newestFirst|)
    ensures messages == [p.system] + KeptMessages(newestFirst[..|newestFirst| - dropped]) + [p.current]
    ensures var k := |newestFirst| - dropped;
      var spare := p.budget - BaseTokens(p);
      && (newestOver <==> newestFirst != [] && MessagesTokens(KeptMessages(newestFirst[..1]), Replays(p)) > spare)
      && (newestOver ==> k == 1)
      && (newestFirst != [] && !newestOver ==>
            && MessagesTokens(KeptMessages(newestFirst[..k]), Replays(p)) <= spare
            && (k < |newestFirst| ==> MessagesTokens(KeptMessages(newestFirst[..k + 1]), Replays(p)) > spare))
  {
    hide KeptMessages, MessagesTokens, MessageTokens;
    var base := EstimateChatInputTokens(Request(p.model, p.effort, [p.system, p.current], p.tools));
    BaseRequest(p);
    NothingKept(p, newestFirst);
    var remaining := p.budget - base;
    var toolSchemaTokens := EstimateChatInputTokens(Request("", "", [], p.tools));
    SchemaRequest(p.tools);
    newestOver := false;
    if |newestFirst| > 0 {
      var first := ExchangeTokens(p, newestFirst[0], toolSchemaTokens);
      newestOver := first > remaining;
      KeptStep(p, newestFirst, 0);
    }
    ghost var spare := remaining;
    var k := 0;
    while k < |newestFirst|
      invariant k <= |newestFirst|
      invariant remaining == spare - MessagesTokens(KeptMessages(newestFirst[..k]), Replays(p))
      invariant k > 0 ==> remaining >= 0
      invariant newestOver ==> k == 0
    {
      KeptStep(p, newestFirst, k);
      var tokens := ExchangeTokens(p, newestFirst[k], toolSchemaTokens);
      if tokens > remaining {
        break;
      }
      remaining := remaining - tokens;
      k := k + 1;
    }
    if k == 0 && |newestFirst| > 0 {
      k := 1;
    }
    var kept := KeptChronologically(newestFirst[..k]);
    messages := [p.system] + kept + [p.current];
    dropped := |newestFirst| - k;
  }

  lemma NothingKept(p: Prompt, newestFirst: seq<HistoryExchange>)
    ensures MessagesTokens(KeptMessages(newestFirst[..0]), Replays(p)) == 0
  {
  }

  lemma SchemaRequest(tools: seq<ToolDef>)
    ensures RequestTokens(Request("", "", [], tools)) == ToolDefsTokens(tools)
  {
  }

  lemma BaseRequest(p: Prompt)
    ensures RequestTokens(Request(p.model, p.effort, [p.system, p.current], p.tools)) == BaseTokens(p)
  {
    RequestForTokens(p, p.system, []);
    assert [p.system] + [] + [p.current] == [p.system, p.current];
  }

  // ---------------------------------------------------------------- fitHistoryWithLedger

  method ReverseInPlace<T>(xs: seq<T>) returns (r: seq<T>)
    ensures r == Reverse(xs)
  {
    r := xs;
    var i, j := 0, |r| - 1;
    while i < j
      invariant |r| == |xs| && 0 <= i && j == |xs| - 1 - i
      invariant forall m :: 0 <= m < |r| && (m < i || m > j) ==> r[m] == xs[|xs| - 1 - m]
      invariant forall m :: i <= m <= j ==> r[m] == xs[m]
    {
      var last := r[j];
      r := r[j := r[i]];
      r := r[i := last];
      i, j := i + 1, j - 1;
    }
    forall m | 0 <= m < |r| ensures r[m] == Reverse(xs)[m] {
      ReverseAt(xs, m);
    }
  }

  lemma ReverseEnd<T>(xs: seq<T>)
    ensures Reverse(xs[|xs|..]) == []
  {
  }

  lemma ReverseStep<T>(xs: seq<T>, i: nat)
    requires i < |xs|
    ensures Reverse(xs[i..]) == Reverse(xs[i + 1..]) + [xs[i]]
  {
    DropCons(xs, i);
  }

  lemma KeptIsPlain(p: Prompt, history: seq<HistoryExchange>, k: nat)
    requires k <= |history|
    ensures [p.system] + KeptMessages(Reverse(history)[..k]) + [p.current] == PlainAt(p, history, k).messages
  {
    KeptSuffix(history, k);
  }

  method NewestFirst(history: seq<HistoryExchange>) returns (newestFirst: seq<HistoryExchange>)
    ensures newestFirst == Reverse(history)
  {
    hide Reverse;
    newestFirst := [];
    var i := |history|;
    ReverseEnd(history);
    while i > 0
      invariant 0 <= i <= |history|
      invariant newestFirst == Reverse(history[i..])
    {
      i := i - 1;
      ReverseStep(history, i);
      newestFirst := newestFirst + [history[i]];
    }
    TakeAll(history);
  }

  /** Keeps the longest suffix that fits beside the ledger of everything older. */
  method FitHistoryWithLedger(p: Prompt, history: seq<HistoryExchange>, words: LedgerWording)
    returns (messages: seq<Message>, notice: Notice, over: bool)
    ensures var best := LongestFit(p, history, |history|, words);
      && (over <==> history != [] && best == 0)
      && (!over ==>
            && messages == FittedAt(p, history, best, words).messages
            && KeepsNewest(messages, p, history, best, words)
            && notice == (if best == |history| then NoNotice
                          else Trimmed(|history| - best, best,
                                       Ledger(AllWrites(history[..|history| - best]), words) != [])))
    ensures over ==>
      var g := LongestPlain(p, history, |history|);
      && messages == PlainAt(p, history, if g == 0 then 1 else g).messages
      && InOrder(messages, history[|history| - (if g == 0 then 1 else g)..], p.current) && messages[0] == p.system
      && notice == if g == 0 then NewestTooLarge else LedgerTooLarge
  {
    hide *;
    var n := |history|;
    var newestFirst := NewestFirst(history);
    var fitted, dropped, newestOver := FitHistoryExchanges(p, newestFirst);
    var g := n - dropped;
    GreedyIsLongest(p, history, g, newestOver);
    KeptIsPlain(p, history, g);
    PlainIsInOrder(p, history, g);
    if newestOver {
      NothingFits(p, history, words, n);
      return fitted, NewestTooLarge, true;
    }
    if dropped == 0 {
      KeepAll(p, history, words);
      LongestIs(p, history, n, n, words);
      FittedKeepsNewest(p, history, n, words);
      return fitted, NoNotice, false;
    }
    forall j | g < j <= n ensures !FitsAt(p, history, j, words) {
      LedgerCannotHelp(p, history, g, j, words);
    }
    var ok, kept, withLedger, ledgered := EvictForLedger(p, history, newestFirst, g, words);
    if ok {
      FittedKeepsNewest(p, history, kept, words);
      return withLedger, Trimmed(n - kept, kept, ledgered), false;
    }
    return fitted, LedgerTooLarge, true;
  }

  /** Evicts the oldest kept exchange into the ledger until the request fits, keeping at least one. */
  method EvictForLedger(
    p: Prompt, ghost history: seq<HistoryExchange>, newestFirst: seq<HistoryExchange>, g: nat, words: LedgerWording)
    returns (ok: bool, k: nat, messages: seq<Message>, ledgered: bool)
    requires newestFirst == Reverse(history) && 1 <= g <= |history|
    requires forall j :: g < j <= |history| ==> !FitsAt(p, history, j, words)
    ensures LongestFit(p, history, |history|, words) == if ok then k else 0
    ensures ok ==>
      && 1 <= k <= g
      && messages == FittedAt(p, history, k, words).messages
      && (ledgered <==> Ledger(AllWrites(history[..|history| - k]), words) != [])
  {
    hide FitsAt, LongestFit, Flatten, KeptMessages, Reverse, AllWrites, Ledger, RequestTokens;
    ghost var n := |history|;
    var keptNewest := newestFirst[..g];
    var droppedChron := ReverseInPlace(newestFirst[g..]);
    DroppedInOrder(history, g);
    while true
      invariant 1 <= |keptNewest| <= g
      invariant keptNewest == newestFirst[..|keptNewest|] && droppedChron == history[..n - |keptNewest|]
      invariant forall j :: |keptNewest| < j <= n ==> !FitsAt(p, history, j, words)
      decreases |keptNewest|
    {
      k := |keptNewest|;
      var ledger := RenderWriteLedger(droppedChron, words);
      var system := p.system.(content := p.system.content + ledger);
      var kept := KeptChronologically(keptNewest);
      KeptSuffix(history, k);
      assert RequestFor(p, system, kept) == FittedAt(p, history, k, words);
      FitsAtIs(p, history, k, words);
      var tokens := EstimateChatInputTokens(RequestFor(p, system, kept));
      if tokens <= p.budget {
        LongestIs(p, history, n, k, words);
        return true, k, [system] + kept + [p.current], ledger != [];
      }
      if |keptNewest| == 1 {
        LongestIs(p, history, n, 0, words);
        return false, k, [], false;
      }
      var evicted := keptNewest[|keptNewest| - 1];
      EvictOldest(history, k);
      keptNewest := keptNewest[..|keptNewest| - 1];
      droppedChron := droppedChron + [evicted];
    }
  }

  lemma DroppedInOrder<T>(history: seq<T>, g: nat)
    requires g <= |history|
    ensures Reverse(Reverse(history)[g..]) == history[..|history| - g]
  {
    ReverseCut(history, g);
    ReverseTwice(history[..|history| - g]);
  }

  /** What does not fit without its ledger does not fit with it. */
  lemma LedgerCannotHelp(p: Prompt, history: seq<HistoryExchange>, g: nat, j: nat, words: LedgerWording)
    requires g < j <= |history| && !PlainFits(p, history, g + 1)
    ensures !FitsAt(p, history, j, words)
  {
    hide PlainFits, FitsAt;
    PlainGrowthFails(p, history, g + 1, j);
    if FitsAt(p, history, j, words) {
      LedgerCosts(p, history, j, words);
    }
  }

  /** The worker's entry point: the budget is the model's input budget. */
  method FitHistoryForModel(system: Message, current: Message, history: seq<HistoryExchange>, model: string,
                            effort: string, tools: seq<ToolDef>, words: LedgerWording)
    returns (messages: seq<Message>, notice: Notice, over: bool)
    ensures var p := Prompt(system, current, model, effort, tools, InputBudget(model));
      var best := LongestFit(p, history, |history|, words);
      && (over <==> history != [] && best == 0)
      && (!over ==>
            && messages == FittedAt(p, history, best, words).messages
            && KeepsNewest(messages, p, history, best, words)
            && notice == (if best == |history| then NoNotice
                          else Trimmed(|history| - best, best,
                                       Ledger(AllWrites(history[..|history| - best]), words) != [])))
    ensures over ==>
      var p := Prompt(system, current, model, effort, tools, InputBudget(model));
      var g := LongestPlain(p, history, |history|);
      && messages == PlainAt(p, history, if g == 0 then 1 else g).messages
      && InOrder(messages, history[|history| - (if g == 0 then 1 else g)..], p.current) && messages[0] == system
      && notice == if g == 0 then NewestTooLarge else LedgerTooLarge
  {
    hide *;
    messages, notice, over :=
      FitHistoryWithLedger(Prompt(system, current, model, effort, tools, InputBudget(model)), history, words);
  }

  lemma FitsAtIs(p: Prompt, history: seq<HistoryExchange>, k: nat, words: LedgerWording)
    requires k <= |history|
    ensures FitsAt(p, history, k, words) <==> RequestTokens(FittedAt(p, history, k, words)) <= p.budget
  {
  }

  lemma GreedyIsLongest(p: Prompt, history: seq<HistoryExchange>, g: nat, newestOver: bool)
    requires g <= |history| && (history != [] ==> g >= 1)
    requires var newestFirst := Reverse(history);
      var spare := p.budget - BaseTokens(p);
      && (newestOver <==> history != [] && MessagesTokens(KeptMessages(newestFirst[..1]), Replays(p)) > spare)
      && (newestOver ==> g == 1)
      && (history != [] && !newestOver ==>
            && MessagesTokens(KeptMessages(newestFirst[..g]), Replays(p)) <= spare
            && (g < |history| ==> MessagesTokens(KeptMessages(newestFirst[..g + 1]), Replays(p)) > spare))
    ensures newestOver <==> history != [] && !PlainFits(p, history, 1)
    ensures history != [] ==> (PlainFits(p, history, g) <==> !newestOver)
    ensures history != [] ==> LongestPlain(p, history, |history|) == if newestOver then 0 else g
    ensures !newestOver && g < |history| ==> !PlainFits(p, history, g + 1)
  {
    hide KeptMessages, MessagesTokens, MessageTokens, Flatten, Reverse;
    if history != [] {
      KeptSuffix(history, 1);
      PlainAtTokens(p, history, 1);
      KeptSuffix(history, g);
      PlainAtTokens(p, history, g);
      if newestOver {
        PlainIs(p, history, |history|, 0);
      } else {
        if g < |history| {
          KeptSuffix(history, g + 1);
          PlainAtTokens(p, history, g + 1);
        }
        PlainIs(p, history, |history|, g);
      }
    }
  }

  lemma {:induction false} PlainIs(p: Prompt, history: seq<HistoryExchange>, top: nat, k: nat)
    requires k <= top <= |history| && (k == 0 || PlainFits(p, history, k))
    requires k < |history| ==> !PlainFits(p, history, k + 1)
    ensures LongestPlain(p, history, top) == k
  {
    hide PlainFits;
    if k < top {
      PlainGrowthFails(p, history, k + 1, top);
      PlainIs(p, history, top - 1, k);
    }
  }

  /** An over-guard newest exchange defeats every suffix. */
  lemma {:induction false} NothingFits(p: Prompt, history: seq<HistoryExchange>, words: LedgerWording, k: nat)
    requires k <= |history| && history != [] && !PlainFits(p, history, 1)
    ensures LongestFit(p, history, k, words) == 0
  {
    hide PlainFits, FitsAt;
    if k > 0 {
      PlainGrowthFails(p, history, 1, k);
      if FitsAt(p, history, k, words) {
        LedgerCosts(p, history, k, words);
      }
      NothingFits(p, history, words, k - 1);
    }
  }

  lemma {:induction false} LongestIs(p: Prompt, history: seq<HistoryExchange>, top: nat, k: nat, words: LedgerWording)
    requires k <= top <= |history| && (k == 0 || FitsAt(p, history, k, words))
    requires forall j :: k < j <= top ==> !FitsAt(p, history, j, words)
    ensures LongestFit(p, history, top, words) == k
  {
    hide FitsAt;
    if k < top {
      LongestIs(p, history, top - 1, k, words);
    }
  }

  /** Evicting the oldest kept exchange moves the cut one exchange later. */
  lemma EvictOldest(history: seq<HistoryExchange>, k: nat)
    requires 0 < k <= |history|
    ensures Reverse(history)[..k][k - 1] == history[|history| - k]
    ensures Reverse(history)[..k][..k - 1] == Reverse(history)[..k - 1]
    ensures history[..|history| - k] + [history[|history| - k]] == history[..|history| - k + 1]
  {
    hide Reverse;
    ReverseAt(history, k - 1);
    TakeTake(Reverse(history), k - 1, k);
    TakeSnoc(history, |history| - k);
  }

  // ---------------------------------------------------------------- what the result guarantees

  /** The fit succeeds exactly when some non-empty suffix fits beside the ledger of the rest. */
  lemma FitIffSomeSuffixFits(p: Prompt, history: seq<HistoryExchange>, words: LedgerWording)
    ensures LongestFit(p, history, |history|, words) > 0
       <==> exists k :: 1 <= k <= |history| && FitsAt(p, history, k, words)
  {
    hide FitsAt;
    LongestFitIsLongest(p, history, |history|, words);
  }

  /** The request handed back fits, except that with no history nothing is checked: then it
      fits exactly when system prompt, current message and tools do. */
  lemma FittedFits(p: Prompt, history: seq<HistoryExchange>, words: LedgerWording)
    requires history == [] || LongestFit(p, history, |history|, words) > 0
    ensures FitsAt(p, history, LongestFit(p, history, |history|, words), words)
       <==> history != [] || BaseTokens(p) <= p.budget
  {
    hide FitsAt;
    if history == [] {
      KeepAll(p, history, words);
      PlainAtTokens(p, history, 0);
    } else {
      LongestFitIsLongest(p, history, |history|, words);
    }
  }

  /** An example: without history an over-budget prompt is returned without any failure. */
  lemma EmptyHistoryIsNotChecked(p: Prompt, words: LedgerWording)
    ensures var tight := p.(budget := BaseTokens(p) - 1);
      !FitsAt(tight, [], LongestFit(tight, [], 0, words), words)
  {
    hide FitsAt;
    FittedFits(p.(budget := BaseTokens(p) - 1), [], words);
  }

  /** No executed write is lost: what the ledger omits is in a kept exchange. */
  lemma WritesAreConserved(history: seq<HistoryExchange>, cut: nat)
    requires cut <= |history|
    ensures AllWrites(history[..cut]) + AllWrites(history[cut..]) == AllWrites(history)
  {
    assert history == history[..cut] + history[cut..];
    AllWritesAppend(history[..cut], history[cut..]);
  }

  /** Every ledgered write has its own line, in order, under the header. */
  lemma LedgerLists(writes: seq<LedgerWrite>, i: nat, words: LedgerWording)
    requires i < |writes|
    ensures Ledger(writes, words)
         == words.header +
           (LedgerLines(writes[..i], words) + (words.line(writes[i]) + LedgerLines(writes[i + 1..], words)))
  {
    var w, rest := [writes[i]], writes[i + 1..];
    assert writes == writes[..i] + (w + rest);
    LedgerLinesAppend(writes[..i], w + rest, words);
    LedgerLinesAppend(w, rest, words);
    assert w[..0] == [];
  }

  lemma {:induction false} FlattenPairs(history: seq<HistoryExchange>)
    requires forall i :: 0 <= i < |history| ==> Paired(history[i].messages)
    ensures Paired(Flatten(history))
  {
    hide Paired, PairedFrom;
    if history == [] {
      NothingIsPaired();
    } else {
      FlattenPairs(history[1..]);
      PairedJoin(history[0].messages, Flatten(history[1..]));
    }
  }

  lemma NothingIsPaired()
    ensures Paired([])
  {
  }

  /** Exchanges are kept or dropped whole, so every request the fit builds stays paired. */
  lemma FittedIsPaired(p: Prompt, history: seq<HistoryExchange>, k: nat, words: LedgerWording)
    requires k <= |history|
    requires forall i :: 0 <= i < |history| ==> Paired(history[i].messages)
    requires p.system.role == RoleSystem && p.current.role == RoleUser
    ensures Paired(FittedAt(p, history, k, words).messages)
  {
    var cut := |history| - k;
    var system := WithLedger(p.system, history[..cut], words);
    FlattenPairs(history[cut..]);
    PairedPlain(system);
    PairedPlain(p.current);
    PairedJoin([system], Flatten(history[cut..]));
    PairedJoin([system] + Flatten(history[cut..]), [p.current]);
  }
}
