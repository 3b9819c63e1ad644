/** Repair of interrupted provider transcripts and the call/answer pairing they must keep
    (internal/aichatworker/transcript.go). Message texts are the parameter `Wording`; what is
    proved is which text is used where. */
module Transcript {
  import opened Text
  import opened Chat
  import opened Seqs

  /** The status column of a durable tool-call row. */
  datatype CallStatus = Awaiting | Running | Completed | Failed

  datatype HistoryToolCall = HistoryToolCall(
    callId: string, name: string, args: string, status: CallStatus, resultContent: string, summary: string)

  /** The texts the worker renders. */
  datatype Wording = Wording(
    unknownOutcome: ToolCall -> string,
    failedLabel: (HistoryToolCall, string) -> string,
    unknownLabel: (HistoryToolCall, string) -> string,
    legacyNotice: (string, string) -> string)

  // ---------------------------------------------------------------- pairing

  function CallIds(m: Message): seq<string> {
    if m.role.RoleAssistant? then IdsOf(m.toolCalls) else []
  }

  function IdsOf(calls: seq<ToolCall>): (ids: seq<string>)
    ensures |ids| == |calls| && forall i :: 0 <= i < |ids| ==> ids[i] == calls[i].id
  {
    if calls == [] then [] else IdsOf(calls[..|calls| - 1]) + [calls[|calls| - 1].id]
  }

  /** Ids answered by the tool messages of t, in order. */
  function AnswerIds(t: seq<Message>): seq<string> {
    if t == [] then []
    else AnswerId(t[0]) + AnswerIds(t[1..])
  }

  function AnswerId(m: Message): seq<string> {
    if m.role.RoleTool? then [m.toolCallId] else []
  }

  function AllCallIds(t: seq<Message>): seq<string> {
    if t == [] then [] else CallIds(t[0]) + AllCallIds(t[1..])
  }

  predicate AllTools(t: seq<Message>) {
    forall i :: 0 <= i < |t| ==> t[i].role.RoleTool?
  }

  /** The calls still to be answered once m has been read. */
  function After(m: Message, pending: multiset<string>): multiset<string> {
    if m.role.RoleTool? then pending - multiset{m.toolCallId} else multiset(CallIds(m))
  }

  predicate Admits(m: Message, pending: multiset<string>) {
    if m.role.RoleTool? then m.toolCallId in pending else pending == multiset{}
  }

  /** Scans t with the multiset of calls still to be answered: tool messages answer pending
      calls, and any other message may only come once nothing is pending. */
  predicate PairedFrom(t: seq<Message>, pending: multiset<string>) {
    if t == [] then pending == multiset{}
    else Admits(t[0], pending) && PairedFrom(t[1..], After(t[0], pending))
  }

  /** Every call is answered exactly once, directly after the message that made it. */
  predicate Paired(t: seq<Message>) {
    PairedFrom(t, multiset{})
  }

  /** The same, except that calls may still be waiting for an answer. */
  predicate PartiallyPairedFrom(t: seq<Message>, pending: multiset<string>) {
    if t == [] then true
    else (t[0].role.RoleTool? ==> t[0].toolCallId in pending) && PartiallyPairedFrom(t[1..], After(t[0], pending))
  }

  predicate PartiallyPaired(t: seq<Message>) {
    PartiallyPairedFrom(t, multiset{})
  }

  predicate Distinct(ids: seq<string>) {
    forall i, j :: 0 <= i < j < |ids| ==> ids[i] != ids[j]
  }

  lemma {:induction false} AnswerIdsAppend(a: seq<Message>, b: seq<Message>)
    ensures AnswerIds(a + b) == AnswerIds(a) + AnswerIds(b)
  {
    if a == [] {
      NilAppend(b);
    } else {
      DropAppend(a, b);
      AnswerIdsAppend(a[1..], b);
      AppendAssoc(AnswerId(a[0]), AnswerIds(a[1..]), AnswerIds(b));
    }
  }

  lemma {:induction false} AllCallIdsAppend(a: seq<Message>, b: seq<Message>)
    ensures AllCallIds(a + b) == AllCallIds(a) + AllCallIds(b)
  {
    if a == [] {
      NilAppend(b);
    } else {
      DropAppend(a, b);
      AllCallIdsAppend(a[1..], b);
      AppendAssoc(CallIds(a[0]), AllCallIds(a[1..]), AllCallIds(b));
    }
  }

  /** Blocks compose: this is why whole exchanges may be dropped or kept freely. */
  lemma {:induction false} PairedAppend(a: seq<Message>, b: seq<Message>, pending: multiset<string>)
    requires PairedFrom(a, pending) && Paired(b)
    ensures PairedFrom(a + b, pending)
  {
    if a == [] {
      NilAppend(b);
    } else {
      DropAppend(a, b);
      PairedAppend(a[1..], b, After(a[0], pending));
    }
  }

  lemma PairedJoin(a: seq<Message>, b: seq<Message>)
    requires Paired(a) && Paired(b)
    ensures Paired(a + b)
  {
    PairedAppend(a, b, multiset{});
  }

  lemma MultisetCons(x: string, rest: seq<string>, p: multiset<string>)
    ensures p - multiset{x} - multiset(rest) == p - multiset([x] + rest)
    ensures multiset([x] + rest) <= p ==> x in p && multiset(rest) <= p - multiset{x}
  {
    assert multiset([x] + rest) == multiset{x} + multiset(rest);
  }

  /** Tool messages answering pending calls leave the other calls pending. */
  lemma {:induction false} AnswersConsume(answers: seq<Message>, rest: seq<Message>, pending: multiset<string>)
    requires AllTools(answers)
    requires multiset(AnswerIds(answers)) <= pending
    ensures PairedFrom(answers + rest, pending) <==> PairedFrom(rest, pending - multiset(AnswerIds(answers)))
  {
    if answers == [] {
      NilAppend(rest);
      assert pending - multiset{} == pending;
    } else {
      var id, tail := answers[0].toolCallId, answers[1..];
      MultisetCons(id, AnswerIds(tail), pending);
      AnswersConsume(tail, rest, After(answers[0], pending));
      DropAppend(answers, rest);
    }
  }

  /** One message with answers to exactly its calls is a block. */
  lemma PairedBlock(m: Message, answers: seq<Message>)
    requires !m.role.RoleTool?
    requires AllTools(answers)
    requires multiset(AnswerIds(answers)) == multiset(CallIds(m))
    ensures Paired([m] + answers)
  {
    DropAppend([m], answers);
    assert [m][1..] + answers == answers + [];
    AnswersConsume(answers, [], multiset(CallIds(m)));
  }

  /** A system prompt, a user message or plain text asks for nothing. */
  lemma PairedPlain(m: Message)
    requires !m.role.RoleTool? && CallIds(m) == []
    ensures Paired([m])
  {
    assert [m][1..] == [];
  }

  /** Rewriting contents, names or reasoning cannot disturb pairing. */
  predicate SameShape(a: seq<Message>, b: seq<Message>) {
    && |a| == |b|
    && forall i :: 0 <= i < |a| ==>
      a[i].role == b[i].role && a[i].toolCalls == b[i].toolCalls && a[i].toolCallId == b[i].toolCallId
  }

  lemma {:induction false} PairedSameShape(a: seq<Message>, b: seq<Message>, pending: multiset<string>)
    requires SameShape(a, b)
    ensures PairedFrom(a, pending) <==> PairedFrom(b, pending)
  {
    if a != [] {
      assert After(a[0], pending) == After(b[0], pending);
      PairedSameShape(a[1..], b[1..], After(a[0], pending));
    }
  }

  lemma CountAppend(a: seq<string>, b: seq<string>, id: string)
    ensures multiset(a + b)[id] == multiset(a)[id] + multiset(b)[id]
  {
  }

  /** In a paired transcript the answers are, overall, exactly the calls. */
  lemma {:induction false} PairedTotals(t: seq<Message>, pending: multiset<string>, id: string)
    requires PairedFrom(t, pending)
    ensures multiset(AnswerIds(t))[id] == pending[id] + multiset(AllCallIds(t))[id]
  {
    if t != [] {
      PairedTotals(t[1..], After(t[0], pending), id);
      CountAppend(AnswerId(t[0]), AnswerIds(t[1..]), id);
      CountAppend(CallIds(t[0]), AllCallIds(t[1..]), id);
      StepTotals(t[0], pending, id);
    }
  }

  lemma StepTotals(m: Message, pending: multiset<string>, id: string)
    requires Admits(m, pending)
    ensures multiset(AnswerId(m))[id] + After(m, pending)[id] == pending[id] + multiset(CallIds(m))[id]
  {
  }

  /** Answers in place belong to a call of t, or to one still pending before it. */
  lemma {:induction false} AnswersAreCalled(t: seq<Message>, pending: multiset<string>, id: string)
    requires PartiallyPairedFrom(t, pending) && id in AnswerIds(t)
    ensures id in pending || id in AllCallIds(t)
  {
    if !(t[0].role.RoleTool? && id == t[0].toolCallId) {
      AnswersAreCalled(t[1..], After(t[0], pending), id);
    }
  }

  // ---------------------------------------------------------------- dangling calls

  predicate IsTerminal(status: CallStatus) {
    status.Completed? || status.Failed?
  }

  /** The last terminal record of each call id. */
  function TerminalCalls(calls: seq<HistoryToolCall>): map<string, HistoryToolCall> {
    if calls == [] then map[]
    else
      var call := calls[|calls| - 1];
      var earlier := TerminalCalls(calls[..|calls| - 1]);
      if IsTerminal(call.status) then earlier[call.callId := call] else earlier
  }

  /** The answer a dangling call is given: its recorded result, or an explicit unknown. */
  function Recovered(call: ToolCall, terminal: map<string, HistoryToolCall>, words: Wording): Message {
    ToolMessage(
      if call.id in terminal then terminal[call.id].resultContent else words.unknownOutcome(call),
      call.id, call.name)
  }

  function NonEmptyAnswers(t: seq<Message>): set<string> {
    set m | m in t && m.role.RoleTool? && m.toolCallId != "" :: m.toolCallId
  }

  /** Answers added for one message's calls, each id once. */
  function AddedFor(calls: seq<ToolCall>, answered: set<string>, terminal: map<string, HistoryToolCall>, words: Wording)
    : seq<Message>
  {
    if calls == [] then []
    else
      var before := AddedFor(calls[..|calls| - 1], answered, terminal, words);
      var call := calls[|calls| - 1];
      if call.id in answered || call.id in IdsOf(calls[..|calls| - 1]) then before
      else before + [Recovered(call, terminal, words)]
  }

  function AddedTo(m: Message, answered: set<string>, terminal: map<string, HistoryToolCall>,
                   words: Wording): seq<Message>
  {
    if m.role.RoleAssistant? then AddedFor(m.toolCalls, answered, terminal, words) else []
  }

  function IdSet(m: Message): set<string> {
    set id | id in CallIds(m)
  }

  function CompleteFrom(t: seq<Message>, answered: set<string>, terminal: map<string, HistoryToolCall>, words: Wording)
    : seq<Message>
  {
    if t == [] then []
    else
      var m := t[0];
      [m] + (AddedTo(m, answered, terminal, words) + CompleteFrom(t[1..], answered + IdSet(m), terminal, words))
  }

  function Completed(t: seq<Message>, calls: seq<HistoryToolCall>, words: Wording): seq<Message> {
    CompleteFrom(t, NonEmptyAnswers(t), TerminalCalls(calls), words)
  }

  method CompleteDanglingTranscriptCalls(transcript: seq<Message>, calls: seq<HistoryToolCall>, words: Wording)
    returns (completed: seq<Message>)
    ensures completed == Completed(transcript, calls, words)
  {
    var terminal: map<string, HistoryToolCall> := map[];
    for i := 0 to |calls|
      invariant terminal == TerminalCalls(calls[..i])
    {
      assert calls[..i + 1][..i] == calls[..i];
      if calls[i].status.Completed? || calls[i].status.Failed? {
        terminal := terminal[calls[i].callId := calls[i]];
      }
    }
    assert calls[..|calls|] == calls;
    var answered: set<string> := {};
    for i := 0 to |transcript|
      invariant answered == NonEmptyAnswers(transcript[..i])
    {
      assert transcript[..i + 1] == transcript[..i] + [transcript[i]];
      if transcript[i].role == RoleTool && transcript[i].toolCallId != "" {
        answered := answered + {transcript[i].toolCallId};
      }
    }
    assert transcript[..|transcript|] == transcript;
    completed := [];
    for i := 0 to |transcript|
      invariant Completed(transcript, calls, words)
        == completed + CompleteFrom(transcript[i..], answered, terminal, words)
    {
      var message := transcript[i];
      var added, next := AnswerDangling(message, answered, terminal, words);
      assert transcript[i..][1..] == transcript[i + 1..];
      Regroup(completed, message, added, CompleteFrom(transcript[i + 1..], next, terminal, words));
      completed, answered := completed + ([message] + added), next;
    }
  }

  lemma Regroup(a: seq<Message>, m: Message, b: seq<Message>, c: seq<Message>)
    ensures a + ([m] + (b + c)) == a + ([m] + b) + c
  {
  }

  lemma AddedForStep(calls: seq<ToolCall>, j: nat, answered: set<string>, terminal: map<string, HistoryToolCall>,
                     words: Wording)
    requires j < |calls|
    ensures IdsOf(calls[..j + 1]) == IdsOf(calls[..j]) + [calls[j].id]
    ensures AddedFor(calls[..j + 1], answered, terminal, words)
         == AddedFor(calls[..j], answered, terminal, words) +
            (if calls[j].id in answered || calls[j].id in IdsOf(calls[..j]) then []
             else [Recovered(calls[j], terminal, words)])
  {
    assert calls[..j + 1][..j] == calls[..j];
  }

  /** The inner loop: answers the calls of one message that nothing answered yet. */
  method AnswerDangling(message: Message, answered: set<string>, terminal: map<string, HistoryToolCall>, words: Wording)
    returns (added: seq<Message>, next: set<string>)
    ensures added == AddedTo(message, answered, terminal, words) && next == answered + IdSet(message)
  {
    added, next := [], answered;
    if message.role != RoleAssistant {
      return;
    }
    var cs := message.toolCalls;
    for j := 0 to |cs|
      invariant added == AddedFor(cs[..j], answered, terminal, words)
      invariant forall id :: id in next <==> id in answered || id in IdsOf(cs[..j])
    {
      AddedForStep(cs, j, answered, terminal, words);
      if cs[j].id !in next {
        next := next + {cs[j].id};
        added := added + [Recovered(cs[j], terminal, words)];
      }
    }
    assert cs[..|cs|] == cs;
  }

  /** A dangling call is answered from the latest terminal row recorded for it. */
  lemma {:induction false} TerminalIsLatest(calls: seq<HistoryToolCall>, i: nat)
    requires i < |calls| && IsTerminal(calls[i].status)
    requires forall j :: i < j < |calls| && IsTerminal(calls[j].status) ==> calls[j].callId != calls[i].callId
    ensures calls[i].callId in TerminalCalls(calls) && TerminalCalls(calls)[calls[i].callId] == calls[i]
  {
    if i < |calls| - 1 {
      TerminalIsLatest(calls[..|calls| - 1], i);
    }
  }

  /** Only rows that reached a terminal status are ever replayed. */
  lemma {:induction false} TerminalIsRecorded(calls: seq<HistoryToolCall>, id: string)
    requires id in TerminalCalls(calls)
    ensures TerminalCalls(calls)[id] in calls && TerminalCalls(calls)[id].callId == id
    ensures IsTerminal(TerminalCalls(calls)[id].status)
  {
    var call := calls[|calls| - 1];
    if !(IsTerminal(call.status) && call.callId == id) {
      TerminalIsRecorded(calls[..|calls| - 1], id);
    }
  }

  // ---------------------------------------------------------------- what completion adds

  lemma {:induction false} AddedForIsTools(calls: seq<ToolCall>, answered: set<string>,
                                           terminal: map<string, HistoryToolCall>, words: Wording)
    ensures AllTools(AddedFor(calls, answered, terminal, words))
  {
    if calls != [] {
      AddedForIsTools(calls[..|calls| - 1], answered, terminal, words);
    }
  }

  /** Each unanswered id of the message is answered once, and nothing else is. */
  lemma {:induction false} AddedForCounts(calls: seq<ToolCall>, answered: set<string>,
                                          terminal: map<string, HistoryToolCall>, words: Wording, id: string)
    ensures multiset(AnswerIds(AddedFor(calls, answered, terminal, words)))[id]
         == if id in IdsOf(calls) && id !in answered then 1 else 0
  {
    if calls != [] {
      var last := |calls| - 1;
      var call := calls[last];
      AddedForCounts(calls[..last], answered, terminal, words, id);
      var one := Recovered(call, terminal, words);
      AnswerIdsAppend(AddedFor(calls[..last], answered, terminal, words), [one]);
      OneAnswer(one);
      hide AnswerIds;
    }
  }

  lemma AddedToIsTools(m: Message, answered: set<string>, terminal: map<string, HistoryToolCall>, words: Wording)
    ensures AllTools(AddedTo(m, answered, terminal, words))
  {
    if m.role.RoleAssistant? { AddedForIsTools(m.toolCalls, answered, terminal, words); }
  }

  lemma AddedToCounts(m: Message, answered: set<string>, terminal: map<string, HistoryToolCall>, words: Wording,
                      id: string)
    ensures multiset(AnswerIds(AddedTo(m, answered, terminal, words)))[id]
         == if id in CallIds(m) && id !in answered then 1 else 0
  {
    if m.role.RoleAssistant? { AddedForCounts(m.toolCalls, answered, terminal, words, id); }
  }

  lemma {:induction false} ToolsCallNothing(tools: seq<Message>)
    requires AllTools(tools)
    ensures AllCallIds(tools) == []
  {
    if tools != [] {
      ToolsCallNothing(tools[1..]);
    }
  }

  /** The calls are untouched. */
  lemma {:induction false} CompleteFromCalls(t: seq<Message>, answered: set<string>,
                                             terminal: map<string, HistoryToolCall>, words: Wording)
    ensures AllCallIds(CompleteFrom(t, answered, terminal, words)) == AllCallIds(t)
  {
    if t != [] {
      var m := t[0];
      var added := AddedTo(m, answered, terminal, words);
      var rest := CompleteFrom(t[1..], answered + IdSet(m), terminal, words);
      CompleteFromCalls(t[1..], answered + IdSet(m), terminal, words);
      AddedToIsTools(m, answered, terminal, words);
      ToolsCallNothing(added);
      AllCallIdsAppend(added, rest);
      NilAppend(AllCallIds(rest));
      DropAppend([m], added + rest);
      NilAppend(added + rest);
    }
  }

  /** Every id that is called but not in `answered` gains exactly one answer. */
  lemma {:induction false} CompleteFromAnswers(t: seq<Message>, answered: set<string>,
                                               terminal: map<string, HistoryToolCall>, words: Wording, id: string)
    ensures multiset(AnswerIds(CompleteFrom(t, answered, terminal, words)))[id]
         == multiset(AnswerIds(t))[id] + (if id in AllCallIds(t) && id !in answered then 1 else 0)
  {
    if t != [] {
      var m := t[0];
      var added := AddedTo(m, answered, terminal, words);
      var rest := CompleteFrom(t[1..], answered + IdSet(m), terminal, words);
      CompleteFromAnswers(t[1..], answered + IdSet(m), terminal, words, id);
      AddedToCounts(m, answered, terminal, words, id);
      AnswerIdsAppend(added, rest);
      DropAppend([m], added + rest);
      NilAppend(added + rest);
    }
  }

  /** a is a subsequence of b. */
  ghost predicate Embeds(a: seq<Message>, b: seq<Message>)
    decreases |b|
  {
    a == [] || (b != [] && ((a[0] == b[0] && Embeds(a[1..], b[1..])) || Embeds(a, b[1..])))
  }

  lemma {:induction false} EmbedsSkip(a: seq<Message>, skipped: seq<Message>, b: seq<Message>)
    requires Embeds(a, b)
    ensures Embeds(a, skipped + b)
    decreases |skipped|
  {
    if skipped == [] {
      assert skipped + b == b;
    } else {
      assert (skipped + b)[1..] == skipped[1..] + b;
      EmbedsSkip(a, skipped[1..], b);
    }
  }

  /** The recorded messages survive, in order. */
  lemma {:induction false} CompletionKeepsOriginals(t: seq<Message>, answered: set<string>,
                                                    terminal: map<string, HistoryToolCall>, words: Wording)
    ensures Embeds(t, CompleteFrom(t, answered, terminal, words))
  {
    if t != [] {
      var m := t[0];
      var added := AddedTo(m, answered, terminal, words);
      var rest := CompleteFrom(t[1..], answered + IdSet(m), terminal, words);
      CompletionKeepsOriginals(t[1..], answered + IdSet(m), terminal, words);
      EmbedsSkip(t[1..], added, rest);
      assert CompleteFrom(t, answered, terminal, words)[1..] == added + rest;
    }
  }

  // ---------------------------------------------------------------- what a dangling call is answered with

  /** The last completed or failed row of this call. */
  predicate LastTerminalRow(rows: seq<HistoryToolCall>, r: nat, id: string) {
    && r < |rows| && rows[r].callId == id && (rows[r].status.Completed? || rows[r].status.Failed?)
    && forall k :: r < k < |rows| && rows[k].callId == id ==> rows[k].status.Awaiting? || rows[k].status.Running?
  }

  /** What the rows know of the call's outcome, or an explicit unknown when none ever ended. */
  ghost predicate TellsOutcome(content: string, call: ToolCall, rows: seq<HistoryToolCall>, words: Wording) {
    && (forall r: nat :: LastTerminalRow(rows, r, call.id) ==> content == rows[r].resultContent)
    && ((forall r :: 0 <= r < |rows| && rows[r].callId == call.id ==>
           rows[r].status.Awaiting? || rows[r].status.Running?) ==>
          content == words.unknownOutcome(call))
  }

  /** An answer to this call. */
  ghost predicate Settles(m: Message, call: ToolCall, rows: seq<HistoryToolCall>, words: Wording) {
    m == ToolMessage(m.content, call.id, call.name) && TellsOutcome(m.content, call, rows, words)
  }

  /** The j-th call of the i-th message is the first one with its id, and nothing answers it. */
  predicate Dangles(t: seq<Message>, i: nat, j: nat) {
    && i < |t| && t[i].role.RoleAssistant? && j < |t[i].toolCalls|
    && (var id := t[i].toolCalls[j].id;
        && id !in AllCallIds(t[..i])
        && (forall k :: 0 <= k < j ==> t[i].toolCalls[k].id != id)
        && (id == "" || id !in AnswerIds(t)))
  }

  lemma RecoveredTells(call: ToolCall, rows: seq<HistoryToolCall>, words: Wording)
    ensures Settles(Recovered(call, TerminalCalls(rows), words), call, rows, words)
  {
    forall r: nat | LastTerminalRow(rows, r, call.id)
      ensures call.id in TerminalCalls(rows) && TerminalCalls(rows)[call.id] == rows[r]
    {
      TerminalIsLatest(rows, r);
    }
    if call.id in TerminalCalls(rows) {
      TerminalIsRecorded(rows, call.id);
    }
  }

  /** The first call of an id that nothing answered yet is answered behind the answers of earlier calls. */
  lemma {:induction false} AddedAt(calls: seq<ToolCall>, j: nat, answered: set<string>,
                                   terminal: map<string, HistoryToolCall>, words: Wording)
    requires j < |calls| && calls[j].id !in answered && forall i :: 0 <= i < j ==> calls[i].id != calls[j].id
    ensures var k := |AddedFor(calls[..j], answered, terminal, words)|;
      && |AddedFor(calls[..j + 1], answered, terminal, words)| == k + 1
      && k < |AddedFor(calls, answered, terminal, words)|
      && AddedFor(calls, answered, terminal, words)[k] == Recovered(calls[j], terminal, words)
  {
    hide AddedFor, Recovered;
    AddedSteps(calls, j, answered, terminal, words);
    AddedPrefix(calls, j + 1, answered, terminal, words);
    PrefixAt(AddedFor(calls[..j], answered, terminal, words), Recovered(calls[j], terminal, words),
      AddedFor(calls, answered, terminal, words));
  }

  lemma AddedSteps(calls: seq<ToolCall>, j: nat, answered: set<string>, terminal: map<string, HistoryToolCall>,
                   words: Wording)
    requires j < |calls| && calls[j].id !in answered && forall i :: 0 <= i < j ==> calls[i].id != calls[j].id
    ensures AddedFor(calls[..j + 1], answered, terminal, words)
         == AddedFor(calls[..j], answered, terminal, words) + [Recovered(calls[j], terminal, words)]
  {
    hide Recovered;
    AddedForStep(calls, j, answered, terminal, words);
    hide AddedFor;
    assert forall i :: 0 <= i < j ==> IdsOf(calls[..j])[i] == calls[i].id;
  }

  lemma PrefixAt(before: seq<Message>, m: Message, all: seq<Message>)
    requires before + [m] <= all
    ensures |before| < |all| && all[|before|] == m
  {
    assert (before + [m])[|before|] == m;
  }

  lemma {:induction false} AddedPrefix(calls: seq<ToolCall>, j: nat, answered: set<string>,
                                       terminal: map<string, HistoryToolCall>, words: Wording)
    requires j <= |calls|
    ensures AddedFor(calls[..j], answered, terminal, words) <= AddedFor(calls, answered, terminal, words)
  {
    hide Recovered;
    if j == |calls| {
      TakeAll(calls);
    } else {
      var n := |calls| - 1;
      AddedPrefix(calls[..n], j, answered, terminal, words);
      TakeTake(calls, j, n);
      TakeAll(calls);
      AddedForStep(calls, n, answered, terminal, words);
      hide AddedFor;
    }
  }

  /** A message and the answers added for it stand together. */
  predicate BlockAt(r: seq<Message>, at: nat, m: Message, added: seq<Message>) {
    at + |added| < |r| && r[at] == m && r[at + 1..at + 1 + |added|] == added
  }

  /** What has been answered or called before the i-th message. */
  ghost predicate KnownBefore(known: set<string>, answered: set<string>, t: seq<Message>, i: nat)
    requires i <= |t|
  {
    forall id :: id in known <==> id in answered || id in AllCallIds(t[..i])
  }

  lemma {:induction false} BlockIn(t: seq<Message>, answered: set<string>, terminal: map<string, HistoryToolCall>,
                                   words: Wording, i: nat) returns (at: nat, known: set<string>)
    requires i < |t|
    ensures KnownBefore(known, answered, t, i)
    ensures BlockAt(CompleteFrom(t, answered, terminal, words), at, t[i], AddedTo(t[i], known, terminal, words))
  {
    hide *;
    var m := t[0];
    var added := AddedTo(m, answered, terminal, words);
    var rest := CompleteFrom(t[1..], answered + IdSet(m), terminal, words);
    CompleteStep(t, answered, terminal, words);
    if i == 0 {
      at, known := 0, answered;
      NothingBefore(answered, t);
      FirstBlock(m, added, rest);
    } else {
      at, known := BlockIn(t[1..], answered + IdSet(m), terminal, words, i - 1);
      KnownLater(known, answered, t, i);
      LaterBlock(m, added, rest, at, t[i], AddedTo(t[i], known, terminal, words));
      at := at + 1 + |added|;
    }
  }

  lemma CompleteStep(t: seq<Message>, answered: set<string>, terminal: map<string, HistoryToolCall>, words: Wording)
    requires t != []
    ensures CompleteFrom(t, answered, terminal, words)
         == [t[0]] +
            (AddedTo(t[0], answered, terminal, words) + CompleteFrom(t[1..], answered + IdSet(t[0]), terminal, words))
  {
  }

  lemma NothingBefore(answered: set<string>, t: seq<Message>)
    ensures KnownBefore(answered, answered, t, 0)
  {
  }

  lemma KnownLater(known: set<string>, answered: set<string>, t: seq<Message>, i: nat)
    requires 0 < i <= |t| && KnownBefore(known, answered + IdSet(t[0]), t[1..], i - 1)
    ensures KnownBefore(known, answered, t, i)
  {
    assert t[..i][0] == t[0] && t[..i][1..] == t[1..][..i - 1];
  }

  lemma FirstBlock(m: Message, added: seq<Message>, rest: seq<Message>)
    ensures BlockAt([m] + (added + rest), 0, m, added)
  {
    assert ([m] + (added + rest))[1..1 + |added|] == added;
  }

  lemma LaterBlock(first: Message, skipped: seq<Message>, rest: seq<Message>, at: nat, m: Message, added: seq<Message>)
    requires BlockAt(rest, at, m, added)
    ensures BlockAt([first] + (skipped + rest), at + 1 + |skipped|, m, added)
  {
    var r, shift := [first] + (skipped + rest), 1 + |skipped|;
    assert r[shift..] == rest;
    assert r[at + shift + 1..at + shift + 1 + |added|] == r[shift..][at + 1..at + 1 + |added|];
  }

  /** The i-th message stands at `at`; right behind it, in the order of its calls, stand the answers
      to those that dangle, each at its place. */
  ghost predicate AnsweredInPlace(r: seq<Message>, t: seq<Message>, i: nat, at: nat, places: seq<nat>,
                                  rows: seq<HistoryToolCall>, words: Wording)
    requires i < |t|
  {
    && at < |r| && r[at] == t[i] && |places| == |t[i].toolCalls|
    && (forall j: nat :: Dangles(t, i, j) ==>
          at < places[j] < |r| && Settles(r[places[j]], t[i].toolCalls[j], rows, words))
    && (forall j: nat, n :: Dangles(t, i, j) && at < n <= places[j] ==> r[n].role.RoleTool?)
    && (forall j: nat, k: nat :: j < k && Dangles(t, i, j) && Dangles(t, i, k) ==> places[j] < places[k])
  }

  /** Every call that nothing answers is answered right behind its own message, in the order of the
      calls: with the result of its last completed or failed row, and without such a row as unknown. */
  lemma DanglingIsAnswered(t: seq<Message>, rows: seq<HistoryToolCall>, words: Wording, i: nat)
    returns (at: nat, places: seq<nat>)
    requires i < |t| && t[i].role.RoleAssistant?
    ensures AnsweredInPlace(Completed(t, rows, words), t, i, at, places, rows, words)
  {
    hide CompleteFrom, Recovered, TerminalCalls, Settles, AddedFor, Dangles, KnownBefore, AllTools;
    var r, terminal, cs := Completed(t, rows, words), TerminalCalls(rows), t[i].toolCalls;
    var known;
    at, known := BlockIn(t, NonEmptyAnswers(t), terminal, words, i);
    var added := AddedFor(cs, known, terminal, words);
    AddedForIsTools(cs, known, terminal, words);
    ToolsBehind(r, at, t[i], added);
    places := seq(|cs|, j requires 0 <= j < |cs| => at + 1 + |AddedFor(cs[..j], known, terminal, words)|);
    forall j: nat | Dangles(t, i, j)
      ensures j < |cs| && at < places[j] <= at + |added| && Settles(r[places[j]], cs[j], rows, words)
    {
      DanglesUnknown(t, i, j, known);
      AddedAt(cs, j, known, terminal, words);
      RecoveredTells(cs[j], rows, words);
    }
    forall j: nat, k: nat | j < k && Dangles(t, i, j) && Dangles(t, i, k)
      ensures k < |cs| && places[j] < places[k]
    {
      DanglesUnknown(t, i, j, known);
      DanglesUnknown(t, i, k, known);
      AddedAt(cs, j, known, terminal, words);
      AddedPrefix(cs[..k], j + 1, known, terminal, words);
      TakeTake(cs, j + 1, k);
    }
  }

  lemma ToolsBehind(r: seq<Message>, at: nat, m: Message, added: seq<Message>)
    requires BlockAt(r, at, m, added) && AllTools(added)
    ensures forall n :: at < n <= at + |added| ==> r[n] == added[n - at - 1] && r[n].role.RoleTool?
  {
    forall n | at < n <= at + |added| ensures r[n] == added[n - at - 1] {
      assert r[at + 1..at + 1 + |added|][n - at - 1] == r[n];
    }
  }

  lemma DanglesUnknown(t: seq<Message>, i: nat, j: nat, known: set<string>)
    requires i < |t| && Dangles(t, i, j) && KnownBefore(known, NonEmptyAnswers(t), t, i)
    ensures j < |t[i].toolCalls| && t[i].toolCalls[j].id !in known
    ensures forall k :: 0 <= k < j ==> t[i].toolCalls[k].id != t[i].toolCalls[j].id
  {
    AnsweredIds(t, t[i].toolCalls[j].id);
  }

  /** The messages that are no tool results. */
  function Others(t: seq<Message>): seq<Message> {
    if t == [] then [] else (if t[0].role.RoleTool? then [] else [t[0]]) + Others(t[1..])
  }

  lemma {:induction false} OthersAfterTools(tools: seq<Message>, t: seq<Message>)
    requires AllTools(tools)
    ensures Others(tools + t) == Others(t)
  {
    if tools == [] {
      NilAppend(t);
    } else {
      DropAppend(tools, t);
      OthersAfterTools(tools[1..], t);
      NilAppend(Others(t));
    }
  }

  /** Nothing but answers is added. */
  lemma {:induction false} CompletionAddsAnswersOnly(t: seq<Message>, answered: set<string>,
                                                     terminal: map<string, HistoryToolCall>, words: Wording)
    ensures Others(CompleteFrom(t, answered, terminal, words)) == Others(t)
  {
    if t != [] {
      var m := t[0];
      var added := AddedTo(m, answered, terminal, words);
      var rest := CompleteFrom(t[1..], answered + IdSet(m), terminal, words);
      CompletionAddsAnswersOnly(t[1..], answered + IdSet(m), terminal, words);
      AddedToIsTools(m, answered, terminal, words);
      OthersAfterTools(added, rest);
      DropAppend([m], added + rest);
      NilAppend(added + rest);
    }
  }

  // ---------------------------------------------------------------- repair theorem

  lemma AnsweredIds(t: seq<Message>, id: string)
    ensures id in NonEmptyAnswers(t) <==> id != "" && id in AnswerIds(t)
  {
    AnswerIdsMembers(t, id);
  }

  lemma {:induction false} AnswerIdsMembers(t: seq<Message>, id: string)
    ensures id in AnswerIds(t) <==> exists m :: m in t && m.role.RoleTool? && m.toolCallId == id
  {
    if t != [] {
      AnswerIdsMembers(t[1..], id);
      assert t == [t[0]] + t[1..];
    }
  }

  lemma DistinctSplit(a: seq<string>, b: seq<string>)
    requires Distinct(a + b)
    ensures Distinct(a) && Distinct(b)
    ensures forall id :: id in a ==> id !in b
  {
    forall i, j | 0 <= i < j < |a| ensures a[i] != a[j] {
      assert (a + b)[i] == a[i] && (a + b)[j] == a[j];
    }
    forall i, j | 0 <= i < j < |b| ensures b[i] != b[j] {
      assert (a + b)[|a| + i] == b[i] && (a + b)[|a| + j] == b[j];
    }
    forall id | id in a ensures id !in b {
      var i :| 0 <= i < |a| && a[i] == id;
      forall j | 0 <= j < |b| ensures b[j] != id {
        assert (a + b)[i] == a[i] && (a + b)[|a| + j] == b[j];
      }
    }
  }

  lemma {:induction false} DistinctCount(ids: seq<string>, id: string)
    requires Distinct(ids)
    ensures multiset(ids)[id] == if id in ids then 1 else 0
  {
    if ids != [] {
      var last := |ids| - 1;
      assert ids == ids[..last] + [ids[last]];
      DistinctCount(ids[..last], id);
    }
  }

  /** What the repair relies on while scanning t: `pending` are the calls the original still
      waits for, `expected` those among them that it goes on to answer itself, and `answered`
      knows exactly which of the calls still to come have answers. */
  ghost predicate Repairable(t: seq<Message>, pending: multiset<string>, expected: multiset<string>,
                             answered: set<string>)
  {
    && PartiallyPairedFrom(t, pending) && Distinct(AllCallIds(t))
    && (forall id :: id in pending ==> pending[id] == 1 && id !in AllCallIds(t))
    && (forall id :: expected[id] == if id in pending && id in AnswerIds(t) then 1 else 0)
    && (forall id :: id in AllCallIds(t) ==> (id in answered <==> id in AnswerIds(t)))
  }

  lemma RepairableEnd(t: seq<Message>, pending: multiset<string>, expected: multiset<string>, answered: set<string>)
    requires t == [] && Repairable(t, pending, expected, answered)
    ensures expected == multiset{}
  {
  }

  /** A call answered here is not answered again later. */
  lemma AnsweredOnce(t: seq<Message>, pending: multiset<string>)
    requires t != [] && t[0].role.RoleTool? && PartiallyPairedFrom(t, pending)
    requires forall id :: id in pending ==> pending[id] == 1 && id !in AllCallIds(t)
    ensures t[0].toolCallId in pending && t[0].toolCallId !in AnswerIds(t[1..])
  {
    var x := t[0].toolCallId;
    if x in AnswerIds(t[1..]) {
      AnswersAreCalled(t[1..], After(t[0], pending), x);
      assert false;
    }
  }

  lemma RepairableTool(t: seq<Message>, pending: multiset<string>, expected: multiset<string>, answered: set<string>)
    requires t != [] && t[0].role.RoleTool? && Repairable(t, pending, expected, answered)
    ensures Admits(t[0], expected)
    ensures Repairable(t[1..], After(t[0], pending), After(t[0], expected), answered)
  {
    var x, rest := t[0].toolCallId, t[1..];
    AnsweredOnce(t, pending);
    assert AllCallIds(t) == AllCallIds(rest);
    assert AnswerIds(t) == [x] + AnswerIds(rest);
    AfterAnswer(x, AnswerIds(rest), pending, expected);
  }

  lemma AfterAnswer(x: string, later: seq<string>, pending: multiset<string>, expected: multiset<string>)
    requires x in pending && pending[x] == 1 && x !in later
    requires forall id :: expected[id] == if id in pending && id in [x] + later then 1 else 0
    ensures expected[x] == 1
    ensures forall id :: (expected - multiset{x})[id] == if id in pending - multiset{x} && id in later then 1 else 0
  {
  }

  /** No pending call is answered past the next caller. */
  lemma NothingExpected(t: seq<Message>, pending: multiset<string>, expected: multiset<string>, answered: set<string>)
    requires t != [] && !t[0].role.RoleTool? && Repairable(t, pending, expected, answered)
    ensures expected == multiset{}
  {
    forall id ensures expected[id] == 0 {
      if id in pending && id in AnswerIds(t) {
        AnswersAreCalled(t[1..], multiset(CallIds(t[0])), id);
        assert false;
      }
    }
  }

  /** Of one message's distinct calls, those answered later are left; the others are given. */
  lemma LeftoverCalls(called: seq<string>, later: seq<string>, given: multiset<string>)
    requires Distinct(called)
    requires forall id :: given[id] == if id in called && id !in later then 1 else 0
    ensures given <= multiset(called)
    ensures forall id :: id in multiset(called) ==> multiset(called)[id] == 1
    ensures forall id :: (multiset(called) - given)[id] == if id in multiset(called) && id in later then 1 else 0
  {
    forall id ensures multiset(called)[id] == if id in called then 1 else 0 {
      DistinctCount(called, id);
    }
  }

  /** `later`: what the rest of t needs to know about the caller's ids. */
  lemma CallerIds(t: seq<Message>)
    requires t != [] && !t[0].role.RoleTool? && Distinct(AllCallIds(t))
    ensures Distinct(CallIds(t[0])) && Distinct(AllCallIds(t[1..]))
    ensures forall id :: id in CallIds(t[0]) ==> id !in AllCallIds(t[1..])
    ensures forall id :: id in AllCallIds(t) <==> id in CallIds(t[0]) || id in AllCallIds(t[1..])
    ensures AnswerIds(t) == AnswerIds(t[1..])
  {
    DistinctSplit(CallIds(t[0]), AllCallIds(t[1..]));
  }

  lemma RepairableCaller(t: seq<Message>, pending: multiset<string>, expected: multiset<string>,
                         answered: set<string>, terminal: map<string, HistoryToolCall>, words: Wording)
    requires t != [] && !t[0].role.RoleTool? && Repairable(t, pending, expected, answered)
    ensures var called := multiset(CallIds(t[0]));
      var given := multiset(AnswerIds(AddedTo(t[0], answered, terminal, words)));
      given <= called && Repairable(t[1..], called, called - given, answered + IdSet(t[0]))
  {
    var given := multiset(AnswerIds(AddedTo(t[0], answered, terminal, words)));
    CallerIds(t);
    forall id ensures given[id] == if id in CallIds(t[0]) && id !in AnswerIds(t[1..]) then 1 else 0 {
      AddedToCounts(t[0], answered, terminal, words, id);
    }
    LeftoverCalls(CallIds(t[0]), AnswerIds(t[1..]), given);
  }

  lemma CompletedCaller(m: Message, added: seq<Message>, tail: seq<Message>)
    requires !m.role.RoleTool? && AllTools(added)
    requires multiset(AnswerIds(added)) <= multiset(CallIds(m))
    requires PairedFrom(tail, multiset(CallIds(m)) - multiset(AnswerIds(added)))
    ensures Paired([m] + (added + tail))
  {
    AnswersConsume(added, tail, multiset(CallIds(m)));
    DropAppend([m], added + tail);
    NilAppend(added + tail);
  }

  lemma CompletedTool(m: Message, tail: seq<Message>, expected: multiset<string>)
    requires m.role.RoleTool? && Admits(m, expected) && PairedFrom(tail, After(m, expected))
    ensures PairedFrom([m] + ([] + tail), expected)
  {
    NilAppend(tail);
    DropAppend([m], tail);
  }

  /** The repair itself, one message at a time. */
  lemma {:induction false} CompleteFromPairs(t: seq<Message>, pending: multiset<string>, expected: multiset<string>,
                                             answered: set<string>,
                                             terminal: map<string, HistoryToolCall>, words: Wording)
    requires Repairable(t, pending, expected, answered)
    ensures PairedFrom(CompleteFrom(t, answered, terminal, words), expected)
  {
    hide Repairable;
    if t == [] {
      RepairableEnd(t, pending, expected, answered);
    } else if t[0].role.RoleTool? {
      RepairableTool(t, pending, expected, answered);
      CompleteFromPairs(t[1..], After(t[0], pending), After(t[0], expected), answered, terminal, words);
      assert answered + IdSet(t[0]) == answered;
      CompletedTool(t[0], CompleteFrom(t[1..], answered, terminal, words), expected);
    } else {
      NothingExpected(t, pending, expected, answered);
      RepairableCaller(t, pending, expected, answered, terminal, words);
      var m := t[0];
      var added := AddedTo(m, answered, terminal, words);
      var called := multiset(CallIds(m));
      CompleteFromPairs(t[1..], called, called - multiset(AnswerIds(added)), answered + IdSet(m), terminal, words);
      AddedToIsTools(m, answered, terminal, words);
      CompletedCaller(m, added, CompleteFrom(t[1..], answered + IdSet(m), terminal, words));
    }
  }

  /** With distinct call ids and answers where they belong, completion answers every call
      exactly once, in its own block — precisely when no empty id was already answered:
      an answer with an empty id is not seen, so that call would be answered twice. */
  lemma CompletionPairs(t: seq<Message>, calls: seq<HistoryToolCall>, words: Wording)
    requires PartiallyPaired(t) && Distinct(AllCallIds(t))
    ensures Paired(Completed(t, calls, words)) <==> "" !in AnswerIds(t)
  {
    var answered := NonEmptyAnswers(t);
    if "" !in AnswerIds(t) {
      forall id | id in AllCallIds(t) ensures id in answered <==> id in AnswerIds(t) {
        AnsweredIds(t, id);
      }
      assert Repairable(t, multiset{}, multiset{}, answered);
      CompleteFromPairs(t, multiset{}, multiset{}, answered, TerminalCalls(calls), words);
    } else {
      var result := Completed(t, calls, words);
      AnswersAreCalled(t, multiset{}, "");
      AnsweredIds(t, "");
      CompleteFromAnswers(t, answered, TerminalCalls(calls), words, "");
      CompleteFromCalls(t, answered, TerminalCalls(calls), words);
      DistinctCount(AllCallIds(t), "");
      assert "" in multiset(AnswerIds(t));
      if Paired(result) {
        PairedTotals(result, multiset{}, "");
        assert false;
      }
    }
  }

  /** An example: a call with an empty id that was answered is answered a second time. */
  lemma EmptyIdIsAnsweredTwice(words: Wording)
    ensures var asked := TextMessage(RoleAssistant, "").(toolCalls := [ToolCall("", "t", "{}")]);
      var t := [asked, ToolMessage("done", "", "t")];
      && Paired(t) && !Paired(Completed(t, [], words))
      && Completed(Completed(t, [], words), [], words) != Completed(t, [], words)
  {
    var asked := TextMessage(RoleAssistant, "").(toolCalls := [ToolCall("", "t", "{}")]);
    var answer := ToolMessage("done", "", "t");
    var t := [asked, answer];
    OneCall(asked, ToolCall("", "t", "{}"));
    OneAnswer(answer);
    AnswerIdsAppend([asked], [answer]);
    AllCallIdsAppend([asked], [answer]);
    assert [asked] + [answer] == t && [asked][1..] == [] && [answer][1..] == [];
    hide Completed, PairedFrom, PartiallyPairedFrom;
    PairedBlock(asked, [answer]);
    PairedIsPartial(t, multiset{});
    CompletionPairs(t, [], words);
    CompletionIsIdempotent(t, [], words);
  }

  lemma OneCall(m: Message, call: ToolCall)
    requires m.role.RoleAssistant? && m.toolCalls == [call]
    ensures CallIds(m) == [call.id]
  {
    assert [call][..0] == [];
  }

  lemma {:induction false} PairedIsPartial(t: seq<Message>, pending: multiset<string>)
    requires PairedFrom(t, pending)
    ensures PartiallyPairedFrom(t, pending)
  {
    if t != [] {
      PairedIsPartial(t[1..], After(t[0], pending));
    }
  }

  lemma {:induction false} NothingToComplete(t: seq<Message>, answered: set<string>,
                                             terminal: map<string, HistoryToolCall>, words: Wording)
    requires forall id :: id in AllCallIds(t) ==> id in answered
    ensures CompleteFrom(t, answered, terminal, words) == t
  {
    if t != [] {
      var m := t[0];
      NothingToComplete(t[1..], answered + IdSet(m), terminal, words);
      if m.role.RoleAssistant? {
        NothingToAdd(m.toolCalls, answered, terminal, words);
      }
    }
  }

  lemma {:induction false} NothingToAdd(calls: seq<ToolCall>, answered: set<string>,
                                        terminal: map<string, HistoryToolCall>, words: Wording)
    requires forall id :: id in IdsOf(calls) ==> id in answered
    ensures AddedFor(calls, answered, terminal, words) == []
  {
    if calls != [] {
      var last := |calls| - 1;
      assert IdsOf(calls)[last] == calls[last].id;
      NothingToAdd(calls[..last], answered, terminal, words);
    }
  }

  /** Completion is idempotent precisely when no call has an empty id. No other condition is
      needed: orphaned or repeated answers do not matter. */
  lemma CompletionIsIdempotent(t: seq<Message>, calls: seq<HistoryToolCall>, words: Wording)
    ensures Completed(Completed(t, calls, words), calls, words) == Completed(t, calls, words)
       <==> "" !in AllCallIds(t)
  {
    var terminal := TerminalCalls(calls);
    var once := Completed(t, calls, words);
    CompleteFromCalls(t, NonEmptyAnswers(t), terminal, words);
    if "" in AllCallIds(t) {
      AnsweredIds(once, "");
      CompleteFromAnswers(once, NonEmptyAnswers(once), terminal, words, "");
    } else {
      forall id | id in AllCallIds(once) ensures id in NonEmptyAnswers(once) {
        AnsweredIds(t, id);
        AnsweredIds(once, id);
        CompleteFromAnswers(t, NonEmptyAnswers(t), terminal, words, id);
        assert id in AnswerIds(once) <==> multiset(AnswerIds(once))[id] > 0;
        assert id in AnswerIds(t) <==> multiset(AnswerIds(t))[id] > 0;
      }
      NothingToComplete(once, NonEmptyAnswers(once), terminal, words);
    }
  }

  // ---------------------------------------------------------------- replaying earlier turns

  /** `call` carries the row's name, id, status and summary; completed evidence stays verbatim. */
  function LabelToolHistory(content: string, call: HistoryToolCall, words: Wording): string {
    match call.status
    case Completed => content
    case Failed => words.failedLabel(call, content)
    case _ => words.unknownLabel(call, content)
  }

  function LegacyCalls(calls: seq<HistoryToolCall>, validJson: string -> bool): seq<ToolCall> {
    if calls == [] then []
    else
      var call := calls[|calls| - 1];
      LegacyCalls(calls[..|calls| - 1], validJson) +
      [ToolCall(call.callId, call.name, if validJson(call.args) then call.args else "{}")]
  }

  function LegacyAnswer(call: HistoryToolCall, words: Wording): Message {
    ToolMessage(LabelToolHistory(call.resultContent, call, words), call.callId, call.name)
  }

  function LegacyAnswers(calls: seq<HistoryToolCall>, words: Wording): seq<Message> {
    if calls == [] then []
    else LegacyAnswers(calls[..|calls| - 1], words) + [LegacyAnswer(calls[|calls| - 1], words)]
  }

  /** A turn without a stored transcript: its tool evidence becomes one labelled block. */
  function LegacyBlock(assistantContent: string, turnStatus: string, calls: seq<HistoryToolCall>,
                       validJson: string -> bool, words: Wording): seq<Message>
  {
    if calls == [] then [TextMessage(RoleAssistant, assistantContent)]
    else
      [TextMessage(RoleAssistant, words.legacyNotice(turnStatus, assistantContent)).(
         toolCalls := LegacyCalls(calls, validJson))] +
      LegacyAnswers(calls, words)
  }

  method LegacyToolCalls(calls: seq<HistoryToolCall>, validJson: string -> bool) returns (toolCalls: seq<ToolCall>)
    ensures toolCalls == LegacyCalls(calls, validJson)
  {
    toolCalls := [];
    for i := 0 to |calls|
      invariant toolCalls == LegacyCalls(calls[..i], validJson)
    {
      assert calls[..i + 1][..i] == calls[..i];
      var args := calls[i].args;
      if !validJson(args) {
        args := "{}";
      }
      toolCalls := toolCalls + [ToolCall(calls[i].callId, calls[i].name, args)];
    }
    assert calls[..|calls|] == calls;
  }

  /** Replays a turn that has no stored transcript; `validJson` is Go's `json.Valid`. */
  method LegacyHistoryMessages(userContent: string, images: seq<Image>, assistantContent: string, turnStatus: string,
                               calls: seq<HistoryToolCall>, validJson: string -> bool, words: Wording)
    returns (messages: seq<Message>)
    ensures messages == [TextMessage(RoleUser, userContent).(images := images)] +
                        LegacyBlock(assistantContent, turnStatus, calls, validJson, words)
  {
    messages := [TextMessage(RoleUser, userContent).(images := images)];
    if |calls| == 0 {
      return messages + [TextMessage(RoleAssistant, assistantContent)];
    }
    var toolCalls := LegacyToolCalls(calls, validJson);
    ghost var user := messages[0];
    var assistant :=
      TextMessage(RoleAssistant, words.legacyNotice(turnStatus, assistantContent)).(toolCalls := toolCalls);
    messages := messages + [assistant];
    var head := messages;
    for i := 0 to |calls|
      invariant messages == head + LegacyAnswers(calls[..i], words)
    {
      assert calls[..i + 1][..i] == calls[..i];
      AppendAssoc(head, LegacyAnswers(calls[..i], words), [LegacyAnswer(calls[i], words)]);
      messages := messages + [LegacyAnswer(calls[i], words)];
    }
    assert calls[..|calls|] == calls;
    AppendAssoc([user], [assistant], LegacyAnswers(calls, words));
  }

  /** What a replayed result reads: verbatim evidence of a completed call, else labelled. */
  predicate Labelled(text: string, content: string, row: HistoryToolCall, words: Wording) {
    && (row.status.Completed? ==> text == content)
    && (row.status.Failed? ==> text == words.failedLabel(row, content))
    && (row.status.Awaiting? || row.status.Running? ==> text == words.unknownLabel(row, content))
  }

  lemma {:induction false} LegacyAt(calls: seq<HistoryToolCall>, validJson: string -> bool, words: Wording, i: nat)
    requires i < |calls|
    ensures |LegacyCalls(calls, validJson)| == |LegacyAnswers(calls, words)| == |calls|
    ensures LegacyCalls(calls, validJson)[i].id == calls[i].callId
      && LegacyCalls(calls, validJson)[i].name == calls[i].name
      && LegacyCalls(calls, validJson)[i].args == if validJson(calls[i].args) then calls[i].args else "{}"
    ensures var m := LegacyAnswers(calls, words)[i];
      m == ToolMessage(m.content, calls[i].callId, calls[i].name) &&
      Labelled(m.content, calls[i].resultContent, calls[i], words)
  {
    var n := |calls| - 1;
    if n == 0 {
      assert calls[..0] == [];
    } else {
      LegacyAt(calls[..n], validJson, words, if i < n then i else 0);
    }
  }

  /** Each row of a legacy turn becomes one call of the labelled message, with arguments that are
      JSON, and one answer at the same place that says how far it got. */
  lemma LegacyRows(assistantContent: string, turnStatus: string, calls: seq<HistoryToolCall>,
                   validJson: string -> bool, words: Wording, i: nat)
    requires i < |calls|
    ensures var block := LegacyBlock(assistantContent, turnStatus, calls, validJson, words);
      && |block| == |calls| + 1 && |block[0].toolCalls| == |calls|
      && block[0] == TextMessage(RoleAssistant, words.legacyNotice(turnStatus, assistantContent)).(
                       toolCalls := block[0].toolCalls)
      && block[0].toolCalls[i] == ToolCall(calls[i].callId, calls[i].name,
                                           if validJson(calls[i].args) then calls[i].args else "{}")
      && block[i + 1] == ToolMessage(block[i + 1].content, calls[i].callId, calls[i].name)
      && Labelled(block[i + 1].content, calls[i].resultContent, calls[i], words)
  {
    hide LegacyCalls, LegacyAnswers, Labelled;
    LegacyAt(calls, validJson, words, i);
  }

  lemma {:induction false} LegacyAnswersMatch(calls: seq<HistoryToolCall>, validJson: string -> bool, words: Wording)
    ensures AnswerIds(LegacyAnswers(calls, words)) == IdsOf(LegacyCalls(calls, validJson))
  {
    if calls != [] {
      var earlier, call := calls[..|calls| - 1], calls[|calls| - 1];
      LegacyAnswersMatch(earlier, validJson, words);
      AnswerIdsAppend(LegacyAnswers(earlier, words), [LegacyAnswer(call, words)]);
      OneAnswer(LegacyAnswer(call, words));
      LastOf(LegacyCalls(earlier, validJson),
        ToolCall(call.callId, call.name, if validJson(call.args) then call.args else "{}"));
    }
  }

  lemma OneAnswer(m: Message)
    ensures AnswerIds([m]) == AnswerId(m)
  {
    assert [m][1..] == [];
  }

  lemma {:induction false} LegacyAnswersAreTools(calls: seq<HistoryToolCall>, words: Wording)
    ensures AllTools(LegacyAnswers(calls, words))
  {
    if calls != [] {
      LegacyAnswersAreTools(calls[..|calls| - 1], words);
    }
  }

  /** Whatever rows a legacy turn left behind, its replay is paired, even with repeated ids. */
  lemma LegacyIsPaired(userContent: string, images: seq<Image>, assistantContent: string, turnStatus: string,
                       calls: seq<HistoryToolCall>, validJson: string -> bool, words: Wording)
    ensures Paired([TextMessage(RoleUser, userContent).(images := images)] +
                   LegacyBlock(assistantContent, turnStatus, calls, validJson, words))
  {
    var user := TextMessage(RoleUser, userContent).(images := images);
    var block := LegacyBlock(assistantContent, turnStatus, calls, validJson, words);
    PairedPlain(user);
    if calls == [] {
      PairedPlain(block[0]);
    } else {
      LegacyAnswersMatch(calls, validJson, words);
      LegacyAnswersAreTools(calls, words);
      PairedBlock(block[0], LegacyAnswers(calls, words));
    }
    PairedAppend([user], block, multiset{});
  }

  function Relabelled(m: Message, statusByCall: map<string, HistoryToolCall>, words: Wording): Message {
    if m.role.RoleTool? && m.toolCallId in statusByCall && !statusByCall[m.toolCallId].status.Completed? then
      m.(content := LabelToolHistory(m.content,
        statusByCall[m.toolCallId].(name := m.name, callId := m.toolCallId), words))
    else m
  }

  /** The last row of each call id, whatever its status. */
  function StatusByCall(calls: seq<HistoryToolCall>): map<string, HistoryToolCall> {
    if calls == [] then map[]
    else StatusByCall(calls[..|calls| - 1])[calls[|calls| - 1].callId := calls[|calls| - 1]]
  }

  function RelabelledAll(t: seq<Message>, statusByCall: map<string, HistoryToolCall>, words: Wording): (r: seq<Message>)
    ensures |r| == |t| && forall j :: 0 <= j < |t| ==> r[j] == Relabelled(t[j], statusByCall, words)
  {
    if t == [] then []
    else RelabelledAll(t[..|t| - 1], statusByCall, words) + [Relabelled(t[|t| - 1], statusByCall, words)]
  }

  /** A stored transcript replayed: completed, then labelled where a row did not complete. */
  method ReplayTranscript(user: Message, transcript: seq<Message>, calls: seq<HistoryToolCall>, words: Wording)
    returns (exchange: seq<Message>)
    ensures exchange == [user] + RelabelledAll(Completed(transcript, calls, words), StatusByCall(calls), words)
  {
    hide Completed, Relabelled;
    var completed := CompleteDanglingTranscriptCalls(transcript, calls, words);
    var statusByCall: map<string, HistoryToolCall> := map[];
    for i := 0 to |calls|
      invariant statusByCall == StatusByCall(calls[..i])
    {
      TakeSnoc(calls, i);
      statusByCall := statusByCall[calls[i].callId := calls[i]];
    }
    TakeAll(calls);
    exchange := [user];
    for i := 0 to |completed|
      invariant exchange == [user] + RelabelledAll(completed[..i], statusByCall, words)
    {
      TakeSnoc(completed, i);
      AppendAssoc([user], RelabelledAll(completed[..i], statusByCall, words),
        [Relabelled(completed[i], statusByCall, words)]);
      exchange := exchange + [Relabelled(completed[i], statusByCall, words)];
    }
    TakeAll(completed);
  }

  predicate LastRow(rows: seq<HistoryToolCall>, r: nat, id: string) {
    r < |rows| && rows[r].callId == id && forall k :: r < k < |rows| ==> rows[k].callId != id
  }

  lemma {:induction false} StatusIsLatest(rows: seq<HistoryToolCall>, id: string)
    ensures id in StatusByCall(rows) <==> exists r :: 0 <= r < |rows| && rows[r].callId == id
    ensures forall r: nat :: LastRow(rows, r, id) ==> StatusByCall(rows)[id] == rows[r]
  {
    if rows != [] {
      var front, last := rows[..|rows| - 1], rows[|rows| - 1];
      StatusIsLatest(front, id);
      assert rows == front + [last];
      forall r: nat | LastRow(rows, r, id) && last.callId != id ensures LastRow(front, r, id) {
      }
    }
  }

  /** Of a replayed transcript only the text of tool results changes: that of a call whose last row
      did not complete is labelled with that row, under the call's own id and name. */
  lemma ReplayLabels(t: seq<Message>, rows: seq<HistoryToolCall>, words: Wording, n: nat)
    requires n < |t|
    ensures var m, out := t[n], RelabelledAll(t, StatusByCall(rows), words)[n];
      && out == m.(content := out.content)
      && (!m.role.RoleTool? ==> out == m)
      && (m.role.RoleTool? && (forall r :: 0 <= r < |rows| ==> rows[r].callId != m.toolCallId) ==> out == m)
      && (m.role.RoleTool? ==> forall r: nat :: LastRow(rows, r, m.toolCallId) ==>
            Labelled(out.content, m.content, rows[r].(name := m.name), words))
  {
    hide RelabelledAll, LastRow;
    StatusIsLatest(rows, t[n].toolCallId);
    forall r: nat | LastRow(rows, r, t[n].toolCallId)
      ensures r < |rows| && rows[r].callId == t[n].toolCallId
    {
      LastRowIs(rows, r, t[n].toolCallId);
    }
  }

  lemma LastRowIs(rows: seq<HistoryToolCall>, r: nat, id: string)
    requires LastRow(rows, r, id)
    ensures r < |rows| && rows[r].callId == id
  {
  }

  lemma RelabellingKeepsShape(t: seq<Message>, statusByCall: map<string, HistoryToolCall>, words: Wording)
    ensures SameShape(RelabelledAll(t, statusByCall, words), t)
  {
    hide RelabelledAll, LabelToolHistory;
  }

  /** A crashed turn's stored rounds, replayed, are paired again. */
  lemma ReplayIsPaired(user: Message, transcript: seq<Message>, calls: seq<HistoryToolCall>, words: Wording)
    requires user.role == RoleUser
    requires PartiallyPaired(transcript) && Distinct(AllCallIds(transcript)) && "" !in AllCallIds(transcript)
    ensures Paired([user] + RelabelledAll(Completed(transcript, calls, words), StatusByCall(calls), words))
  {
    hide Completed, RelabelledAll;
    if "" in AnswerIds(transcript) {
      AnswersAreCalled(transcript, multiset{}, "");
      assert false;
    }
    var completed := Completed(transcript, calls, words);
    CompletionPairs(transcript, calls, words);
    RelabellingKeepsShape(completed, StatusByCall(calls), words);
    PairedSameShape(RelabelledAll(completed, StatusByCall(calls), words), completed, multiset{});
    PairedPlain(user);
    PairedJoin([user], RelabelledAll(completed, StatusByCall(calls), words));
  }
}
