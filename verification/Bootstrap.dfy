/** The business-profile bootstrap agent: two passes over one shared budget, with the model
    choosing every call (internal/aiaudit/business_profile_bootstrap.go). */
module Bootstrap {
  import opened Options
  import opened Chat
  import opened Seqs
  import opened Transcript

  const TOTAL_MAX_ROUNDS := 16
  const MAX_PAGE_CONTENT_READS := 5
  const FINAL_ROUNDS := 2

  /** What the provider does when its turn comes; `Interrupted` is a cancelled context. */
  datatype Reply = Interrupted | ProviderError | Streamed(text: string, reasoning: string, calls: seq<ToolCall>)

  /** Everything outside the agent, as adversary: the reply to the n-th round taken, whether the
      tool run of a call completes, by its round and place in the response, the page a content
      read names, and the fixed texts. */
  datatype World = World(
    replies: nat -> Reply,
    outcomes: (nat, nat) -> bool,
    results: (ToolCall, bool) -> string,
    contentUrl: string -> Option<string>,
    updateTool: string,
    readTool: string,
    finalizationPrompt: string,
    correctionPrompt: string)

  predicate IsUpdateCall(w: World, call: ToolCall) {
    call.name == w.updateTool
  }

  /** A content-mode page read, with its normalized URL, which may be empty. */
  function ContentRead(w: World, call: ToolCall): Option<string> {
    if call.name == w.readTool then w.contentUrl(call.args) else None
  }

  // ---------------------------------------------------------------- what happened

  datatype Entry =
    | Provider
    | Ran(update: bool, url: Option<string>, completed: bool)
    | Breach

  datatype Kind = AProvider | ARead | APage(page: string) | AnUpdate | ASave | AResearch | ABreach

  predicate Is(e: Entry, kind: Kind) {
    match kind
    case AProvider => e.Provider?
    case ARead => e.Ran? && e.url.Some?
    case APage(page) => e.Ran? && e.url == Some(page)
    case AnUpdate => e.Ran? && e.update
    case ASave => e.Ran? && e.update && e.completed
    case AResearch => e.Ran? && !e.update
    case ABreach => e.Breach?
  }

  function Count(log: seq<Entry>, kind: Kind): nat {
    if log == [] then 0
    else Count(log[..|log| - 1], kind) + (if Is(log[|log| - 1], kind) then 1 else 0)
  }

  lemma CountSnoc(log: seq<Entry>, e: Entry, kind: Kind)
    ensures Count(log + [e], kind) == Count(log, kind) + (if Is(e, kind) then 1 else 0)
  {
    LastOf(log, e);
  }

  lemma {:induction false} LogCountAppend(a: seq<Entry>, b: seq<Entry>, kind: Kind)
    ensures Count(a + b, kind) == Count(a, kind) + Count(b, kind)
  {
    if b == [] {
      AppendNil(a);
    } else {
      var b', e := b[..|b| - 1], b[|b| - 1];
      AppendAssoc(a, b', [e]);
      LogCountAppend(a, b', kind);
      CountSnoc(a + b', e, kind);
      CountSnoc(b', e, kind);
      assert b == b' + [e];
    }
  }

  lemma {:induction false} CountZero(log: seq<Entry>, kind: Kind)
    ensures Count(log, kind) == 0 <==> forall i :: 0 <= i < |log| ==> !Is(log[i], kind)
  {
    if log != [] {
      CountZero(log[..|log| - 1], kind);
    }
  }

  /** Nothing more is asked of the provider once an update ran or the page cap was breached. */
  predicate EndsThere(pass: seq<Entry>) {
    forall i, j :: 0 <= i < j < |pass| && (Is(pass[i], AnUpdate) || Is(pass[i], ABreach)) ==> !Is(pass[j], AProvider)
  }

  /** Research only runs in the first rounds: the last two are reserved for the profile. */
  predicate ClosesResearch(log: seq<Entry>) {
    forall i :: 0 <= i < |log| && Is(log[i], AResearch) ==>
      Count(log[..i], AProvider) <= TOTAL_MAX_ROUNDS - FINAL_ROUNDS
  }

  lemma ClosesSnoc(log: seq<Entry>, e: Entry)
    requires ClosesResearch(log)
    requires Is(e, AResearch) ==> Count(log, AProvider) <= TOTAL_MAX_ROUNDS - FINAL_ROUNDS
    ensures ClosesResearch(log + [e])
  {
    hide Count, Is;
    forall i | 0 <= i < |log + [e]| && Is((log + [e])[i], AResearch)
      ensures Count((log + [e])[..i], AProvider) <= TOTAL_MAX_ROUNDS - FINAL_ROUNDS
    {
      if i < |log| {
        assert (log + [e])[..i] == log[..i];
      } else {
        LastOf(log, e);
      }
    }
  }

  // ---------------------------------------------------------------- the success rule

  datatype ToolResult = ToolResult(name: string, completed: bool)

  function UpdateResults(w: World, results: seq<ToolResult>): nat {
    if results == [] then 0
    else UpdateResults(w, results[..|results| - 1]) + (if results[|results| - 1].name == w.updateTool then 1 else 0)
  }

  function SavedResults(w: World, results: seq<ToolResult>): nat {
    if results == [] then 0
    else
      var last := results[|results| - 1];
      SavedResults(w, results[..|results| - 1]) + (if last.name == w.updateTool && last.completed then 1 else 0)
  }

  method UpdateSucceeded(w: World, results: seq<ToolResult>) returns (ok: bool)
    ensures ok <==> UpdateResults(w, results) == 1 && SavedResults(w, results) == 1
  {
    var calls, succeeded := 0, 0;
    for i := 0 to |results|
      invariant calls == UpdateResults(w, results[..i]) && succeeded == SavedResults(w, results[..i])
    {
      TakeSnoc(results, i);
      if results[i].name != w.updateTool {
        continue;
      }
      calls := calls + 1;
      if results[i].completed {
        succeeded := succeeded + 1;
      }
    }
    TakeAll(results);
    ok := calls == 1 && succeeded == 1;
  }

  function UpdateCalls(w: World, calls: seq<ToolCall>): nat {
    if calls == [] then 0
    else UpdateCalls(w, calls[..|calls| - 1]) + (if IsUpdateCall(w, calls[|calls| - 1]) then 1 else 0)
  }

  method CountUpdateCalls(w: World, calls: seq<ToolCall>) returns (updates: nat)
    ensures updates == UpdateCalls(w, calls)
  {
    updates := 0;
    for i := 0 to |calls|
      invariant updates == UpdateCalls(w, calls[..i])
    {
      TakeSnoc(calls, i);
      if IsUpdateCall(w, calls[i]) {
        updates := updates + 1;
      }
    }
    TakeAll(calls);
  }

  // ---------------------------------------------------------------- the shared budget

  /** What is left for the whole job. */
  datatype Limits = Limits(rounds: nat, contentReads: nat, pages: set<string>)

  function Untouched(): Limits {
    Limits(TOTAL_MAX_ROUNDS, MAX_PAGE_CONTENT_READS, {})
  }

  /** How many rounds were taken before this one. */
  function Round(left: Limits): nat {
    if left.rounds <= TOTAL_MAX_ROUNDS then TOTAL_MAX_ROUNDS - left.rounds else 0
  }

  /** One call of a response with `updates` update calls: what is left, and what happened. */
  function CallStep(w: World, left: Limits, call: ToolCall, finalizing: bool, updates: nat,
                    completes: bool): (Limits, seq<Entry>)
  {
    var update := IsUpdateCall(w, call);
    if finalizing && !update then (left, [])
    else if updates > 1 && update then (left, [])
    else
      match ContentRead(w, call)
      case None => (left, [Ran(update, None, completes)])
      case Some(url) =>
        if url != "" && url in left.pages then (left, [])
        else if left.contentReads == 0 then (left, [Breach])
        else
          var paid := left.(contentReads := left.contentReads - 1, pages := left.pages + Named(url));
          (paid, [Ran(update, Some(url), completes)])
  }

  function Named(url: string): set<string> {
    if url == "" then {} else {url}
  }

  function CallsStep(w: World, left: Limits, calls: seq<ToolCall>, finalizing: bool, updates: nat,
                     round: nat): (Limits, seq<Entry>)
  {
    if calls == [] then (left, [])
    else
      var n := |calls| - 1;
      var before := CallsStep(w, left, calls[..n], finalizing, updates, round);
      var step := CallStep(w, before.0, calls[n], finalizing, updates, w.outcomes(round, n));
      (step.0, before.1 + step.1)
  }

  lemma CallsStepSnoc(w: World, left: Limits, calls: seq<ToolCall>, call: ToolCall, finalizing: bool, updates: nat,
                      round: nat)
    ensures var before := CallsStep(w, left, calls, finalizing, updates, round);
      var step := CallStep(w, before.0, call, finalizing, updates, w.outcomes(round, |calls|));
      CallsStep(w, left, calls + [call], finalizing, updates, round) == (step.0, before.1 + step.1)
  {
    hide CallStep;
    LastOf(calls, call);
  }

  lemma NoCalls(w: World, left: Limits, finalizing: bool, updates: nat, round: nat)
    ensures CallsStep(w, left, [], finalizing, updates, round) == (left, [])
  {
  }

  // ---------------------------------------------------------------- passes and jobs as functions

  predicate Finalizing(left: Limits, profileOnly: bool) {
    profileOnly || left.rounds < FINAL_ROUNDS
  }

  lemma FinalizingIs(left: Limits, profileOnly: bool)
    ensures Finalizing(left, profileOnly) <==> profileOnly || left.rounds < FINAL_ROUNDS
  {
  }

  datatype RoundResult = RoundResult(left: Limits, log: seq<Entry>, over: bool, ok: bool)

  /** One round: whether the pass is over after it, and whether it saved. */
  function RoundOf(w: World, left: Limits, profileOnly: bool): RoundResult
    requires left.rounds > 0
  {
    var spent := left.(rounds := left.rounds - 1);
    match w.replies(Round(left))
    case Interrupted => RoundResult(spent, [], true, false)
    case ProviderError => RoundResult(spent, [Provider], true, false)
    case Streamed(_, _, calls) =>
      if calls == [] then RoundResult(spent, [Provider], true, false)
      else
        var updates := UpdateCalls(w, calls);
        var step := CallsStep(w, spent, calls, Finalizing(spent, profileOnly), updates, Round(left));
        var breached := Count(step.1, ABreach) > 0;
        var saved := updates == 1 && Count(step.1, ASave) == 1;
        RoundResult(step.0, [Provider] + step.1, breached || updates > 0, !breached && saved)
  }

  datatype PassResult = PassResult(left: Limits, log: seq<Entry>, ok: bool)

  lemma {:induction false} CallsKeepRounds(w: World, left: Limits, calls: seq<ToolCall>, finalizing: bool,
                                           updates: nat, round: nat)
    ensures CallsStep(w, left, calls, finalizing, updates, round).0.rounds == left.rounds
  {
    if calls != [] {
      CallsKeepRounds(w, left, calls[..|calls| - 1], finalizing, updates, round);
    }
  }

  lemma RoundSpendsOne(w: World, left: Limits, profileOnly: bool)
    requires left.rounds > 0
    ensures RoundOf(w, left, profileOnly).left.rounds == left.rounds - 1
  {
    hide CallsStep, UpdateCalls, Count;
    var reply := w.replies(Round(left));
    if reply.Streamed? {
      var spent := left.(rounds := left.rounds - 1);
      CallsKeepRounds(w, spent, reply.calls, Finalizing(spent, profileOnly), UpdateCalls(w, reply.calls), Round(left));
    }
  }

  function PassOf(w: World, left: Limits, profileOnly: bool): PassResult
    decreases left.rounds
  {
    if left.rounds == 0 then PassResult(left, [], false)
    else
      RoundSpendsOne(w, left, profileOnly);
      var round := RoundOf(w, left, profileOnly);
      if round.over then PassResult(round.left, round.log, round.ok)
      else Continued(round.log, PassOf(w, round.left, profileOnly))
  }

  function Continued(log: seq<Entry>, rest: PassResult): PassResult {
    rest.(log := log + rest.log)
  }

  // ---------------------------------------------------------------- what the provider is shown

  predicate RanToCompletion(added: seq<Entry>) {
    |added| == 1 && added[0].Ran? && added[0].completed
  }

  /** One tool message for each call: what it answers when it completed, or why it did not. */
  function AnswersFor(w: World, left: Limits, calls: seq<ToolCall>, finalizing: bool, updates: nat,
                      round: nat): seq<Message>
  {
    if calls == [] then []
    else
      var n := |calls| - 1;
      var before := CallsStep(w, left, calls[..n], finalizing, updates, round);
      var step := CallStep(w, before.0, calls[n], finalizing, updates, w.outcomes(round, n));
      AnswersFor(w, left, calls[..n], finalizing, updates, round) +
      [ToolMessage(w.results(calls[n], RanToCompletion(step.1)), calls[n].id, calls[n].name)]
  }

  function WithPrompt(messages: seq<Message>, prompt: string): seq<Message> {
    messages + [TextMessage(RoleUser, prompt)]
  }

  /** The response as an assistant message, and the answers to its calls. */
  function WithRound(messages: seq<Message>, reply: Reply, answers: seq<Message>): seq<Message>
    requires reply.Streamed?
  {
    var assistant := TextMessage(RoleAssistant, reply.text).(toolCalls := reply.calls, reasoning := reply.reasoning);
    messages + ([assistant] + answers)
  }

  /** The prompt that closes research, once. */
  function Announced(w: World, messages: seq<Message>, finalizing: bool, announced: bool): seq<Message> {
    if finalizing && !announced then WithPrompt(messages, w.finalizationPrompt) else messages
  }

  /** The messages after one round. */
  function RoundShows(w: World, left: Limits, profileOnly: bool, announced: bool, messages: seq<Message>): seq<Message>
    requires left.rounds > 0
  {
    var reply, spent := w.replies(Round(left)), left.(rounds := left.rounds - 1);
    var finalizing := Finalizing(spent, profileOnly);
    match reply
    case Interrupted => messages
    case ProviderError => Announced(w, messages, finalizing, announced)
    case Streamed(_, _, calls) =>
      WithRound(Announced(w, messages, finalizing, announced), reply,
        AnswersFor(w, spent, calls, finalizing, UpdateCalls(w, calls), Round(left)))
  }

  /** The messages after a pass. */
  function PassShows(w: World, left: Limits, profileOnly: bool, announced: bool, messages: seq<Message>): seq<Message>
    decreases left.rounds
  {
    if left.rounds == 0 then messages
    else
      RoundSpendsOne(w, left, profileOnly);
      var round, shown := RoundOf(w, left, profileOnly), RoundShows(w, left, profileOnly, announced, messages);
      if round.over then shown
      else PassShows(w, round.left, profileOnly, announced || Finalizing(round.left, profileOnly), shown)
  }

  lemma AnswersForSnoc(w: World, left: Limits, calls: seq<ToolCall>, call: ToolCall, finalizing: bool, updates: nat,
                       round: nat)
    ensures AnswersFor(w, left, [], finalizing, updates, round) == []
    ensures var before := CallsStep(w, left, calls, finalizing, updates, round);
      var step := CallStep(w, before.0, call, finalizing, updates, w.outcomes(round, |calls|));
      AnswersFor(w, left, calls + [call], finalizing, updates, round)
      == AnswersFor(w, left, calls, finalizing, updates, round) +
         [ToolMessage(w.results(call, RanToCompletion(step.1)), call.id, call.name)]
  {
    hide CallStep, CallsStep, RanToCompletion;
    LastOf(calls, call);
  }

  lemma PassShowsIs(w: World, left: Limits, profileOnly: bool, announced: bool, messages: seq<Message>)
    requires left.rounds > 0
    ensures var round, shown := RoundOf(w, left, profileOnly), RoundShows(w, left, profileOnly, announced, messages);
      && (round.over ==> PassShows(w, left, profileOnly, announced, messages) == shown)
      && (!round.over ==>
            PassShows(w, left, profileOnly, announced, messages)
            == PassShows(w, round.left, profileOnly, announced || Finalizing(round.left, profileOnly), shown))
  {
    RoundSpendsOne(w, left, profileOnly);
    hide RoundOf, RoundShows, Finalizing;
  }

  lemma NoCallsNoMore(w: World, left: Limits, profileOnly: bool)
    requires left.rounds > 0 && (w.replies(Round(left)).Streamed? ==> w.replies(Round(left)).calls == [])
    ensures RoundOf(w, left, profileOnly).over
  {
  }

  lemma ShowsInterrupted(w: World, left: Limits, profileOnly: bool, announced: bool, messages: seq<Message>)
    requires left.rounds > 0 && w.replies(Round(left)).Interrupted?
    ensures PassShows(w, left, profileOnly, announced, messages) == messages
  {
    hide *;
    PassShowsIs(w, left, profileOnly, announced, messages);
    RoundShowsIs(w, left, profileOnly, announced, messages);
    NoCallsNoMore(w, left, profileOnly);
  }

  lemma ShowsError(w: World, left: Limits, profileOnly: bool, announced: bool, messages: seq<Message>)
    requires left.rounds > 0 && w.replies(Round(left)).ProviderError?
    ensures var finalizing := Finalizing(left.(rounds := left.rounds - 1), profileOnly);
      PassShows(w, left, profileOnly, announced, messages) == Announced(w, messages, finalizing, announced)
  {
    hide *;
    PassShowsIs(w, left, profileOnly, announced, messages);
    RoundShowsIs(w, left, profileOnly, announced, messages);
    NoCallsNoMore(w, left, profileOnly);
  }

  lemma ShowsText(w: World, left: Limits, profileOnly: bool, announced: bool, messages: seq<Message>, reply: Reply)
    requires left.rounds > 0 && reply == w.replies(Round(left)) && reply.Streamed? && reply.calls == []
    ensures var finalizing := Finalizing(left.(rounds := left.rounds - 1), profileOnly);
      PassShows(w, left, profileOnly, announced, messages)
      == WithRound(Announced(w, messages, finalizing, announced), reply, [])
  {
    hide *;
    PassShowsIs(w, left, profileOnly, announced, messages);
    RoundShowsIs(w, left, profileOnly, announced, messages);
    NoCallsNoMore(w, left, profileOnly);
    var spent := left.(rounds := left.rounds - 1);
    AnswersForSnoc(w, spent, [], ToolCall("", "", ""), Finalizing(spent, profileOnly), UpdateCalls(w, []), Round(left));
  }

  /** One more round shown; the pass goes on unless it is over. */
  lemma ShowsRound(w: World, left: Limits, profileOnly: bool, announced: bool, messages: seq<Message>, reply: Reply)
    requires left.rounds > 0 && reply == w.replies(Round(left)) && reply.Streamed? && reply.calls != []
    ensures var spent, round := left.(rounds := left.rounds - 1), RoundOf(w, left, profileOnly);
      var finalizing := Finalizing(spent, profileOnly);
      var shown := WithRound(Announced(w, messages, finalizing, announced), reply,
        AnswersFor(w, spent, reply.calls, finalizing, UpdateCalls(w, reply.calls), Round(left)));
      PassShows(w, left, profileOnly, announced, messages) ==
      if round.over then shown else PassShows(w, round.left, profileOnly, announced || finalizing, shown)
  {
    hide *;
    PassShowsIs(w, left, profileOnly, announced, messages);
    RoundShowsIs(w, left, profileOnly, announced, messages);
    RoundSpendsOne(w, left, profileOnly);
    FinalizingIs(left.(rounds := left.rounds - 1), profileOnly);
    FinalizingIs(RoundOf(w, left, profileOnly).left, profileOnly);
  }

  lemma NoRoundsToShow(w: World, left: Limits, profileOnly: bool, announced: bool, messages: seq<Message>)
    requires left.rounds == 0
    ensures PassShows(w, left, profileOnly, announced, messages) == messages
  {
  }

  lemma AnnouncedIs(w: World, messages: seq<Message>, finalizing: bool, announced: bool)
    ensures Announced(w, messages, finalizing, announced)
         == if finalizing && !announced then WithPrompt(messages, w.finalizationPrompt) else messages
  {
  }

  /** The answer to a call carries its id and name, and its text is that of a completed run exactly
      when the call was run and completed: never for a call that was refused. */
  predicate AnswersCall(w: World, m: Message, call: ToolCall, finalizing: bool, updates: nat, outcome: bool) {
    var update := IsUpdateCall(w, call);
    && (m == ToolMessage(w.results(call, true), call.id, call.name) ||
        m == ToolMessage(w.results(call, false), call.id, call.name))
    && ((finalizing && !update) || (update && updates > 1) || !outcome ==>
          m == ToolMessage(w.results(call, false), call.id, call.name))
    && ((update && updates <= 1) || (!finalizing && !update && ContentRead(w, call).None?) ==>
          m == ToolMessage(w.results(call, outcome), call.id, call.name))
  }

  lemma OneAnswerStands(w: World, left: Limits, call: ToolCall, finalizing: bool, updates: nat, outcome: bool)
    requires w.updateTool != w.readTool
    ensures var ran := RanToCompletion(CallStep(w, left, call, finalizing, updates, outcome).1);
      AnswersCall(w, ToolMessage(w.results(call, ran), call.id, call.name), call, finalizing, updates, outcome)
  {
  }

  lemma {:induction false} AnswersStand(w: World, left: Limits, calls: seq<ToolCall>, finalizing: bool, updates: nat,
                                        round: nat)
    requires w.updateTool != w.readTool
    ensures var answers := AnswersFor(w, left, calls, finalizing, updates, round);
      && |answers| == |calls|
      && forall i :: 0 <= i < |calls| ==>
           AnswersCall(w, answers[i], calls[i], finalizing, updates, w.outcomes(round, i))
  {
    hide CallsStep, CallStep, RanToCompletion, AnswersCall;
    if calls != [] {
      var n := |calls| - 1;
      AnswersStand(w, left, calls[..n], finalizing, updates, round);
      var before := CallsStep(w, left, calls[..n], finalizing, updates, round);
      OneAnswerStands(w, before.0, calls[n], finalizing, updates, w.outcomes(round, n));
    }
  }

  /** What one round adds: the prompt before the first round that may only save, the response with
      its text, reasoning and calls, and one answer to each call at its place. */
  lemma RoundAdds(w: World, left: Limits, profileOnly: bool, announced: bool, messages: seq<Message>)
    requires left.rounds > 0 && w.updateTool != w.readTool
    ensures var reply, shown := w.replies(Round(left)), RoundShows(w, left, profileOnly, announced, messages);
      var finalizing := profileOnly || left.rounds - 1 < FINAL_ROUNDS;
      var n := |messages| + if finalizing && !announced then 1 else 0;
      && (reply.Interrupted? ==> shown == messages)
      && (!reply.Interrupted? ==>
            && n <= |shown| && shown[..|messages|] == messages
            && (n > |messages| ==> shown[|messages|] == TextMessage(RoleUser, w.finalizationPrompt)))
      && (reply.ProviderError? ==> |shown| == n)
      && (reply.Streamed? ==>
            && |shown| == n + 1 + |reply.calls|
            && shown[n] == Message(RoleAssistant, reply.text, [], reply.calls, "", "", reply.reasoning)
            && forall i :: 0 <= i < |reply.calls| ==>
                 AnswersCall(w, shown[n + 1 + i], reply.calls[i], finalizing, UpdateCalls(w, reply.calls),
                             w.outcomes(Round(left), i)))
  {
    hide *;
    RoundShowsIs(w, left, profileOnly, announced, messages);
    var reply, spent := w.replies(Round(left)), left.(rounds := left.rounds - 1);
    var finalizing := Finalizing(spent, profileOnly);
    var prompted := Announced(w, messages, finalizing, announced);
    AnnouncedAt(w, messages, finalizing, announced);
    FinalizingIs(spent, profileOnly);
    if reply.Streamed? {
      var answers := AnswersFor(w, spent, reply.calls, finalizing, UpdateCalls(w, reply.calls), Round(left));
      AnswersStand(w, spent, reply.calls, finalizing, UpdateCalls(w, reply.calls), Round(left));
      WithRoundAt(prompted, reply, answers);
      PrefixOfPrefix(messages, prompted, RoundShows(w, left, profileOnly, announced, messages));
    }
  }

  /** Messages with the role of a user. */
  function Prompts(messages: seq<Message>): nat {
    if messages == [] then 0
    else Prompts(messages[..|messages| - 1]) + (if messages[|messages| - 1].role.RoleUser? then 1 else 0)
  }

  lemma PromptsSnoc(messages: seq<Message>, m: Message)
    ensures Prompts(messages + [m]) == Prompts(messages) + (if m.role.RoleUser? then 1 else 0)
  {
    LastOf(messages, m);
  }

  lemma {:induction false} PromptsAppend(a: seq<Message>, b: seq<Message>)
    ensures Prompts(a + b) == Prompts(a) + Prompts(b)
  {
    if b == [] {
      AppendNil(a);
    } else {
      var front, last := b[..|b| - 1], b[|b| - 1];
      hide Prompts;
      PromptsAppend(a, front);
      AppendAssoc(a, front, [last]);
      PromptsSnoc(a + front, last);
      PromptsSnoc(front, last);
      assert b == front + [last];
    }
  }

  lemma {:induction false} AnswersPromptNothing(w: World, left: Limits, calls: seq<ToolCall>, finalizing: bool,
                                                updates: nat, round: nat)
    ensures Prompts(AnswersFor(w, left, calls, finalizing, updates, round)) == 0
  {
    if calls != [] {
      hide CallsStep, CallStep, RanToCompletion;
      var n := |calls| - 1;
      AnswersPromptNothing(w, left, calls[..n], finalizing, updates, round);
      var step := CallStep(w, CallsStep(w, left, calls[..n], finalizing, updates, round).0, calls[n], finalizing,
                           updates, w.outcomes(round, n));
      LastOf(AnswersFor(w, left, calls[..n], finalizing, updates, round),
        ToolMessage(w.results(calls[n], RanToCompletion(step.1)), calls[n].id, calls[n].name));
    }
  }

  lemma OnePrompt(messages: seq<Message>, prompt: string)
    ensures Prompts(WithPrompt(messages, prompt)) == Prompts(messages) + 1 && messages <= WithPrompt(messages, prompt)
  {
    LastOf(messages, TextMessage(RoleUser, prompt));
  }

  lemma RoundPromptsNothing(messages: seq<Message>, reply: Reply, answers: seq<Message>)
    requires reply.Streamed? && Prompts(answers) == 0
    ensures Prompts(WithRound(messages, reply, answers)) == Prompts(messages)
    ensures messages <= WithRound(messages, reply, answers)
  {
    var assistant := TextMessage(RoleAssistant, reply.text).(toolCalls := reply.calls, reasoning := reply.reasoning);
    hide Prompts;
    PromptsAppend(messages, [assistant] + answers);
    PromptsAppend([assistant], answers);
    AssistantPromptsNothing(assistant);
  }

  lemma AssistantPromptsNothing(m: Message)
    requires m.role.RoleAssistant?
    ensures Prompts([m]) == 0
  {
    LastOf([], m);
    NilAppend([m]);
  }

  lemma RoundPrompts(w: World, left: Limits, profileOnly: bool, announced: bool, messages: seq<Message>)
    requires left.rounds > 0
    ensures var shown := RoundShows(w, left, profileOnly, announced, messages);
      var finalizing := Finalizing(left.(rounds := left.rounds - 1), profileOnly);
      && messages <= shown
      && Prompts(shown) == Prompts(messages) +
           (if finalizing && !announced && !w.replies(Round(left)).Interrupted? then 1 else 0)
  {
    hide *;
    RoundShowsIs(w, left, profileOnly, announced, messages);
    var reply, spent := w.replies(Round(left)), left.(rounds := left.rounds - 1);
    var finalizing := Finalizing(spent, profileOnly);
    AnnouncedIs(w, messages, finalizing, announced);
    OnePrompt(messages, w.finalizationPrompt);
    if reply.Streamed? {
      AnswersPromptNothing(w, spent, reply.calls, finalizing, UpdateCalls(w, reply.calls), Round(left));
      RoundPromptsNothing(Announced(w, messages, finalizing, announced), reply,
        AnswersFor(w, spent, reply.calls, finalizing, UpdateCalls(w, reply.calls), Round(left)));
    }
  }

  /** A pass only ever adds messages, and announces the end of research at most once. */
  lemma {:induction false} AnnouncedOnce(w: World, left: Limits, profileOnly: bool, announced: bool,
                                         messages: seq<Message>)
    ensures var shown := PassShows(w, left, profileOnly, announced, messages);
      messages <= shown && Prompts(messages) <= Prompts(shown) <= Prompts(messages) + (if announced then 0 else 1)
    decreases left.rounds
  {
    hide RoundOf, RoundShows, Prompts, Finalizing;
    if left.rounds > 0 {
      RoundSpendsOne(w, left, profileOnly);
      RoundPrompts(w, left, profileOnly, announced, messages);
      var round, shown := RoundOf(w, left, profileOnly), RoundShows(w, left, profileOnly, announced, messages);
      if !round.over {
        RoundGoesOn(w, left, profileOnly);
        AnnouncedOnce(w, round.left, profileOnly, announced || Finalizing(round.left, profileOnly), shown);
      }
    }
  }

  /** A pass that goes on was not interrupted. */
  lemma RoundGoesOn(w: World, left: Limits, profileOnly: bool)
    requires left.rounds > 0 && !RoundOf(w, left, profileOnly).over
    ensures !w.replies(Round(left)).Interrupted?
    ensures Finalizing(RoundOf(w, left, profileOnly).left, profileOnly)
       <==> Finalizing(left.(rounds := left.rounds - 1), profileOnly)
  {
    hide *;
    RoundSpendsOne(w, left, profileOnly);
    FinalizingIs(left.(rounds := left.rounds - 1), profileOnly);
    FinalizingIs(RoundOf(w, left, profileOnly).left, profileOnly);
    if w.replies(Round(left)).Interrupted? {
      NoCallsNoMore(w, left, profileOnly);
    }
  }

  lemma PrefixOfPrefix(a: seq<Message>, b: seq<Message>, c: seq<Message>)
    requires |a| <= |b| <= |c| && b[..|a|] == a && c[..|b|] == b
    ensures c[..|a|] == a && (|a| < |b| ==> c[|a|] == b[|a|])
  {
    assert c[..|b|][..|a|] == c[..|a|];
  }

  lemma RoundShowsIs(w: World, left: Limits, profileOnly: bool, announced: bool, messages: seq<Message>)
    requires left.rounds > 0
    ensures var reply, spent := w.replies(Round(left)), left.(rounds := left.rounds - 1);
      var finalizing, shown := Finalizing(spent, profileOnly), RoundShows(w, left, profileOnly, announced, messages);
      var prompted := Announced(w, messages, finalizing, announced);
      && (reply.Interrupted? ==> shown == messages)
      && (reply.ProviderError? ==> shown == prompted)
      && (reply.Streamed? ==>
            shown == WithRound(prompted, reply,
              AnswersFor(w, spent, reply.calls, finalizing, UpdateCalls(w, reply.calls), Round(left))))
  {
    hide AnswersFor, UpdateCalls, WithRound, Announced;
  }

  lemma AnnouncedAt(w: World, messages: seq<Message>, finalizing: bool, announced: bool)
    ensures var prompted := Announced(w, messages, finalizing, announced);
      && |prompted| == |messages| + (if finalizing && !announced then 1 else 0) && prompted[..|messages|] == messages
      && (finalizing && !announced ==> prompted[|messages|] == TextMessage(RoleUser, w.finalizationPrompt))
  {
  }

  lemma WithRoundAt(messages: seq<Message>, reply: Reply, answers: seq<Message>)
    requires reply.Streamed?
    ensures var n, shown := |messages|, WithRound(messages, reply, answers);
      && |shown| == n + 1 + |answers| && shown[..n] == messages
      && shown[n] == Message(RoleAssistant, reply.text, [], reply.calls, "", "", reply.reasoning)
      && forall i :: 0 <= i < |answers| ==> shown[n + 1 + i] == answers[i]
  {
  }

  datatype Job = Job(first: seq<Entry>, second: seq<Entry>, ok: bool)

  /** The agent: one pass, and unless it wins a corrective one that may only update. */
  function JobOf(w: World): Job {
    var first := PassOf(w, Untouched(), false);
    if first.ok then Job(first.log, [], true)
    else
      var second := PassOf(w, first.left, true);
      Job(first.log, second.log, second.ok)
  }

  /** The messages after a job: the corrective pass sees the first one, and is told why. */
  function JobShows(w: World, opening: seq<Message>): seq<Message> {
    var first, shown := PassOf(w, Untouched(), false), PassShows(w, Untouched(), false, false, opening);
    if first.ok then shown else PassShows(w, first.left, true, false, WithPrompt(shown, w.correctionPrompt))
  }

  /** The corrective pass is told so right behind the first pass's messages. */
  lemma CorrectionIsTold(w: World, opening: seq<Message>)
    ensures var first, shown := PassOf(w, Untouched(), false), PassShows(w, Untouched(), false, false, opening);
      && opening <= shown <= JobShows(w, opening)
      && (!first.ok ==>
            |shown| < |JobShows(w, opening)| &&
            JobShows(w, opening)[|shown|] == TextMessage(RoleUser, w.correctionPrompt))
  {
    hide PassOf, PassShows, Prompts;
    var first, shown := PassOf(w, Untouched(), false), PassShows(w, Untouched(), false, false, opening);
    AnnouncedOnce(w, Untouched(), false, false, opening);
    if !first.ok {
      AnnouncedOnce(w, first.left, true, false, WithPrompt(shown, w.correctionPrompt));
      assert WithPrompt(shown, w.correctionPrompt)[|shown|] == TextMessage(RoleUser, w.correctionPrompt);
    }
  }

  /** What the database answers before the agent starts: `fault(n)` fails the n-th lookup. */
  datatype Lookups = Lookups(hasProfile: bool, hasRequester: bool, fault: nat -> bool)

  /** Setup with its requester, project and crawl could all be loaded. */
  predicate Loads(found: Lookups) {
    !found.fault(1) && found.hasRequester && !found.fault(2) && !found.fault(3)
  }

  /** The agent runs only for a project without a profile whose lookups all succeed. */
  function BootstrapOf(w: World, found: Lookups): Job {
    if found.fault(0) then Job([], [], false)
    else if found.hasProfile then Job([], [], true)
    else if Loads(found) then JobOf(w)
    else Job([], [], false)
  }

  lemma NothingSoFar(p: PassResult)
    ensures Continued([], p) == p
  {
    NilAppend(p.log);
  }

  lemma NoRoundsLeft(w: World, left: Limits, pass: seq<Entry>, profileOnly: bool)
    requires left.rounds == 0
    ensures Continued(pass, PassOf(w, left, profileOnly)) == PassResult(left, pass, false)
  {
    AppendNil(pass);
  }

  lemma RoundRuns(w: World, left: Limits, profileOnly: bool, pass: seq<Entry>, after: Limits, added: seq<Entry>,
                  breached: bool)
    requires left.rounds > 0 && w.replies(Round(left)).Streamed? && w.replies(Round(left)).calls != []
    requires var spent, calls := left.(rounds := left.rounds - 1), w.replies(Round(left)).calls;
      (after, added) == CallsStep(w, spent, calls, Finalizing(spent, profileOnly), UpdateCalls(w, calls), Round(left))
    requires breached <==> Count(added, ABreach) > 0
    ensures var updates := UpdateCalls(w, w.replies(Round(left)).calls);
      var saved := updates == 1 && Count(added, ASave) == 1;
      RoundOf(w, left, profileOnly)
        == RoundResult(after, [Provider] + added, breached || updates > 0, !breached && saved)
    ensures pass + ([Provider] + added) == pass + [Provider] + added
  {
    hide CallsStep, UpdateCalls, Count;
    AppendAssoc(pass, [Provider], added);
  }

  /** One more round of a pass that has come this far. */
  lemma PassGoesOn(w: World, start: Limits, pass: seq<Entry>, left: Limits, profileOnly: bool)
    requires left.rounds > 0
    requires PassOf(w, start, profileOnly) == Continued(pass, PassOf(w, left, profileOnly))
    ensures var round := RoundOf(w, left, profileOnly);
      PassOf(w, start, profileOnly) ==
      if round.over then PassResult(round.left, pass + round.log, round.ok)
      else Continued(pass + round.log, PassOf(w, round.left, profileOnly))
  {
    hide RoundOf;
    var round := RoundOf(w, left, profileOnly);
    if !round.over {
      AppendAssoc(pass, round.log, PassOf(w, round.left, profileOnly).log);
    }
  }

  /** A round that brings no calls ends the pass. */
  lemma RoundStops(w: World, start: Limits, pass: seq<Entry>, left: Limits, profileOnly: bool)
    requires left.rounds > 0
    requires PassOf(w, start, profileOnly) == Continued(pass, PassOf(w, left, profileOnly))
    ensures var reply, spent := w.replies(Round(left)), left.(rounds := left.rounds - 1);
      && (reply.Interrupted? ==> PassOf(w, start, profileOnly) == PassResult(spent, pass, false))
      && (reply.ProviderError? || (reply.Streamed? && reply.calls == []) ==>
            PassOf(w, start, profileOnly) == PassResult(spent, pass + [Provider], false))
  {
    hide PassOf, CallsStep, UpdateCalls, Count;
    AppendNil(pass);
    PassGoesOn(w, start, pass, left, profileOnly);
  }

  // ---------------------------------------------------------------- one job

  class BootstrapRun {
    var roundsLeft: nat
    var pageContentReadsLeft: nat
    var contentPageURLs: set<string>
    ghost var log: seq<Entry>

    constructor ()
      ensures Valid() && log == [] && Left() == Untouched()
    {
      roundsLeft, pageContentReadsLeft, contentPageURLs := TOTAL_MAX_ROUNDS, MAX_PAGE_CONTENT_READS, {};
      log := [];
    }

    /** The budget accounts for everything that happened, and for each named page once. */
    ghost predicate Valid()
      reads this
    {
      && Count(log, AProvider) + roundsLeft <= TOTAL_MAX_ROUNDS
      && Count(log, ARead) + pageContentReadsLeft == MAX_PAGE_CONTENT_READS
      && (forall url :: url != "" ==> Count(log, APage(url)) == if url in contentPageURLs then 1 else 0)
      && ClosesResearch(log)
    }

    function Left(): Limits
      reads this
    {
      Limits(roundsLeft, pageContentReadsLeft, contentPageURLs)
    }

    /** Runs one tool call, whatever it does. */
    method Exec(w: World, call: ToolCall, url: Option<string>, round: nat, place: nat) returns (completed: bool)
      modifies this`log
      ensures completed == w.outcomes(round, place)
      ensures log == old(log) + [Ran(IsUpdateCall(w, call), url, completed)]
    {
      completed := w.outcomes(round, place);
      log := log + [Ran(IsUpdateCall(w, call), url, completed)];
    }

    /** One call of a round: refused, breaching, or run. */
    method RunCall(w: World, call: ToolCall, finalizing: bool, updates: nat, round: nat, place: nat)
      returns (completed: bool, breached: bool, ghost added: seq<Entry>)
      requires Valid() && w.updateTool != w.readTool
      requires !finalizing ==> roundsLeft >= FINAL_ROUNDS
      modifies this
      ensures Valid() && roundsLeft == old(roundsLeft) && log == old(log) + added
      ensures (Left(), added) == CallStep(w, old(Left()), call, finalizing, updates, w.outcomes(round, place))
      ensures added == [] || added == [Breach]
        || (|added| == 1 && added[0].Ran? && added[0].update == IsUpdateCall(w, call))
      ensures breached <==> added == [Breach]
      ensures breached ==> !IsUpdateCall(w, call)
      ensures completed <==> RanToCompletion(added)
      ensures IsUpdateCall(w, call) ==>
        (|added| == 1 <==> updates <= 1) && (|added| == 1 ==> added[0].completed == completed)
      ensures finalizing && !IsUpdateCall(w, call) ==> added == []
    {
      hide Count, ClosesResearch;
      breached, added := false, [];
      AppendNil(log);
      if finalizing && !IsUpdateCall(w, call) {
        return false, false, [];
      }
      if updates > 1 && IsUpdateCall(w, call) {
        return false, false, [];
      }
      var content := ContentRead(w, call);
      if content.Some? {
        if content.value != "" && content.value in contentPageURLs {
          return false, false, [];
        }
        if pageContentReadsLeft <= 0 {
          Recount(log, Breach);
          log := log + [Breach];
          return false, true, [Breach];
        }
        pageContentReadsLeft := pageContentReadsLeft - 1;
        if content.value != "" {
          contentPageURLs := contentPageURLs + {content.value};
        }
        assert contentPageURLs == old(contentPageURLs) + Named(content.value);
      }
      completed := Exec(w, call, content, round, place);
      added := [Ran(IsUpdateCall(w, call), content, completed)];
      Recount(old(log), added[0]);
    }

    /** All calls of one response, in order; each gets a result and a tool message. */
    method RunCalls(w: World, calls: seq<ToolCall>, finalizing: bool, round: nat)
      returns (results: seq<ToolResult>, answers: seq<Message>,
        breached: bool, attempted: bool, ghost added: seq<Entry>)
      requires Valid() && w.updateTool != w.readTool
      requires !finalizing ==> roundsLeft >= FINAL_ROUNDS
      modifies this
      ensures Valid() && roundsLeft == old(roundsLeft) && log == old(log) + added
      ensures (Left(), added) == CallsStep(w, old(Left()), calls, finalizing, UpdateCalls(w, calls), round)
      ensures Answers(calls, answers) && Reported(w, calls, results, breached, finalizing, added)
      ensures answers == AnswersFor(w, old(Left()), calls, finalizing, UpdateCalls(w, calls), round)
      ensures attempted <==> UpdateCalls(w, calls) > 0
    {
      hide *;
      var updates := CountUpdateCalls(w, calls);
      results, answers, breached, attempted, added := [], [], false, false, [];
      AppendNil(log);
      NothingReported(w, finalizing);
      NoCalls(w, Left(), finalizing, updates, round);
      AnswersForSnoc(w, Left(), [], ToolCall("", "", ""), finalizing, updates, round);
      TakeAll(calls);
      for i := 0 to |calls|
        invariant Valid() && roundsLeft == old(roundsLeft) && log == old(log) + added
        invariant (Left(), added) == CallsStep(w, old(Left()), calls[..i], finalizing, updates, round)
        invariant Answers(calls[..i], answers)
        invariant answers == AnswersFor(w, old(Left()), calls[..i], finalizing, updates, round)
        invariant Reports(w, calls[..i], updates, results, breached, finalizing, added)
        invariant attempted <==> UpdateCalls(w, calls[..i]) > 0
      {
        var call := calls[i];
        TakeSnoc(calls, i);
        CallsStepSnoc(w, old(Left()), calls[..i], call, finalizing, updates, round);
        AnswersForSnoc(w, old(Left()), calls[..i], call, finalizing, updates, round);
        var completed, breach, more := RunCall(w, call, finalizing, updates, round, i);
        var result := ToolResult(call.name, completed);
        ReportsSnoc(w, calls[..i], call, updates, results, result, breached, breach, finalizing, added, more);
        AnswersSnoc(calls[..i], answers, call, w.results(call, completed));
        UpdateCallsSnoc(w, calls[..i], call);
        AppendAssoc(old(log), added, more);
        results, added := results + [result], added + more;
        answers := answers + [ToolMessage(w.results(call, completed), call.id, call.name)];
        breached, attempted := breached || breach, attempted || call.name == w.updateTool;
        IsUpdateCallIs(w, call);
      }
      ReportedIs(w, calls, results, breached, finalizing, added);
    }

    /** Spends a round and asks the provider, unless the context is cancelled by then. */
    method Ask(w: World) returns (reply: Reply)
      requires Valid() && roundsLeft > 0
      modifies this`roundsLeft, this`log
      ensures Valid() && roundsLeft == old(roundsLeft) - 1 && Left() == old(Left()).(rounds := roundsLeft)
      ensures reply == w.replies(Round(old(Left())))
      ensures log == if reply.Interrupted? then old(log) else old(log) + [Provider]
    {
      hide Count, ClosesResearch;
      reply := w.replies(TOTAL_MAX_ROUNDS - roundsLeft);
      roundsLeft := roundsLeft - 1;
      if !reply.Interrupted? {
        Recount(log, Provider);
        log := log + [Provider];
      }
    }

    /** Runs a response's calls, after which the pass is over if one breached the page cap or tried
        to update. */
    method RunResponse(w: World, given: seq<Message>, so: seq<ToolResult>, reply: Reply, round: nat, profileOnly: bool,
                       ghost before: seq<Entry>, ghost start: Limits, ghost left: Limits, ghost earlier: seq<Entry>)
      returns (messages: seq<Message>, results: seq<ToolResult>, over: bool, ok: bool, ghost pass: seq<Entry>)
      requires Valid() && w.updateTool != w.readTool && log == before + (earlier + [Provider])
      requires left.rounds > 0 && Left() == left.(rounds := left.rounds - 1) && round == Round(left)
      requires reply == w.replies(round) && reply.Streamed? && reply.calls != []
      requires PassOf(w, start, profileOnly) == Continued(earlier, PassOf(w, left, profileOnly))
      requires Undecided(w, so, earlier + [Provider], profileOnly)
      modifies this
      ensures Valid() && log == before + pass && roundsLeft == old(roundsLeft)
      ensures over ==> PassEnded(pass, ok, profileOnly) && PassOf(w, start, profileOnly) == PassResult(Left(), pass, ok)
      ensures !over ==>
        && Undecided(w, results, pass, profileOnly)
        && PassOf(w, start, profileOnly) == Continued(pass, PassOf(w, Left(), profileOnly))
      ensures Paired(given) ==> Paired(messages)
      ensures RoundOf(w, left, profileOnly).left == Left() && (RoundOf(w, left, profileOnly).over <==> over)
      ensures var spent := left.(rounds := left.rounds - 1);
        messages == WithRound(given, reply, AnswersFor(w, spent, reply.calls, Finalizing(spent, profileOnly),
                                                       UpdateCalls(w, reply.calls), round))
    {
      hide *;
      LeftIs();
      FinalizingIs(Left(), profileOnly);
      var finalizing := profileOnly || roundsLeft < FINAL_ROUNDS;
      var more, answers, breached, attempted, added := RunCalls(w, reply.calls, finalizing, round);
      RoundKeepsPaired(given, reply, answers);
      AppendAssoc(before, earlier + [Provider], added);
      RoundEnds(w, start, earlier, left, Left(), profileOnly, so, more, breached, added);
      messages, results, pass := WithRound(given, reply, answers), so + more, earlier + [Provider] + added;
      var saved := UpdateSucceeded(w, results);
      over, ok := breached || attempted, !breached && saved;
    }

    /** One pass: rounds until the update succeeds, an update fails, the page cap is breached, the
        provider gives up or the rounds are spent. */
    method RunPass(w: World, given: seq<Message>, profileOnly: bool)
      returns (messages: seq<Message>, ok: bool, ghost pass: seq<Entry>)
      requires Valid() && w.updateTool != w.readTool
      modifies this
      ensures Valid() && log == old(log) + pass
      ensures PassEnded(pass, ok, profileOnly)
      ensures PassResult(Left(), pass, ok) == PassOf(w, old(Left()), profileOnly)
      ensures Paired(given) ==> Paired(messages)
      ensures messages == PassShows(w, old(Left()), profileOnly, false, given)
    {
      hide *;
      var announced := false;
      var results: seq<ToolResult> := [];
      messages, pass := given, [];
      Opening(w, profileOnly);
      AppendNil(log);
      ghost var start := Left();
      NothingSoFar(PassOf(w, start, profileOnly));
      while roundsLeft > 0
        invariant Valid() && log == old(log) + pass
        invariant Undecided(w, results, pass, profileOnly)
        invariant PassOf(w, start, profileOnly) == Continued(pass, PassOf(w, Left(), profileOnly))
        invariant Paired(given) ==> Paired(messages)
        invariant PassShows(w, start, profileOnly, false, given)
          == PassShows(w, Left(), profileOnly, announced, messages)
        decreases roundsLeft
      {
        LeftIs();
        ghost var said, shown := announced, messages;
        ghost var left, so := Left(), pass;
        RoundStops(w, start, pass, left, profileOnly);
        var round := Round(Left());
        var reply := Ask(w);
        if reply.Interrupted? {
          ShowsInterrupted(w, left, profileOnly, said, shown);
          NotSaved(w, results, pass, profileOnly);
          return messages, false, pass;
        }
        FinalizingIs(Left(), profileOnly);
        AnnouncedIs(w, shown, Finalizing(Left(), profileOnly), said);
        if (profileOnly || roundsLeft < FINAL_ROUNDS) && !announced {
          announced := true;
          PromptKeepsPaired(messages, w.finalizationPrompt);
          messages := WithPrompt(messages, w.finalizationPrompt);
        }
        Asked(w, results, old(log), pass, profileOnly);
        pass := pass + [Provider];
        if reply.ProviderError? {
          ShowsError(w, left, profileOnly, said, shown);
          NotSaved(w, results, pass, profileOnly);
          return messages, false, pass;
        }
        if |reply.calls| == 0 {
          ShowsText(w, left, profileOnly, said, shown, reply);
          NotSaved(w, results, pass, profileOnly);
          NothingAnswered();
          RoundKeepsPaired(messages, reply, []);
          return WithRound(messages, reply, []), false, pass;
        }
        ShowsRound(w, left, profileOnly, said, shown, reply);
        var over;
        messages, results, over, ok, pass :=
          RunResponse(w, messages, results, reply, round, profileOnly, old(log), start, left, so);
        if over {
          return messages, ok, pass;
        }
      }
      NotSaved(w, results, pass, profileOnly);
      LeftIs();
      NoRoundsToShow(w, Left(), profileOnly, announced, messages);
      NoRoundsLeft(w, Left(), pass, profileOnly);
      ok := false;
    }

    /** The whole job: an existing profile is kept; otherwise, once everything is loaded, one pass
        and a corrective one. */
    method RunBootstrap(w: World, opening: seq<Message>, found: Lookups)
      returns (ok: bool, messages: seq<Message>, ghost first: seq<Entry>, ghost second: seq<Entry>)
      requires Valid() && log == [] && Left() == Untouched() && w.updateTool != w.readTool
      modifies this
      ensures Job(first, second, ok) == BootstrapOf(w, found)
      ensures log == first + second && Bounded(log)
      ensures found.fault(0) || found.hasProfile || !Loads(found) ==> log == []
      ensures OnePass(first) && OnePass(second) && Count(second, AResearch) == 0
      ensures second != [] ==> !Wins(first)
      ensures ok <==> (found.hasProfile && !found.fault(0)) || Wins(first) || Wins(second)
      ensures Count(log, ASave) > 1 <==> Count(first, ASave) == 1 && Count(second, ASave) == 1
      ensures Count(log, ASave) > 1 ==> SavedAndBreached(first)
      ensures messages == if !found.fault(0) && !found.hasProfile && Loads(found) then JobShows(w, opening) else opening
    {
      hide Count, EndsThere, ClosesResearch, PassOf, PassShows, WithPrompt;
      messages, first, second := opening, [], [];
      NoPass();
      Bounds();
      if found.fault(0) {
        return false, opening, [], [];
      }
      if found.hasProfile {
        return true, opening, [], [];
      }
      if found.fault(1) || !found.hasRequester || found.fault(2) || found.fault(3) {
        return false, opening, [], [];
      }
      var saved;
      ghost var pass;
      messages, saved, pass := RunPass(w, opening, false);
      first := pass;
      NilAppend(first);
      AppendNil(first);
      SavesAreUpdates(first);
      if saved {
        Bounds();
        return true, messages, first, [];
      }
      messages := WithPrompt(messages, w.correctionPrompt);
      messages, saved, second := RunPass(w, messages, true);
      SavesAreUpdates(second);
      LogCountAppend(first, second, ASave);
      Bounds();
      SavedAndBreachedIs(first);
      ok := saved;
    }

    lemma LeftIs()
      ensures Left().rounds == roundsLeft
    {
    }

    lemma Bounds()
      requires Valid()
      ensures Bounded(log)
    {
      hide Count, ClosesResearch;
    }
  }

  // ---------------------------------------------------------------- what the job guarantees

  /** The shared budget, over both passes. */
  ghost predicate Bounded(log: seq<Entry>) {
    && Count(log, AProvider) <= TOTAL_MAX_ROUNDS
    && Count(log, ARead) <= MAX_PAGE_CONTENT_READS
    && (forall url :: url != "" ==> Count(log, APage(url)) <= 1)
    && ClosesResearch(log)
  }

  predicate OnePass(pass: seq<Entry>) {
    Count(pass, AnUpdate) <= 1 && EndsThere(pass)
  }

  predicate Wins(pass: seq<Entry>) {
    Count(pass, ASave) == 1 && Count(pass, ABreach) == 0
  }

  /** One round both completed the update and breached the page cap. */
  ghost predicate SavedAndBreached(pass: seq<Entry>) {
    exists i, j :: 0 <= i < |pass| && 0 <= j < |pass| && Is(pass[i], ASave)
      && Is(pass[j], ABreach) && SameRound(pass, i, j)
  }

  ghost predicate SameRound(pass: seq<Entry>, i: nat, j: nat) {
    forall k :: 0 <= k < |pass| && (i < k < j || j < k < i) ==> !Is(pass[k], AProvider)
  }

  lemma NoPass()
    ensures OnePass([]) && !Wins([]) && Count([], AResearch) == 0 && Count([], ASave) == 0
  {
  }

  /** A pass that saved and yet did not win breached the cap in the very round it saved. */
  lemma SavedAndBreachedIs(pass: seq<Entry>)
    requires OnePass(pass)
    ensures Count(pass, ASave) > 0 && !Wins(pass) ==> SavedAndBreached(pass)
  {
    hide Count;
    SavesAreUpdates(pass);
    if Count(pass, ASave) > 0 && !Wins(pass) {
      CountZero(pass, ASave);
      CountZero(pass, ABreach);
      var i :| 0 <= i < |pass| && Is(pass[i], ASave);
      var j :| 0 <= j < |pass| && Is(pass[j], ABreach);
      forall k | 0 <= k < |pass| && (i < k < j || j < k < i) ensures !Is(pass[k], AProvider) {
        assert Is(pass[i], AnUpdate);
      }
      assert SameRound(pass, i, j);
    }
  }

  // ---------------------------------------------------------------- one response's calls

  /** The tool messages answer the calls one for one, in order. */
  predicate Answers(calls: seq<ToolCall>, answers: seq<Message>) {
    AllTools(answers) && AnswerIds(answers) == IdsOf(calls)
  }

  /** What running these calls did, `updates` being how many of the response's calls update. */
  predicate Reports(w: World, calls: seq<ToolCall>, updates: nat, results: seq<ToolResult>,
                    breached: bool, finalizing: bool, added: seq<Entry>)
  {
    && UpdateResults(w, results) == UpdateCalls(w, calls)
    && SavedResults(w, results) == Count(added, ASave)
    && Count(added, AnUpdate) == (if updates <= 1 then UpdateCalls(w, calls) else 0)
    && (breached <==> Count(added, ABreach) > 0)
    && Count(added, AProvider) == 0
    && (finalizing ==> Count(added, AResearch) == 0)
  }

  predicate Reported(w: World, calls: seq<ToolCall>, results: seq<ToolResult>, breached: bool, finalizing: bool,
                     added: seq<Entry>)
  {
    Reports(w, calls, UpdateCalls(w, calls), results, breached, finalizing, added)
  }

  lemma ReportedIs(w: World, calls: seq<ToolCall>, results: seq<ToolResult>, breached: bool, finalizing: bool,
                   added: seq<Entry>)
    ensures Reported(w, calls, results, breached, finalizing, added)
       <==> Reports(w, calls, UpdateCalls(w, calls), results, breached, finalizing, added)
  {
  }

  lemma NothingReported(w: World, finalizing: bool)
    ensures Answers([], []) && UpdateCalls(w, []) == 0
    ensures forall updates: nat :: Reports(w, [], updates, [], false, finalizing, [])
  {
  }

  lemma UpdateCallsSnoc(w: World, calls: seq<ToolCall>, call: ToolCall)
    ensures UpdateCalls(w, calls + [call]) == UpdateCalls(w, calls) + (if IsUpdateCall(w, call) then 1 else 0)
  {
    LastOf(calls, call);
  }

  lemma IsUpdateCallIs(w: World, call: ToolCall)
    ensures IsUpdateCall(w, call) <==> call.name == w.updateTool
  {
  }

  lemma AnswersSnoc(calls: seq<ToolCall>, answers: seq<Message>, call: ToolCall, content: string)
    requires Answers(calls, answers)
    ensures Answers(calls + [call], answers + [ToolMessage(content, call.id, call.name)])
  {
    AnswerIdsAppend(answers, [ToolMessage(content, call.id, call.name)]);
    OneAnswer(ToolMessage(content, call.id, call.name));
    LastOf(calls, call);
  }

  lemma ReportsSnoc(w: World, calls: seq<ToolCall>, call: ToolCall, updates: nat, results: seq<ToolResult>,
                    result: ToolResult,
                    breached: bool, breach: bool, finalizing: bool, added: seq<Entry>, more: seq<Entry>)
    requires Reports(w, calls, updates, results, breached, finalizing, added) && result.name == call.name
    requires more == [] || more == [Breach] || (|more| == 1 && more[0].Ran? && more[0].update == IsUpdateCall(w, call))
    requires breach <==> more == [Breach]
    requires breach ==> !IsUpdateCall(w, call)
    requires IsUpdateCall(w, call) ==>
      (|more| == 1 <==> updates <= 1) && (|more| == 1 ==> more[0].completed == result.completed)
    requires result.completed <==> RanToCompletion(more)
    requires finalizing && !IsUpdateCall(w, call) ==> more == []
    ensures Reports(w, calls + [call], updates, results + [result], breached || breach, finalizing, added + more)
  {
    LastOf(results, result);
    UpdateCallsSnoc(w, calls, call);
    hide Count, UpdateCalls;
    if more == [] {
      AppendNil(added);
    } else {
      assert more == [more[0]];
      Recount(added, more[0]);
    }
  }

  // ---------------------------------------------------------------- one pass

  /** At most one update ran, the provider was not asked again after it or after a breach, and the
      pass is ok exactly when the update completed without a breach. */
  predicate PassEnded(pass: seq<Entry>, ok: bool, profileOnly: bool) {
    && Count(pass, AnUpdate) <= 1 && EndsThere(pass)
    && (ok <==> Count(pass, ASave) == 1 && Count(pass, ABreach) == 0)
    && (profileOnly ==> Count(pass, AResearch) == 0)
  }

  /** While the pass goes on, no update was tried and no cap breached. */
  predicate Undecided(w: World, results: seq<ToolResult>, pass: seq<Entry>, profileOnly: bool) {
    && UpdateResults(w, results) == 0 && SavedResults(w, results) == 0
    && Count(pass, AnUpdate) == 0 && Count(pass, ASave) == 0 && Count(pass, ABreach) == 0
    && (profileOnly ==> Count(pass, AResearch) == 0)
  }

  lemma Opening(w: World, profileOnly: bool)
    ensures Undecided(w, [], [], profileOnly)
  {
  }

  lemma NotSaved(w: World, results: seq<ToolResult>, pass: seq<Entry>, profileOnly: bool)
    requires Undecided(w, results, pass, profileOnly)
    ensures PassEnded(pass, false, profileOnly)
  {
    hide Count;
    CountZero(pass, AnUpdate);
    CountZero(pass, ABreach);
  }

  lemma Asked(w: World, results: seq<ToolResult>, before: seq<Entry>, pass: seq<Entry>, profileOnly: bool)
    requires Undecided(w, results, pass, profileOnly)
    ensures Undecided(w, results, pass + [Provider], profileOnly)
    ensures before + pass + [Provider] == before + (pass + [Provider])
  {
    hide Count;
    Recount(pass, Provider);
  }

  /** After a round the pass is over unless nothing was decided in it. */
  lemma RoundDecides(w: World, results: seq<ToolResult>, pass: seq<Entry>, profileOnly: bool, calls: seq<ToolCall>,
                     more: seq<ToolResult>, breached: bool, finalizing: bool, added: seq<Entry>)
    requires Undecided(w, results, pass, profileOnly)
    requires Reported(w, calls, more, breached, finalizing, added) && (profileOnly ==> finalizing)
    ensures var all := pass + added;
      var saved := UpdateResults(w, results + more) == 1 && SavedResults(w, results + more) == 1;
      && Count(all, AnUpdate) <= 1 && EndsThere(all)
      && (profileOnly ==> Count(all, AResearch) == 0)
      && (saved <==> Count(all, ASave) == 1)
      && (saved <==> UpdateCalls(w, calls) == 1 && Count(added, ASave) == 1)
      && (breached <==> Count(added, ABreach) > 0)
      && (breached <==> Count(all, ABreach) != 0)
      && (!breached && UpdateCalls(w, calls) == 0 ==> Undecided(w, results + more, all, profileOnly) && !saved)
  {
    hide Count, UpdateResults, SavedResults, UpdateCalls, EndsThere;
    ResultsAppend(w, results, more);
    LogCountAppend(pass, added, AnUpdate);
    LogCountAppend(pass, added, ASave);
    LogCountAppend(pass, added, ABreach);
    LogCountAppend(pass, added, AResearch);
    SavesAreUpdates(added);
    EndsAppend(pass, added);
  }

  /** A round whose calls ran ends the pass, or leaves it as undecided as before. */
  lemma RoundEnds(w: World, start: Limits, so: seq<Entry>, left: Limits, after: Limits, profileOnly: bool,
                  results: seq<ToolResult>, more: seq<ToolResult>, breached: bool, added: seq<Entry>)
    requires left.rounds > 0 && w.replies(Round(left)).Streamed? && w.replies(Round(left)).calls != []
    requires PassOf(w, start, profileOnly) == Continued(so, PassOf(w, left, profileOnly))
    requires Undecided(w, results, so + [Provider], profileOnly)
    requires var calls, spent := w.replies(Round(left)).calls, left.(rounds := left.rounds - 1);
      var finalizing := profileOnly || spent.rounds < FINAL_ROUNDS;
      && (after, added) == CallsStep(w, spent, calls, finalizing, UpdateCalls(w, calls), Round(left))
      && Reported(w, calls, more, breached, finalizing, added)
    ensures var all := so + [Provider] + added;
      var saved := UpdateResults(w, results + more) == 1 && SavedResults(w, results + more) == 1;
      if breached || UpdateCalls(w, w.replies(Round(left)).calls) > 0 then
        && PassEnded(all, !breached && saved, profileOnly)
        && PassOf(w, start, profileOnly) == PassResult(after, all, !breached && saved)
      else
        && !saved && Undecided(w, results + more, all, profileOnly)
        && PassOf(w, start, profileOnly) == Continued(all, PassOf(w, after, profileOnly))
    ensures var round := RoundOf(w, left, profileOnly);
      round.left == after && (round.over <==> breached || UpdateCalls(w, w.replies(Round(left)).calls) > 0)
  {
    hide PassOf, RoundOf, CallsStep, UpdateCalls, Count, Reported, Undecided, EndsThere, UpdateResults, SavedResults;
    var calls, spent := w.replies(Round(left)).calls, left.(rounds := left.rounds - 1);
    PassGoesOn(w, start, so, left, profileOnly);
    var finalizing := Finalizing(spent, profileOnly);
    RoundDecides(w, results, so + [Provider], profileOnly, calls, more, breached, finalizing, added);
    RoundRuns(w, left, profileOnly, so, after, added, breached);
  }

  lemma {:induction false} SavesAreUpdates(log: seq<Entry>)
    ensures Count(log, ASave) <= Count(log, AnUpdate)
  {
    if log != [] {
      SavesAreUpdates(log[..|log| - 1]);
    }
  }

  lemma EndsAppend(pass: seq<Entry>, added: seq<Entry>)
    requires Count(pass, AnUpdate) == 0 && Count(pass, ABreach) == 0 && Count(added, AProvider) == 0
    ensures EndsThere(pass + added)
  {
    hide Count;
    CountZero(pass, AnUpdate);
    CountZero(pass, ABreach);
    CountZero(added, AProvider);
  }

  lemma {:induction false} ResultsAppend(w: World, a: seq<ToolResult>, b: seq<ToolResult>)
    ensures UpdateResults(w, a + b) == UpdateResults(w, a) + UpdateResults(w, b)
    ensures SavedResults(w, a + b) == SavedResults(w, a) + SavedResults(w, b)
  {
    if b == [] {
      AppendNil(a);
    } else {
      var b', last := b[..|b| - 1], b[|b| - 1];
      AppendAssoc(a, b', [last]);
      LastOf(a + b', last);
      ResultsAppend(w, a, b');
      assert b == b' + [last];
    }
  }

  lemma PromptKeepsPaired(messages: seq<Message>, prompt: string)
    ensures Paired(messages) ==> Paired(WithPrompt(messages, prompt))
  {
    var m := TextMessage(RoleUser, prompt);
    PairedPlain(m);
    if Paired(messages) {
      PairedAppend(messages, [m], multiset{});
    }
  }

  lemma RoundKeepsPaired(messages: seq<Message>, reply: Reply, answers: seq<Message>)
    requires reply.Streamed? && Answers(reply.calls, answers)
    ensures Paired(messages) ==> Paired(WithRound(messages, reply, answers))
  {
    var assistant := TextMessage(RoleAssistant, reply.text).(toolCalls := reply.calls, reasoning := reply.reasoning);
    PairedBlock(assistant, answers);
    if Paired(messages) {
      PairedAppend(messages, [assistant] + answers, multiset{});
    }
  }

  lemma NothingAnswered()
    ensures Answers([], [])
  {
  }

  lemma Recount(log: seq<Entry>, e: Entry)
    ensures forall kind :: Count(log + [e], kind) == Count(log, kind) + (if Is(e, kind) then 1 else 0)
    ensures ClosesResearch(log) && (Is(e, AResearch) ==> Count(log, AProvider) <= TOTAL_MAX_ROUNDS - FINAL_ROUNDS) ==>
      ClosesResearch(log + [e])
  {
    forall kind ensures Count(log + [e], kind) == Count(log, kind) + (if Is(e, kind) then 1 else 0) {
      CountSnoc(log, e, kind);
    }
    if ClosesResearch(log) && (Is(e, AResearch) ==> Count(log, AProvider) <= TOTAL_MAX_ROUNDS - FINAL_ROUNDS) {
      ClosesSnoc(log, e);
    }
  }
}
