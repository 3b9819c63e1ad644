/** The provider-usage tracker of the chat loop (internal/aichatworker/worker_context.go). */
module ContextTracker {
  import opened Chat
  import opened Seqs

  /** A live message as the loop holds it: its tool calls are a shared, mutable slice. */
  datatype LiveMessage = LiveMessage(
    role: Role, content: string, images: seq<Image>, toolCalls: array<ToolCall>,
    toolCallId: string, name: string, reasoning: string)

  function View(m: LiveMessage): Message
    reads m.toolCalls
  {
    Message(m.role, m.content, m.images, m.toolCalls[..], m.toolCallId, m.name, m.reasoning)
  }

  function Views(ms: seq<LiveMessage>): (vs: seq<Message>)
    reads set m | m in ms :: m.toolCalls
    ensures |vs| == |ms| && forall i :: 0 <= i < |ms| ==> vs[i] == View(ms[i])
  {
    if ms == [] then [] else Views(ms[..|ms| - 1]) + [View(ms[|ms| - 1])]
  }

  // ---------------------------------------------------------------- the part usage already covers

  function BlankCall(call: ToolCall): ToolCall {
    call.(args := "")
  }

  function BlankCalls(calls: seq<ToolCall>): (r: seq<ToolCall>)
    ensures |r| == |calls| && forall j :: 0 <= j < |calls| ==> r[j] == BlankCall(calls[j])
  {
    if calls == [] then [] else BlankCalls(calls[..|calls| - 1]) + [BlankCall(calls[|calls| - 1])]
  }

  /** An assistant message without what its completion usage already counted. */
  function Blanked(m: Message): Message {
    if m.role.RoleAssistant? then m.(content := "", reasoning := "", toolCalls := BlankCalls(m.toolCalls)) else m
  }

  function BlankedAll(ms: seq<Message>): (r: seq<Message>)
    ensures |r| == |ms| && forall i :: 0 <= i < |ms| ==> r[i] == Blanked(ms[i])
  {
    if ms == [] then [] else BlankedAll(ms[..|ms| - 1]) + [Blanked(ms[|ms| - 1])]
  }

  function ArgsTokens(calls: seq<ToolCall>): nat {
    if calls == [] then 0 else ArgsTokens(calls[..|calls| - 1]) + TextTokens(calls[|calls| - 1].args)
  }

  /** What blanking removes: the assistant's text, replayed reasoning and call arguments. */
  function Output(m: Message, replay: bool): nat {
    if m.role.RoleAssistant? then
      TextTokens(m.content) + (if replay && m.reasoning != "" then TextTokens(m.reasoning) else 0) +
        ArgsTokens(m.toolCalls)
    else 0
  }

  function Outputs(ms: seq<Message>, replay: bool): nat {
    if ms == [] then 0 else Outputs(ms[..|ms| - 1], replay) + Output(ms[|ms| - 1], replay)
  }

  lemma {:induction false} BlankCallsTokens(calls: seq<ToolCall>)
    ensures CallsTokens(calls) == CallsTokens(BlankCalls(calls)) + ArgsTokens(calls)
  {
    hide TextTokens;
    if calls != [] {
      var earlier, call := calls[..|calls| - 1], calls[|calls| - 1];
      BlankCallsTokens(earlier);
      LastOf(BlankCalls(earlier), BlankCall(call));
      EmptyText();
    }
  }

  lemma EmptyText()
    ensures TextTokens("") == 0
  {
  }

  lemma BlankedTokens(m: Message, replay: bool)
    ensures MessageTokens(m, replay) == MessageTokens(Blanked(m), false) + Output(m, replay)
  {
    hide TextTokens, CallsTokens, ArgsTokens;
    EmptyText();
    BlankCallsTokens(m.toolCalls);
  }

  lemma {:induction false} BlankedAllTokens(ms: seq<Message>, replay: bool)
    ensures MessagesTokens(ms, replay) == MessagesTokens(BlankedAll(ms), false) + Outputs(ms, replay)
  {
    hide MessageTokens, Output, Blanked;
    if ms != [] {
      var earlier, m := ms[..|ms| - 1], ms[|ms| - 1];
      BlankedAllTokens(earlier, replay);
      BlankedTokens(m, replay);
      LastOf(BlankedAll(earlier), Blanked(m));
    }
  }

  // ---------------------------------------------------------------- the tracker

  class ChatContextTracker {
    var prompt: int
    var completion: int
    var haveLast: bool
    var hasTools: bool
    var effort: string
    var liveLen: nat

    constructor ()
      ensures !haveLast
    {
      prompt, completion, haveLast, hasTools, effort, liveLen := 0, 0, false, false, "", 0;
    }

    method NoteSent(tools: bool, effort: string, liveLen: nat)
      modifies this
      ensures !haveLast && hasTools == tools && this.effort == effort && this.liveLen == liveLen
      ensures prompt == old(prompt) && completion == old(completion)
    {
      haveLast, hasTools := false, tools;
      this.effort := effort;
      this.liveLen := liveLen;
    }

    method NoteUsage(prompt: int, completion: int)
      modifies this`prompt, this`completion, this`haveLast
      ensures this.prompt == prompt && this.completion == completion
      ensures haveLast <==> prompt > 0 && completion >= 0
    {
      this.prompt, this.completion := prompt, completion;
      haveLast := prompt > 0 && completion >= 0;
    }

    /** The last usage is extended to a request with tools exactly if the last one had some, with
        the same effort, and with no fewer messages; anything else is estimated in full. It writes
        nothing that existed before, neither `live` nor any shared call slice. */
    method InputTokens(request: Request, live: array<LiveMessage>) returns (tokens: int)
      ensures tokens ==
        if haveLast && (request.tools != [] <==> hasTools) && request.effort == effort && live.Length >= liveLen then
          prompt + completion + MessagesTokens(BlankedAll(Views(live[liveLen..])), false)
        else RequestTokens(request)
    {
      hide MessagesTokens, BlankedAll, Views, RequestTokens;
      if haveLast && (|request.tools| > 0 <==> hasTools) && request.effort == effort && live.Length >= liveLen {
        var estimate := EstimateAppended(live, liveLen, Views(live[liveLen..]));
        return prompt + completion + estimate;
      }
      tokens := EstimateChatInputTokens(request);
    }
  }

  method EstimateAppended(live: array<LiveMessage>, from: nat, ghost was: seq<Message>) returns (tokens: int)
    requires from <= live.Length && was == Views(live[from..])
    ensures tokens == MessagesTokens(BlankedAll(was), false)
  {
    hide MessagesTokens, BlankedAll, RequestTokens, Views;
    var appended := BlankAppended(live, from, was);
    var blanked := Views(appended[..]);
    NoTools(blanked);
    tokens := EstimateChatInputTokens(Request("", "", blanked, []));
  }

  lemma NoTools(ms: seq<Message>)
    ensures RequestTokens(Request("", "", ms, [])) == MessagesTokens(ms, false)
  {
  }

  method BlankCopy(source: array<ToolCall>) returns (calls: array<ToolCall>)
    ensures fresh(calls) && calls[..] == BlankCalls(source[..])
  {
    calls := new ToolCall[source.Length](k requires 0 <= k < source.Length reads source => source[k]);
    for k := 0 to calls.Length
      modifies calls
      invariant forall l :: 0 <= l < k ==> calls[l] == BlankCall(source[l])
      invariant forall l :: k <= l < calls.Length ==> calls[l] == source[l]
    {
      calls[k] := calls[k].(args := "");
    }
  }

  /** Blanks a copy; the calls of `m` stay as they are. */
  method BlankMessage(m: LiveMessage) returns (blanked: LiveMessage)
    ensures View(blanked) == Blanked(View(m))
  {
    if m.role != RoleAssistant {
      return m;
    }
    var calls := BlankCopy(m.toolCalls);
    blanked := m.(content := "", reasoning := "", toolCalls := calls);
  }

  /** Copies the appended messages and blanks the copies in place. */
  method BlankAppended(live: array<LiveMessage>, from: nat, ghost was: seq<Message>)
    returns (appended: array<LiveMessage>)
    requires from <= live.Length && was == Views(live[from..])
    ensures fresh(appended) && Views(appended[..]) == BlankedAll(was)
  {
    hide Views, BlankedAll, Blanked;
    var n := live.Length - from;
    appended := new LiveMessage[n](i requires 0 <= i < n reads live => live[from + i]);
    for i := 0 to n
      invariant fresh(appended) && appended.Length == n
      invariant forall j :: 0 <= j < i ==> View(appended[j]) == Blanked(was[j])
      invariant forall j :: 0 <= j < n ==> allocated(appended[j].toolCalls)
      invariant forall j :: i <= j < n ==> appended[j] == live[from + j] && View(appended[j]) == was[j]
    {
      var blanked := BlankMessage(appended[i]);
      appended[i] := blanked;
    }
  }

  /** With `live` as the request's messages, reuse is off the full estimate by exactly the
      usage's own surplus: prompt tokens over the estimate of what was sent, and completion
      tokens over the estimate of the assistant output appended since. */
  lemma ReuseIsExact(request: Request, sent: nat, prompt: int, completion: int)
    requires sent <= |request.messages|
    ensures var live := request.messages;
      var replay := ReplaysReasoning(request);
      prompt + completion + MessagesTokens(BlankedAll(live[sent..]), false)
      == RequestTokens(request) +
         (prompt - RequestTokens(request.(messages := live[..sent]))) +
         (completion - Outputs(live[sent..], replay))
  {
    hide MessagesTokens, BlankedAll, Outputs;
    var live := request.messages;
    var replay := ReplaysReasoning(request);
    assert live == live[..sent] + live[sent..];
    MessagesTokensAppend(live[..sent], live[sent..], replay);
    BlankedAllTokens(live[sent..], replay);
  }

  /** So the tracker never reports too little exactly when the usage covers both estimates
      together, which it does when it covers each. */
  lemma ReuseNeverUnderestimates(request: Request, sent: nat, prompt: int, completion: int)
    requires sent <= |request.messages|
    ensures var needPrompt := RequestTokens(request.(messages := request.messages[..sent]));
      var needCompletion := Outputs(request.messages[sent..], ReplaysReasoning(request));
      var reported := prompt + completion + MessagesTokens(BlankedAll(request.messages[sent..]), false);
      && (reported >= RequestTokens(request) <==> prompt + completion >= needPrompt + needCompletion)
      && (prompt >= needPrompt && completion >= needCompletion ==> reported >= RequestTokens(request))
  {
    ReuseIsExact(request, sent, prompt, completion);
  }
}
