/** Provider messages and the prompt-token estimate (internal/ai). */
module Chat {
  import opened Text

  datatype Role = RoleSystem | RoleUser | RoleAssistant | RoleTool | RoleOther(name: string)

  datatype Image = Image(mediaType: string, data: string)

  datatype ToolCall = ToolCall(id: string, name: string, args: string)

  datatype ToolDef = ToolDef(name: string, description: string, schema: string)

  datatype Message = Message(
    role: Role,
    content: string,
    images: seq<Image>,
    toolCalls: seq<ToolCall>,
    toolCallId: string,
    name: string,
    reasoning: string)

  datatype Request = Request(model: string, effort: string, messages: seq<Message>, tools: seq<ToolDef>)

  function TextMessage(role: Role, content: string): Message {
    Message(role, content, [], [], "", "", "")
  }

  function ToolMessage(content: string, callId: string, name: string): Message {
    Message(RoleTool, content, [], [], callId, name, "")
  }

  // ---------------------------------------------------------------- capacity

  const CHAT_MAX_OUTPUT_TOKENS := 16384
  const MILLION_CONTEXT_TOKENS := 1_000_000
  const LEGACY_CONTEXT_TOKENS := 128_000
  const DEFAULT_MODEL := "deepseek-flash"

  const MILLION_CONTEXT_MODELS: set<string> :=
    {"deepseek-flash", "deepseek-v4-flash", "deepseek-v4-flash-vision-exp", "deepseek-v4-pro"}

  function ChatContextCapacity(model: string): int {
    var trimmed := TrimSpace(model);
    var resolved := if trimmed == "" then DEFAULT_MODEL else trimmed;
    if resolved in MILLION_CONTEXT_MODELS then MILLION_CONTEXT_TOKENS else LEGACY_CONTEXT_TOKENS
  }

  /** Tokens a request may occupy: the window less the reserved output. */
  function InputBudget(model: string): int {
    ChatContextCapacity(model) - CHAT_MAX_OUTPUT_TOKENS
  }

  predicate ReplaysReasoning(request: Request) {
    |request.tools| > 0 && request.effort != "none"
  }

  // ---------------------------------------------------------------- the estimate as a sum

  const MESSAGE_FRAMING := 4
  const TOOL_CALL_FRAMING := 8
  const TOOL_RESULT_FRAMING := 6
  const TOOL_DEF_FRAMING := 10
  const IMAGE_MAX_TOKENS := 1024

  predicate IsASCIIWordRune(c: char) {
    'a' <= c <= 'z' || 'A' <= c <= 'Z' || '0' <= c <= '9' || c == '_'
  }

  /** Weight of one rune in quarter tokens: 0.25, 0.5 or 1.5 of a token. */
  function RuneQuarters(c: char): nat {
    if IsASCIIWordRune(c) then 1 else if c as int <= 0x7F then 2 else 6
  }

  function TextQuarters(text: string): nat {
    if text == [] then 0 else TextQuarters(text[..|text| - 1]) + RuneQuarters(text[|text| - 1])
  }

  /** A string's tokens: its weight rounded up to whole tokens. */
  function TextTokens(text: string): nat {
    (TextQuarters(text) + 3) / 4
  }

  function CallTokens(call: ToolCall): nat {
    TOOL_CALL_FRAMING + TextTokens(call.id) + TextTokens(call.name) + TextTokens(call.args)
  }

  function CallsTokens(calls: seq<ToolCall>): nat {
    if calls == [] then 0 else CallsTokens(calls[..|calls| - 1]) + CallTokens(calls[|calls| - 1])
  }

  function MessageTokens(m: Message, replay: bool): nat {
    MESSAGE_FRAMING + TextTokens(m.content) +
    (match m.role
     case RoleAssistant =>
       (if replay && m.reasoning != "" then TextTokens(m.reasoning) else 0) + CallsTokens(m.toolCalls)
     case RoleTool =>
       if m.toolCallId != "" then TOOL_RESULT_FRAMING + TextTokens(m.toolCallId) else 0
     case RoleSystem => 0
     case _ => IMAGE_MAX_TOKENS * |m.images|)
  }

  function MessagesTokens(messages: seq<Message>, replay: bool): nat {
    if messages == [] then 0
    else MessagesTokens(messages[..|messages| - 1], replay) + MessageTokens(messages[|messages| - 1], replay)
  }

  function ToolDefsTokens(tools: seq<ToolDef>): nat {
    if tools == [] then 0
    else
      var tool := tools[|tools| - 1];
      ToolDefsTokens(tools[..|tools| - 1]) +
      TOOL_DEF_FRAMING + TextTokens(tool.name) + TextTokens(tool.description) + TextTokens(tool.schema)
  }

  /** What the estimator computes, as one sum over the request's parts. */
  function RequestTokens(request: Request): nat {
    MessagesTokens(request.messages, ReplaysReasoning(request)) + ToolDefsTokens(request.tools)
  }

  // ---------------------------------------------------------------- the estimator's loops

  method EstimateTextTokens(text: string) returns (tokens: nat)
    ensures tokens == TextTokens(text)
  {
    var quarters := 0;
    for i := 0 to |text|
      invariant quarters == TextQuarters(text[..i])
    {
      assert text[..i + 1][..i] == text[..i];
      if IsASCIIWordRune(text[i]) {
        quarters := quarters + 1;
      } else if text[i] as int <= 0x7F {
        quarters := quarters + 2;
      } else {
        quarters := quarters + 6;
      }
    }
    assert text[..|text|] == text;
    tokens := (quarters + 3) / 4;
  }

  method EstimateChatInputTokens(request: Request) returns (tokens: nat)
    ensures tokens == RequestTokens(request)
  {
    hide TextTokens, TextQuarters, ReplaysReasoning;
    var replay := ReplaysReasoning(request);
    var ms := request.messages;
    tokens := 0;
    for i := 0 to |ms|
      invariant tokens == MessagesTokens(ms[..i], replay)
    {
      assert ms[..i + 1][..i] == ms[..i];
      var m := ms[i];
      tokens := tokens + MESSAGE_FRAMING;
      var t := EstimateTextTokens(m.content);
      tokens := tokens + t;
      if m.role == RoleAssistant && replay && m.reasoning != "" {
        t := EstimateTextTokens(m.reasoning);
        tokens := tokens + t;
      }
      if m.role == RoleAssistant {
        var start := tokens;
        for j := 0 to |m.toolCalls|
          invariant tokens == start + CallsTokens(m.toolCalls[..j])
        {
          assert m.toolCalls[..j + 1][..j] == m.toolCalls[..j];
          var id := EstimateTextTokens(m.toolCalls[j].id);
          var name := EstimateTextTokens(m.toolCalls[j].name);
          var args := EstimateTextTokens(m.toolCalls[j].args);
          tokens := tokens + TOOL_CALL_FRAMING + id + name + args;
        }
        assert m.toolCalls[..|m.toolCalls|] == m.toolCalls;
      }
      if m.role == RoleTool && m.toolCallId != "" {
        t := EstimateTextTokens(m.toolCallId);
        tokens := tokens + TOOL_RESULT_FRAMING + t;
      }
      if m.role != RoleSystem && m.role != RoleAssistant && m.role != RoleTool {
        tokens := tokens + IMAGE_MAX_TOKENS * |m.images|;
      }
    }
    assert ms[..|ms|] == ms;
    var tools := request.tools;
    var messageTotal := tokens;
    for i := 0 to |tools|
      invariant tokens == messageTotal + ToolDefsTokens(tools[..i])
    {
      assert tools[..i + 1][..i] == tools[..i];
      var name := EstimateTextTokens(tools[i].name);
      var description := EstimateTextTokens(tools[i].description);
      var schema := EstimateTextTokens(tools[i].schema);
      tokens := tokens + TOOL_DEF_FRAMING + name + description + schema;
    }
    assert tools[..|tools|] == tools;
  }

  // ---------------------------------------------------------------- laws of the estimate

  lemma {:induction false} TextQuartersAppend(a: string, b: string)
    ensures TextQuarters(a + b) == TextQuarters(a) + TextQuarters(b)
  {
    if b == [] {
      assert a + b == a;
    } else {
      assert (a + b)[..|a + b| - 1] == a + b[..|b| - 1];
      TextQuartersAppend(a, b[..|b| - 1]);
    }
  }

  /** Rounding is per string: joining two strings never costs more than keeping them
      apart, saves at most one token, and never costs less than either part. */
  lemma TextTokensAppend(a: string, b: string)
    ensures TextTokens(a) + TextTokens(b) - 1 <= TextTokens(a + b) <= TextTokens(a) + TextTokens(b)
    ensures TextTokens(a) <= TextTokens(a + b) && TextTokens(b) <= TextTokens(a + b)
  {
    TextQuartersAppend(a, b);
  }

  /** The documented range: four characters to a token at best, 1.5 tokens a character at worst. */
  lemma {:induction false} TextTokensRange(text: string)
    ensures |text| <= TextQuarters(text) <= 6 * |text|
    ensures |text| <= 4 * TextTokens(text) <= 6 * |text| + 3
  {
    if text != [] {
      TextTokensRange(text[..|text| - 1]);
    }
  }

  /** Messages are charged independently, so an estimate is exact over concatenation. */
  lemma {:induction false} MessagesTokensAppend(a: seq<Message>, b: seq<Message>, replay: bool)
    ensures MessagesTokens(a + b, replay) == MessagesTokens(a, replay) + MessagesTokens(b, replay)
  {
    if b == [] {
      assert a + b == a;
    } else {
      assert (a + b)[..|a + b| - 1] == a + b[..|b| - 1];
      MessagesTokensAppend(a, b[..|b| - 1], replay);
    }
  }

  lemma MessagesTokensOne(m: Message, replay: bool)
    ensures MessagesTokens([m], replay) == MessageTokens(m, replay)
  {
    assert [m][..0] == [];
    assert MessagesTokens([m][..0], replay) == 0;
  }

  /** Tokens of a text of one kind of character: four word characters to a token, two other ASCII
      ones, and one and a half tokens for each of the rest, always rounded up. */
  lemma {:induction false} OneKindOfText(text: string, c: char)
    requires forall i :: 0 <= i < |text| ==> text[i] == c
    ensures var n, code := |text|, c as int;
      var word := 48 <= code <= 57 || 65 <= code <= 90 || 97 <= code <= 122 || code == 95;
      && TextQuarters(text) == n * (if word then 1 else if code < 128 then 2 else 6)
      && (word ==> n <= 4 * TextTokens(text) < n + 4)
      && (!word && code < 128 ==> n <= 2 * TextTokens(text) < n + 2)
      && (code >= 128 ==> 3 * n <= 2 * TextTokens(text) < 3 * n + 2)
  {
    if text != [] {
      OneKindOfText(text[..|text| - 1], c);
    }
  }

  /** What each part of a message adds to its price: calls to an assistant's message and images to a
      user's, reasoning only where it is replayed, the call id of a result; names cost nothing. */
  lemma PartsOfMessage(m: Message, call: ToolCall, image: Image, replay: bool)
    ensures var more := m.(toolCalls := m.toolCalls + [call]);
      MessageTokens(more, replay) - MessageTokens(m, replay) ==
      if m.role.RoleAssistant? then 8 + TextTokens(call.id) + TextTokens(call.name) + TextTokens(call.args) else 0
    ensures var more := m.(images := m.images + [image]);
      MessageTokens(more, replay) - MessageTokens(m, replay) ==
      if m.role.RoleUser? || m.role.RoleOther? then 1024 else 0
    ensures MessageTokens(m, replay) - MessageTokens(m.(reasoning := ""), replay) ==
      if m.role.RoleAssistant? && replay then TextTokens(m.reasoning) else 0
    ensures MessageTokens(m, replay) - MessageTokens(m.(toolCallId := ""), replay) ==
      if m.role.RoleTool? && m.toolCallId != "" then 6 + TextTokens(m.toolCallId) else 0
    ensures MessageTokens(m.(name := ""), replay) == MessageTokens(m, replay)
    ensures MessageTokens(TextMessage(m.role, m.content), replay) == 4 + TextTokens(m.content)
  {
    assert (m.toolCalls + [call])[..|m.toolCalls|] == m.toolCalls;
    EmptyCosts();
    hide TextTokens;
  }

  lemma EmptyCosts()
    ensures TextTokens("") == 0
  {
  }

  /** A request costs its messages and tool definitions; reasoning is replayed exactly when it has
      tools and an effort. */
  lemma PartsOfRequest(request: Request, m: Message, tool: ToolDef)
    ensures RequestTokens(request.(messages := request.messages + [m])) ==
      RequestTokens(request) + MessageTokens(m, request.tools != [] && request.effort != "none")
    ensures request.tools != [] ==>
      RequestTokens(request.(tools := request.tools + [tool])) ==
      RequestTokens(request) + 10 + TextTokens(tool.name) + TextTokens(tool.description) + TextTokens(tool.schema)
    ensures RequestTokens(Request(request.model, request.effort, [], [])) == 0
  {
    hide MessageTokens, TextTokens;
    MessagesTokensAppend(request.messages, [m], ReplaysReasoning(request));
    MessagesTokensOne(m, ReplaysReasoning(request));
    assert (request.tools + [tool])[..|request.tools|] == request.tools;
  }

  /** The input budget of a model, whatever white space surrounds its name. */
  lemma InputBudgetIs(model: string)
    ensures var known := {"", "deepseek-flash", "deepseek-v4-flash", "deepseek-v4-flash-vision-exp", "deepseek-v4-pro"};
      InputBudget(model) == if TrimSpace(model) in known then 983_616 else 111_616
  {
    hide TrimSpace;
  }
}
