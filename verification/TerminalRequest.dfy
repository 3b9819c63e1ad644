/** The last, tool-less request of a turn (internal/aichatworker/worker_context.go). */
module TerminalRequest {
  import opened Chat
  import opened Seqs
  import opened Transcript

  /** The progress prompt, the placeholder for an unrecorded outcome, and the stub text made
      from a tool's name and recorded outcome. */
  datatype StubWording = StubWording(prompt: string, unknown: string, stub: (string, string) -> string)

  function Outcome(m: Message, rundown: map<string, string>, words: StubWording): string {
    var recorded := if m.toolCallId in rundown then rundown[m.toolCallId] else "";
    if recorded == "" then words.unknown else recorded
  }

  function Stubbed(m: Message, rundown: map<string, string>, words: StubWording): Message {
    if m.role.RoleTool? then m.(content := words.stub(m.name, Outcome(m, rundown, words))) else m
  }

  /** All of ms, with the tool results among the first i messages replaced by stubs. */
  function StubUpTo(ms: seq<Message>, i: nat, rundown: map<string, string>, words: StubWording): (r: seq<Message>)
    requires i <= |ms|
    ensures |r| == |ms|
    ensures forall j :: 0 <= j < |ms| ==> r[j] == if j < i then Stubbed(ms[j], rundown, words) else ms[j]
  {
    if i == 0 then ms
    else StubUpTo(ms, i - 1, rundown, words)[i - 1 := Stubbed(ms[i - 1], rundown, words)]
  }

  function Cost(ms: seq<Message>): nat {
    RequestTokens(Request("", "", ms, []))
  }

  /** The simple form: the least number of leading messages, from i on, whose stubbing makes the
      request fit; |ms| + 1 when none does. */
  function LeastFit(ms: seq<Message>, i: nat, rundown: map<string, string>, words: StubWording,
                    budget: int): (least: nat)
    requires i <= |ms| + 1
    ensures i <= least <= |ms| + 1
    decreases |ms| + 1 - i
  {
    if i == |ms| + 1 || Cost(StubUpTo(ms, i, rundown, words)) <= budget then i
    else LeastFit(ms, i + 1, rundown, words, budget)
  }

  lemma {:induction false} LeastFitIsLeast(ms: seq<Message>, i: nat, rundown: map<string, string>, words: StubWording,
                                           budget: int)
    requires i <= |ms| + 1
    ensures var least := LeastFit(ms, i, rundown, words, budget);
      && (least <= |ms| ==> Cost(StubUpTo(ms, least, rundown, words)) <= budget)
      && forall j :: i <= j < least && j <= |ms| ==> Cost(StubUpTo(ms, j, rundown, words)) > budget
    decreases |ms| + 1 - i
  {
    hide StubUpTo, Cost;
    if i <= |ms| && Cost(StubUpTo(ms, i, rundown, words)) > budget {
      LeastFitIsLeast(ms, i + 1, rundown, words, budget);
    }
  }

  lemma {:induction false} LeastFitFrom(ms: seq<Message>, i: nat, k: nat, rundown: map<string, string>,
                                        words: StubWording, budget: int)
    requires i <= k <= |ms| + 1
    requires forall j :: i <= j < k ==> Cost(StubUpTo(ms, j, rundown, words)) > budget
    ensures LeastFit(ms, i, rundown, words, budget) == LeastFit(ms, k, rundown, words, budget)
    ensures LeastFit(ms, |ms| + 1, rundown, words, budget) == |ms| + 1
    decreases k - i
  {
    hide StubUpTo, Cost;
    if i < k {
      LeastFitFrom(ms, i + 1, k, rundown, words, budget);
    }
  }

  lemma StubStep(ms: seq<Message>, i: nat, rundown: map<string, string>, words: StubWording)
    requires i < |ms|
    ensures StubUpTo(ms, i, rundown, words)[i] == ms[i]
    ensures StubUpTo(ms, i + 1, rundown, words)
         == StubUpTo(ms, i, rundown, words)[i := Stubbed(ms[i], rundown, words)]
    ensures !ms[i].role.RoleTool? ==> StubUpTo(ms, i + 1, rundown, words) == StubUpTo(ms, i, rundown, words)
  {
  }

  /** Stubs tool results oldest first, one at a time, until the request fits. A stub may be
      longer than the result it replaces, so the least fitting prefix is found, not a bound. */
  method TerminalNoToolsMessages(live: seq<Message>, rundown: map<string, string>, words: StubWording, budget: int)
    returns (messages: seq<Message>, tokens: int, ok: bool)
    ensures var all := live + [TextMessage(RoleUser, words.prompt)];
      var least := LeastFit(all, 0, rundown, words, budget);
      && (ok <==> least <= |all|)
      && messages == StubUpTo(all, if ok then least else |all|, rundown, words)
    ensures tokens == Cost(messages) == MessagesTokens(messages, false)
  {
    CostIs();
    hide *;
    ghost var all := live + [TextMessage(RoleUser, words.prompt)];
    var clone := new Message[|live| + 1](
      i => if 0 <= i < |live| then live[i] else TextMessage(RoleUser, words.prompt));
    assert clone[..] == all;
    tokens := Estimate(clone[..]);
    NoStubs(all, rundown, words);
    if tokens <= budget {
      LeastFitHere(all, 0, rundown, words, budget);
      return clone[..], tokens, true;
    }
    for i := 0 to clone.Length
      invariant clone[..] == StubUpTo(all, i, rundown, words)
      invariant tokens == Cost(clone[..])
      invariant forall j :: 0 <= j <= i ==> Cost(StubUpTo(all, j, rundown, words)) > budget
    {
      StubStep(all, i, rundown, words);
      assert clone[..][i] == all[i];
      if !clone[i].role.RoleTool? {
        continue;
      }
      var stub := StubText(clone[i], rundown, words);
      clone[i] := clone[i].(content := stub);
      assert clone[..] == StubUpTo(all, i + 1, rundown, words);
      tokens := Estimate(clone[..]);
      if tokens <= budget {
        LeastFitFrom(all, 0, i + 1, rundown, words, budget);
        LeastFitHere(all, i + 1, rundown, words, budget);
        return clone[..], tokens, true;
      }
    }
    LeastFitFrom(all, 0, |all| + 1, rundown, words, budget);
    return clone[..], tokens, false;
  }

  /** Without tools no reasoning is replayed, so none is charged. */
  lemma CostIs()
    ensures forall ms :: Cost(ms) == MessagesTokens(ms, false)
  {
  }

  method StubText(m: Message, rundown: map<string, string>, words: StubWording) returns (content: string)
    ensures m.role.RoleTool? ==> m.(content := content) == Stubbed(m, rundown, words)
  {
    var recorded := if m.toolCallId in rundown then rundown[m.toolCallId] else "";
    if recorded == "" {
      recorded := words.unknown;
    }
    content := words.stub(m.name, recorded);
  }

  method Estimate(ms: seq<Message>) returns (tokens: int)
    ensures tokens == Cost(ms)
  {
    tokens := EstimateChatInputTokens(Request("", "", ms, []));
  }

  lemma LeastFitHere(ms: seq<Message>, i: nat, rundown: map<string, string>, words: StubWording, budget: int)
    requires i <= |ms| && Cost(StubUpTo(ms, i, rundown, words)) <= budget
    ensures LeastFit(ms, i, rundown, words, budget) == i
  {
  }

  lemma NoStubs(ms: seq<Message>, rundown: map<string, string>, words: StubWording)
    ensures StubUpTo(ms, 0, rundown, words) == ms
  {
  }

  /** Failure is reported exactly when no prefix of stubs fits, not even all of them; on success
      the stubbed prefix is the shortest that fits. */
  lemma StubbingIsShortest(all: seq<Message>, rundown: map<string, string>, words: StubWording, budget: int)
    ensures var least := LeastFit(all, 0, rundown, words, budget);
      && (least <= |all| <==> exists i :: 0 <= i <= |all| && Cost(StubUpTo(all, i, rundown, words)) <= budget)
      && (least <= |all| ==>
            && Cost(StubUpTo(all, least, rundown, words)) <= budget
            && forall i :: 0 <= i < least ==> Cost(StubUpTo(all, i, rundown, words)) > budget)
  {
    hide StubUpTo, Cost;
    LeastFitIsLeast(all, 0, rundown, words, budget);
  }

  /** Stubbing changes nothing but the text of leading tool results, so pairing survives. */
  lemma StubbingKeepsTheRest(live: seq<Message>, i: nat, rundown: map<string, string>, words: StubWording)
    requires i <= |live| + 1
    ensures var all := live + [TextMessage(RoleUser, words.prompt)];
      var stubbed := StubUpTo(all, i, rundown, words);
      && (forall j :: 0 <= j < |all| ==> stubbed[j] == all[j].(content := stubbed[j].content))
      && (forall j :: 0 <= j < i && all[j].role.RoleTool? ==>
            stubbed[j].content == words.stub(all[j].name,
              if all[j].toolCallId in rundown && rundown[all[j].toolCallId] != "" then rundown[all[j].toolCallId]
              else words.unknown))
      && (forall j :: 0 <= j < |all| && (i <= j || !all[j].role.RoleTool?) ==> stubbed[j] == all[j])
      && (Paired(live) ==> Paired(stubbed))
  {
    hide PairedFrom;
    var user := TextMessage(RoleUser, words.prompt);
    var all := live + [user];
    var stubbed := StubUpTo(all, i, rundown, words);
    if Paired(live) {
      PairedPlain(user);
      PairedAppend(live, [user], multiset{});
      PairedSameShape(all, stubbed, multiset{});
    }
  }

  /** A stub can cost more than the result it replaces: then stubbing everything is no fit at
      all although stubbing less is, and the search still stops at the prefix that fits. */
  lemma {:induction false} LongStubsMayNotFit(result: Message, rundown: map<string, string>, words: StubWording)
    requires result.role.RoleTool?
    requires TextTokens(result.content) < TextTokens(Stubbed(result, rundown, words).content)
    ensures var budget := Cost([result]);
      && LeastFit([result], 0, rundown, words, budget) == 0
      && Cost(StubUpTo([result], 1, rundown, words)) > budget
  {
    NoStubs([result], rundown, words);
    StubStep([result], 0, rundown, words);
    var stubbed := Stubbed(result, rundown, words);
    assert StubUpTo([result], 1, rundown, words) == [stubbed];
    MessagesTokensOne(result, false);
    MessagesTokensOne(stubbed, false);
  }
}
