/** Reassembling streamed tool calls (internal/ai/reassemble.go, internal/ai/deepseek.go). */
module ToolCallStream {
  import opened Chat
  import opened Seqs

  datatype Fragment = Fragment(index: int, id: string, name: string, argsDelta: string)

  // ---------------------------------------------------------------- one accumulator per index

  /** The fragments of one index, in arrival order. */
  function Only(fs: seq<Fragment>, index: int): seq<Fragment> {
    if fs == [] then []
    else Only(fs[..|fs| - 1], index) + (if fs[|fs| - 1].index == index then [fs[|fs| - 1]] else [])
  }

  /** What an accumulator of its own makes of one call's fragments: all arguments in order, the
      last non-empty id and name. */
  function Assembled(fs: seq<Fragment>): ToolCall {
    if fs == [] then ToolCall("", "", "") else Folded(Assembled(fs[..|fs| - 1]), fs[|fs| - 1])
  }

  function Folded(call: ToolCall, f: Fragment): ToolCall {
    ToolCall(if f.id != "" then f.id else call.id, if f.name != "" then f.name else call.name, call.args + f.argsDelta)
  }

  /** Indices by first arrival. */
  function FirstSeen(fs: seq<Fragment>): seq<int> {
    if fs == [] then []
    else
      var before := FirstSeen(fs[..|fs| - 1]);
      if fs[|fs| - 1].index in before then before else before + [fs[|fs| - 1].index]
  }

  function CallFor(fs: seq<Fragment>, index: int): ToolCall {
    Assembled(Only(fs, index))
  }

  function CallsFor(fs: seq<Fragment>, indices: seq<int>): (calls: seq<ToolCall>)
    ensures |calls| == |indices| && forall i :: 0 <= i < |calls| ==> calls[i] == CallFor(fs, indices[i])
  {
    if indices == [] then [] else CallsFor(fs, indices[..|indices| - 1]) + [CallFor(fs, indices[|indices| - 1])]
  }

  /** The calls of one drain. */
  function Rebuilt(fs: seq<Fragment>): seq<ToolCall> {
    CallsFor(fs, FirstSeen(fs))
  }

  lemma OnlySnoc(fs: seq<Fragment>, f: Fragment, index: int)
    ensures Only(fs + [f], index) == Only(fs, index) + (if f.index == index then [f] else [])
  {
    LastOf(fs, f);
  }

  lemma AssembledSnoc(fs: seq<Fragment>, f: Fragment)
    ensures Assembled(fs + [f]) == Folded(Assembled(fs), f)
  {
    LastOf(fs, f);
  }

  lemma FirstSeenSnoc(fs: seq<Fragment>, f: Fragment)
    ensures FirstSeen(fs + [f]) == if f.index in FirstSeen(fs) then FirstSeen(fs) else FirstSeen(fs) + [f.index]
  {
    LastOf(fs, f);
  }

  /** The order lists each index that arrived. */
  lemma {:induction false} FirstSeenIsExact(fs: seq<Fragment>, index: int)
    ensures index in FirstSeen(fs) <==> Only(fs, index) != []
  {
    if fs != [] {
      FirstSeenIsExact(fs[..|fs| - 1], index);
    }
  }

  /** Once each. */
  lemma {:induction false} FirstSeenIsDistinct(fs: seq<Fragment>)
    ensures forall i, j :: 0 <= i < j < |FirstSeen(fs)| ==> FirstSeen(fs)[i] != FirstSeen(fs)[j]
  {
    if fs != [] {
      FirstSeenIsDistinct(fs[..|fs| - 1]);
    }
  }

  lemma CallSnoc(fs: seq<Fragment>, f: Fragment, index: int)
    ensures CallFor(fs + [f], index) == if f.index == index then Folded(CallFor(fs, index), f) else CallFor(fs, index)
  {
    hide Only, Assembled;
    OnlySnoc(fs, f, index);
    AssembledSnoc(Only(fs, index), f);
    AppendNil(Only(fs, index));
  }

  /** Interleaving is irrelevant: fragments of other indices never change a call. */
  lemma {:induction false} OthersDoNotMatter(before: seq<Fragment>, other: Fragment, after: seq<Fragment>, index: int)
    requires other.index != index
    ensures CallFor(before + [other] + after, index) == CallFor(before + after, index)
  {
    OnlyAppend(before, after, index);
    OnlyAppend(before + [other], after, index);
    OnlySnoc(before, other, index);
    AppendNil(Only(before, index));
  }

  lemma {:induction false} OnlyAppend(a: seq<Fragment>, b: seq<Fragment>, index: int)
    ensures Only(a + b, index) == Only(a, index) + Only(b, index)
  {
    if b == [] {
      AppendNil(a);
    } else {
      var front, last := b[..|b| - 1], b[|b| - 1];
      hide Only;
      OnlyAppend(a, front, index);
      AppendAssoc(a, front, [last]);
      OnlySnoc(a + front, last, index);
      OnlySnoc(front, last, index);
      assert b == front + [last];
      AppendNil(Only(front, index));
      AppendNil(Only(a, index) + Only(front, index));
      AppendAssoc(Only(a, index), Only(front, index), [last]);
    }
  }

  // ---------------------------------------------------------------- what a reassembled call is

  /** The last text that is not empty, or nothing when all are. */
  ghost predicate LastGiven(texts: seq<string>, last: string) {
    if exists i :: 0 <= i < |texts| && texts[i] != "" then
      exists i :: 0 <= i < |texts| && texts[i] == last != "" && forall k :: i < k < |texts| ==> texts[k] == ""
    else last == ""
  }

  function Ids(fs: seq<Fragment>): (ids: seq<string>)
    ensures |ids| == |fs| && forall i :: 0 <= i < |fs| ==> ids[i] == fs[i].id
  {
    if fs == [] then [] else Ids(fs[..|fs| - 1]) + [fs[|fs| - 1].id]
  }

  function Names(fs: seq<Fragment>): (names: seq<string>)
    ensures |names| == |fs| && forall i :: 0 <= i < |fs| ==> names[i] == fs[i].name
  {
    if fs == [] then [] else Names(fs[..|fs| - 1]) + [fs[|fs| - 1].name]
  }

  lemma LastGivenSnoc(texts: seq<string>, last: string, text: string)
    requires LastGiven(texts, last)
    ensures LastGiven(texts + [text], if text != "" then text else last)
  {
    var more := texts + [text];
    assert more[|texts|] == text && forall k :: 0 <= k < |texts| ==> more[k] == texts[k];
    if text == "" && exists i :: 0 <= i < |texts| && texts[i] != "" {
      var i :| 0 <= i < |texts| && texts[i] == last != "" && forall k :: i < k < |texts| ==> texts[k] == "";
      assert more[i] == last;
    }
  }

  /** A call carries the last id and the last name it was given. */
  lemma {:induction false} LastIdAndNameWin(fs: seq<Fragment>)
    ensures LastGiven(Ids(fs), Assembled(fs).id) && LastGiven(Names(fs), Assembled(fs).name)
  {
    if fs != [] {
      var front, last := fs[..|fs| - 1], fs[|fs| - 1];
      LastIdAndNameWin(front);
      hide LastGiven;
      LastGivenSnoc(Ids(front), Assembled(front).id, last.id);
      LastGivenSnoc(Names(front), Assembled(front).name, last.name);
    }
  }

  /** Argument pieces are joined in the order of their arrival, none left out and none repeated. */
  lemma {:induction false} ArgsAreJoined(a: seq<Fragment>, b: seq<Fragment>)
    ensures Assembled(a + b).args == Assembled(a).args + Assembled(b).args
  {
    if b == [] {
      AppendNil(a);
      AppendNil(Assembled(a).args);
    } else {
      var front, last := b[..|b| - 1], b[|b| - 1];
      ArgsAreJoined(a, front);
      AppendAssoc(a, front, [last]);
      assert b == front + [last];
      AssembledSnoc(a + front, last);
      AssembledSnoc(front, last);
      hide Assembled;
      AppendAssoc(Assembled(a).args, Assembled(front).args, last.argsDelta);
    }
  }

  lemma OneFragment(f: Fragment)
    ensures Assembled([f]) == ToolCall(f.id, f.name, f.argsDelta)
  {
    LastOf([], f);
    NilAppend([f]);
    NilAppend(f.argsDelta);
  }

  /** A drain's calls, by first arrival: each has the arguments of its own fragments in order, and
      the last id and name among them. */
  lemma RebuiltCalls(a: seq<Fragment>, b: seq<Fragment>, k: nat)
    requires k < |FirstSeen(a + b)|
    ensures k < |Rebuilt(a + b)| == |FirstSeen(a + b)|
    ensures var index, call := FirstSeen(a + b)[k], Rebuilt(a + b)[k];
      && call.args == CallFor(a, index).args + CallFor(b, index).args
      && LastGiven(Ids(Only(a, index) + Only(b, index)), call.id)
      && LastGiven(Names(Only(a, index) + Only(b, index)), call.name)
  {
    hide Only, Assembled, FirstSeen, LastGiven;
    var index := FirstSeen(a + b)[k];
    OnlyAppend(a, b, index);
    ArgsAreJoined(Only(a, index), Only(b, index));
    LastIdAndNameWin(Only(a, index) + Only(b, index));
  }

  /** One fragment adds its piece to the call of its own index and to no other. */
  lemma OneFragmentFor(f: Fragment, index: int)
    ensures Only([f], index) == if f.index == index then [f] else []
    ensures CallFor([f], index).args == if f.index == index then f.argsDelta else ""
  {
    LastOf([], f);
    NilAppend([f]);
    OnlySnoc([], f, index);
    OneFragment(f);
  }

  /** Later fragments never reorder the calls. */
  lemma {:induction false} FirstSeenGrows(a: seq<Fragment>, b: seq<Fragment>)
    ensures FirstSeen(a) <= FirstSeen(a + b)
  {
    if b == [] {
      AppendNil(a);
    } else {
      var front, last := b[..|b| - 1], b[|b| - 1];
      FirstSeenGrows(a, front);
      AppendAssoc(a, front, [last]);
      assert b == front + [last];
      FirstSeenSnoc(a + front, last);
      hide FirstSeen;
    }
  }

  // ---------------------------------------------------------------- the accumulator

  class CallCell {
    var id: string
    var name: string
    var args: string

    constructor ()
      ensures Now() == ToolCall("", "", "")
    {
      id, name, args := "", "", "";
    }

    function Now(): ToolCall
      reads this
    {
      ToolCall(id, name, args)
    }

    method Fold(f: Fragment)
      modifies this
      ensures Now() == Folded(old(Now()), f)
    {
      if f.id != "" {
        id := f.id;
      }
      if f.name != "" {
        name := f.name;
      }
      args := args + f.argsDelta;
    }
  }

  class ToolCallAccumulator {
    var order: seq<int>
    var calls: map<int, CallCell>
    /** The fragments added since the last drain. */
    ghost var fed: seq<Fragment>

    constructor ()
      ensures Valid() && fed == [] && fresh(Cells())
    {
      order, calls, fed := [], map[], [];
    }

    ghost function Cells(): set<object>
      reads this
    {
      set index | index in calls :: calls[index]
    }

    /** Every index has a cell of its own, holding what its own fragments assemble to. */
    ghost predicate Valid()
      reads this, Cells()
    {
      && order == FirstSeen(fed)
      && (forall index :: index in calls <==> index in order)
      && (forall i, j :: i in calls && j in calls && i != j ==> calls[i] != calls[j])
      && forall index :: index in calls ==> calls[index].Now() == CallFor(fed, index)
    }

    method Add(f: Fragment)
      requires Valid()
      modifies this, Cells()
      ensures Valid() && fed == old(fed) + [f]
      ensures fresh(Cells() - old(Cells()))
    {
      hide CallFor, FirstSeen, Folded;
      NotYetCalled(fed, f.index);
      if f.index !in calls {
        var cell := new CallCell();
        calls := calls[f.index := cell];
        order := order + [f.index];
      }
      calls[f.index].Fold(f);
      FirstSeenSnoc(fed, f);
      forall index
        ensures CallFor(fed + [f], index) == if f.index == index then Folded(CallFor(fed, index), f)
          else CallFor(fed, index)
      {
        CallSnoc(fed, f, index);
      }
      fed := fed + [f];
    }

    method IsEmpty() returns (empty: bool)
      requires Valid()
      ensures empty <==> fed == []
    {
      AnyIsSeen(fed);
      empty := |order| == 0;
    }

    method Drain() returns (drained: seq<ToolCall>)
      requires Valid()
      modifies this
      ensures Valid() && fed == [] && Cells() == {}
      ensures drained == Rebuilt(old(fed))
    {
      hide CallFor;
      drained := [];
      for i := 0 to |order|
        invariant Valid() && fed == old(fed) && order == old(order) && |drained| == i
        invariant forall k :: 0 <= k < i ==> drained[k] == CallFor(fed, order[k])
      {
        var index := order[i];
        assert index in order;
        drained := drained + [calls[index].Now()];
      }
      CallsForIs(fed, order, drained);
      order, calls, fed := [], map[], [];
    }
  }

  lemma CallsForIs(fs: seq<Fragment>, indices: seq<int>, calls: seq<ToolCall>)
    requires |calls| == |indices| && forall k :: 0 <= k < |calls| ==> calls[k] == CallFor(fs, indices[k])
    ensures calls == CallsFor(fs, indices)
  {
    hide CallFor;
  }

  lemma AnyIsSeen(fs: seq<Fragment>)
    ensures fs == [] <==> FirstSeen(fs) == []
  {
    if fs != [] {
      LastOf(fs[..|fs| - 1], fs[|fs| - 1]);
    }
  }

  lemma NotYetCalled(fs: seq<Fragment>, index: int)
    ensures index !in FirstSeen(fs) ==> CallFor(fs, index) == ToolCall("", "", "")
  {
    FirstSeenIsExact(fs, index);
  }

  // ---------------------------------------------------------------- the stream loop

  /** One choice of a stream chunk; `finished` is a non-empty finish reason. */
  datatype Choice = Choice(finished: bool, text: string, fragments: seq<Fragment>)

  /** The fragments of the drains so far, and those still accumulating. */
  datatype Progress = Progress(windows: seq<seq<Fragment>>, pending: seq<Fragment>)

  function ChunkFragments(choices: seq<Choice>): seq<Fragment> {
    if choices == [] then [] else ChunkFragments(choices[..|choices| - 1]) + choices[|choices| - 1].fragments
  }

  predicate ChunkText(choices: seq<Choice>) {
    choices != [] && (ChunkText(choices[..|choices| - 1]) || choices[|choices| - 1].text != "")
  }

  predicate StreamText(chunks: seq<seq<Choice>>) {
    chunks != [] && (StreamText(chunks[..|chunks| - 1]) || ChunkText(chunks[|chunks| - 1]))
  }

  /** Only the first choice's finish reason drains, and never an empty accumulator. */
  function AfterChunk(p: Progress, choices: seq<Choice>): Progress {
    var pending := p.pending + ChunkFragments(choices);
    if choices != [] && choices[0].finished && pending != [] then Progress(p.windows + [pending], [])
    else Progress(p.windows, pending)
  }

  function After(chunks: seq<seq<Choice>>): Progress {
    if chunks == [] then Progress([], []) else AfterChunk(After(chunks[..|chunks| - 1]), chunks[|chunks| - 1])
  }

  function CallsOf(windows: seq<seq<Fragment>>): seq<ToolCall> {
    if windows == [] then [] else CallsOf(windows[..|windows| - 1]) + Rebuilt(windows[|windows| - 1])
  }

  /** Everything a completed stream emits: each drain, and at last what was left. */
  function Emitted(chunks: seq<seq<Choice>>): seq<ToolCall> {
    CallsOf(After(chunks).windows) + Rebuilt(After(chunks).pending)
  }

  function AllFragments(chunks: seq<seq<Choice>>): seq<Fragment> {
    if chunks == [] then [] else AllFragments(chunks[..|chunks| - 1]) + ChunkFragments(chunks[|chunks| - 1])
  }

  function Flat(windows: seq<seq<Fragment>>): seq<Fragment> {
    if windows == [] then [] else Flat(windows[..|windows| - 1]) + windows[|windows| - 1]
  }

  /** Every fragment is used exactly once: the drains and the rest partition the stream. */
  lemma {:induction false} DrainsPartition(chunks: seq<seq<Choice>>)
    ensures Flat(After(chunks).windows) + After(chunks).pending == AllFragments(chunks)
    ensures forall i :: 0 <= i < |After(chunks).windows| ==> After(chunks).windows[i] != []
  {
    if chunks != [] {
      var p, last := After(chunks[..|chunks| - 1]), chunks[|chunks| - 1];
      DrainsPartition(chunks[..|chunks| - 1]);
      var pending := p.pending + ChunkFragments(last);
      AppendAssoc(Flat(p.windows), p.pending, ChunkFragments(last));
      LastOf(p.windows, pending);
      AppendNil(Flat(p.windows) + pending);
    }
  }

  function CallCount(windows: seq<seq<Fragment>>): nat {
    if windows == [] then 0 else CallCount(windows[..|windows| - 1]) + |Rebuilt(windows[|windows| - 1])|
  }

  /** The k-th call of the w-th drain, at the place all earlier drains leave it. */
  predicate CallStands(calls: seq<ToolCall>, windows: seq<seq<Fragment>>, w: nat, k: nat)
    requires w < |windows| && k < |Rebuilt(windows[w])|
  {
    var at := CallCount(windows[..w]) + k;
    at < |calls| && calls[at] == Rebuilt(windows[w])[k]
  }

  lemma {:induction false} CallsStand(windows: seq<seq<Fragment>>, w: nat, k: nat)
    requires w < |windows| && k < |Rebuilt(windows[w])|
    ensures CallStands(CallsOf(windows), windows, w, k)
  {
    hide Rebuilt;
    var n := |windows| - 1;
    CallsCounted(windows[..n]);
    if w < n {
      CallsStand(windows[..n], w, k);
      TakeTake(windows, w, n);
    }
  }

  lemma {:induction false} CallsCounted(windows: seq<seq<Fragment>>)
    ensures |CallsOf(windows)| == CallCount(windows)
  {
    hide Rebuilt;
    if windows != [] {
      CallsCounted(windows[..|windows| - 1]);
    }
  }

  predicate AllStand(calls: seq<ToolCall>, windows: seq<seq<Fragment>>) {
    && |calls| == CallCount(windows)
    && forall w, k :: 0 <= w < |windows| && 0 <= k < |Rebuilt(windows[w])| ==> CallStands(calls, windows, w, k)
  }

  lemma CallsAllStand(windows: seq<seq<Fragment>>)
    ensures AllStand(CallsOf(windows), windows)
  {
    hide Rebuilt, CallStands, CallsOf, CallCount;
    CallsCounted(windows);
    forall w, k | 0 <= w < |windows| && 0 <= k < |Rebuilt(windows[w])|
      ensures CallStands(CallsOf(windows), windows, w, k)
    {
      CallsStand(windows, w, k);
    }
  }

  /** What a stream emits: every call of every drain and of what was left at the end, each at the
      place the earlier ones leave it, and nothing else. */
  lemma EmittedCalls(chunks: seq<seq<Choice>>)
    ensures AllStand(Emitted(chunks), After(chunks).windows + [After(chunks).pending])
  {
    hide AllStand, Rebuilt, After;
    LastOf(After(chunks).windows, After(chunks).pending);
    CallsAllStand(After(chunks).windows + [After(chunks).pending]);
  }

  lemma {:induction false} ChunkTextIs(choices: seq<Choice>)
    ensures ChunkText(choices) <==> exists i :: 0 <= i < |choices| && choices[i].text != ""
  {
    if choices != [] {
      ChunkTextIs(choices[..|choices| - 1]);
    }
  }

  /** A stream has text exactly when some choice of some chunk has. */
  lemma {:induction false} StreamTextIs(chunks: seq<seq<Choice>>)
    ensures StreamText(chunks) <==>
      exists c, i :: 0 <= c < |chunks| && 0 <= i < |chunks[c]| && chunks[c][i].text != ""
  {
    hide ChunkText;
    if chunks != [] {
      var n := |chunks| - 1;
      StreamTextIs(chunks[..n]);
      ChunkTextIs(chunks[n]);
      assert forall c :: 0 <= c < n ==> chunks[..n][c] == chunks[c];
    }
  }

  lemma {:induction false} AllFragmentsAppend(a: seq<seq<Choice>>, b: seq<seq<Choice>>)
    ensures AllFragments(a + b) == AllFragments(a) + AllFragments(b)
  {
    hide ChunkFragments;
    if b == [] {
      AppendNil(a);
      AppendNil(AllFragments(a));
    } else {
      var front, last := b[..|b| - 1], b[|b| - 1];
      hide AllFragments;
      AllFragmentsAppend(a, front);
      AppendAssoc(a, front, [last]);
      AllFragmentsSnoc(a + front, last);
      AllFragmentsSnoc(front, last);
      assert b == front + [last];
      AppendAssoc(AllFragments(a), AllFragments(front), ChunkFragments(last));
    }
  }

  lemma AllFragmentsSnoc(chunks: seq<seq<Choice>>, choices: seq<Choice>)
    ensures AllFragments(chunks + [choices]) == AllFragments(chunks) + ChunkFragments(choices)
  {
    hide ChunkFragments;
    LastOf(chunks, choices);
  }

  /** The stream's fragments are those of its chunks, choice by choice. */
  lemma FragmentsInOrder(before: seq<seq<Choice>>, choices: seq<Choice>, choice: Choice)
    ensures AllFragments(before + [choices]) == AllFragments(before) + AllFragments([choices])
    ensures AllFragments([choices + [choice]]) == AllFragments([choices]) + choice.fragments
    ensures AllFragments([]) == [] && AllFragments([[]]) == []
  {
    AllFragmentsAppend(before, [choices]);
    OneChunk(choices);
    OneChunk(choices + [choice]);
    OneChunk([]);
    LastOf(choices, choice);
  }

  lemma OneChunk(choices: seq<Choice>)
    ensures AllFragments([choices]) == ChunkFragments(choices)
  {
    LastOf([], choices);
    NilAppend([choices]);
    NilAppend(ChunkFragments(choices));
  }

  /** What was emitted early stays a prefix of what is emitted in the end. */
  lemma {:induction false} EmittedGrows(chunks: seq<seq<Choice>>, c: nat)
    requires c <= |chunks|
    ensures CallsOf(After(chunks[..c]).windows) <= CallsOf(After(chunks).windows)
  {
    hide Rebuilt, ChunkFragments;
    if c == |chunks| {
      TakeAll(chunks);
    } else {
      var front, last := chunks[..|chunks| - 1], chunks[|chunks| - 1];
      EmittedGrows(front, c);
      TakeTake(chunks, c, |chunks| - 1);
      var p := After(front);
      LastOf(p.windows, p.pending + ChunkFragments(last));
    }
  }

  /** The chunk at c either drains or only accumulates. */
  lemma ChunkAt(chunks: seq<seq<Choice>>, c: nat)
    requires c < |chunks|
    ensures var p, q := After(chunks[..c]), After(chunks[..c + 1]);
      var pending := p.pending + ChunkFragments(chunks[c]);
      var drains := chunks[c] != [] && chunks[c][0].finished && pending != [];
      && (drains ==> q.pending == [] && CallsOf(q.windows) == CallsOf(p.windows) + Rebuilt(pending))
      && (!drains ==> q.pending == pending && q.windows == p.windows)
  {
    hide Rebuilt, ChunkFragments;
    TakeSnoc(chunks, c);
    var p := After(chunks[..c]);
    LastOf(p.windows, p.pending + ChunkFragments(chunks[c]));
  }

  method EmitAll(given: seq<ToolCall>, calls: seq<ToolCall>, emitFails: nat -> bool, n: nat)
    returns (emitted: seq<ToolCall>, ok: bool, next: nat)
    ensures given <= emitted <= given + calls
    ensures ok ==> emitted == given + calls
    ensures (forall k :: !emitFails(k)) ==> ok
  {
    emitted, next := given, n;
    for i := 0 to |calls|
      invariant emitted == given + calls[..i]
    {
      if emitFails(next) {
        return emitted, false, next + 1;
      }
      TakeSnoc(calls, i);
      emitted, next := emitted + [calls[i]], next + 1;
    }
    TakeAll(calls);
    ok := true;
  }

  method AddAll(accumulator: ToolCallAccumulator, fragments: seq<Fragment>)
    requires accumulator.Valid()
    modifies accumulator, accumulator.Cells()
    ensures accumulator.Valid() && fresh(accumulator.Cells() - old(accumulator.Cells()))
    ensures accumulator.fed == old(accumulator.fed) + fragments
  {
    for i := 0 to |fragments|
      invariant accumulator.Valid() && fresh(accumulator.Cells() - old(accumulator.Cells()))
      invariant accumulator.fed == old(accumulator.fed) + fragments[..i]
    {
      accumulator.Add(fragments[i]);
      TakeSnoc(fragments, i);
      AppendAssoc(old(accumulator.fed), fragments[..i], [fragments[i]]);
    }
    TakeAll(fragments);
  }

  /** What fails: the n-th emission, a choice's delta in its chunk (not decoded, or its thinking
      event not delivered), a chunk's usage likewise, and the stream itself at its end. */
  datatype Faults = Faults(emit: nat -> bool, delta: (nat, nat) -> bool, usage: nat -> bool, stream: bool)

  /** The chunks themselves are handled without a fault. */
  ghost predicate Undisturbed(faults: Faults) {
    (forall n :: !faults.emit(n)) && (forall c, i :: !faults.delta(c, i)) && (forall c :: !faults.usage(c))
  }

  /** Emits a chunk's texts and accumulates its fragments. */
  method FeedChunk(accumulator: ToolCallAccumulator, choices: seq<Choice>, faults: Faults, c: nat, n: nat,
                   answeredBefore: bool)
    returns (ok: bool, next: nat, answered: bool)
    requires accumulator.Valid()
    modifies accumulator, accumulator.Cells()
    ensures accumulator.Valid() && fresh(accumulator.Cells() - old(accumulator.Cells()))
    ensures ok ==> accumulator.fed == old(accumulator.fed) + ChunkFragments(choices)
    ensures ok ==> (answered <==> answeredBefore || ChunkText(choices))
    ensures Undisturbed(faults) ==> ok
  {
    hide Rebuilt, CallsFor, FirstSeen, CallFor;
    next, answered := n, answeredBefore;
    AppendNil(accumulator.fed);
    for i := 0 to |choices|
      invariant accumulator.Valid() && fresh(accumulator.Cells() - old(accumulator.Cells()))
      invariant accumulator.fed == old(accumulator.fed) + ChunkFragments(choices[..i])
      invariant answered <==> answeredBefore || ChunkText(choices[..i])
    {
      TakeSnoc(choices, i);
      if faults.delta(c, i) {
        return false, next, answered;
      }
      if choices[i].text != "" {
        answered := true;
        next := next + 1;
        if faults.emit(next - 1) {
          return false, next, answered;
        }
      }
      AddAll(accumulator, choices[i].fragments);
      AppendAssoc(old(accumulator.fed), ChunkFragments(choices[..i]), choices[i].fragments);
    }
    TakeAll(choices);
    ok := true;
  }

  /** A stream that returns without error emitted exactly the reassembled calls, and one that
      fails a prefix of them. When it is the stream itself that fails at its end, what was drained
      on the way is emitted and the rest is not. */
  method StreamToolCalls(chunks: seq<seq<Choice>>, faults: Faults) returns (emitted: seq<ToolCall>, ok: bool)
    ensures emitted <= Emitted(chunks)
    ensures ok ==> emitted == Emitted(chunks) && !faults.stream && (StreamText(chunks) || emitted != [])
    ensures Undisturbed(faults) ==>
      && emitted == (if faults.stream then CallsOf(After(chunks).windows) else Emitted(chunks))
      && (ok <==> !faults.stream && (StreamText(chunks) || emitted != []))
  {
    hide After, AfterChunk, CallsOf, Emitted, Rebuilt, CallsFor, CallFor, FirstSeen, ChunkFragments, ChunkText;
    var accumulator := new ToolCallAccumulator();
    emitted, ok := [], false;
    var answered := false;
    var n := 0;
    TakeAll(chunks);
    NothingYet(chunks);
    for c := 0 to |chunks|
      invariant accumulator.Valid() && fresh(accumulator) && fresh(accumulator.Cells())
      invariant accumulator.fed == After(chunks[..c]).pending
      invariant emitted == CallsOf(After(chunks[..c]).windows)
      invariant answered <==> StreamText(chunks[..c])
    {
      TakeSnoc(chunks, c);
      ChunkAt(chunks, c);
      EmittedGrows(chunks, c);
      EmittedGrows(chunks, c + 1);
      EmittedIs(chunks);
      var good;
      good, n, answered := FeedChunk(accumulator, chunks[c], faults, c, n, answered);
      if !good {
        return emitted, false;
      }
      var empty := accumulator.IsEmpty();
      if |chunks[c]| > 0 && chunks[c][0].finished && !empty {
        var drained := accumulator.Drain();
        emitted, good, n := EmitAll(emitted, drained, faults.emit, n);
        if !good {
          return emitted, false;
        }
      }
      if faults.usage(c) {
        return emitted, false;
      }
    }
    EmittedIs(chunks);
    if faults.stream {
      return emitted, false;
    }
    var rest := accumulator.Drain();
    var good;
    emitted, good, n := EmitAll(emitted, rest, faults.emit, n);
    ok := good && (answered || emitted != []);
  }

  lemma NothingYet(chunks: seq<seq<Choice>>)
    ensures After(chunks[..0]) == Progress([], []) && CallsOf([]) == []
  {
  }

  lemma EmittedIs(chunks: seq<seq<Choice>>)
    ensures Emitted(chunks) == CallsOf(After(chunks).windows) + Rebuilt(After(chunks).pending)
  {
  }
}
