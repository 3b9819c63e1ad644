/** What decides a bootstrap job, read off the provider's replies alone. */
module BootstrapOutcomes {
  import opened Options
  import opened Chat
  import opened Seqs
  import opened Bootstrap

  /** A response of a pass, with what was left before its calls ran. */
  datatype Response = Response(round: nat, calls: seq<ToolCall>, left: Limits, finalizing: bool)

  // ---------------------------------------------------------------- one response

  /** The pages known once these calls were seen. */
  function Known(w: World, pages: set<string>, calls: seq<ToolCall>): set<string> {
    if calls == [] then pages
    else
      var n := |calls| - 1;
      match ContentRead(w, calls[n])
      case None => Known(w, pages, calls[..n])
      case Some(url) => Known(w, pages, calls[..n]) + Named(url)
  }

  /** Content reads of these calls that name no known page, and so need one of the reads left. */
  function FreshReads(w: World, pages: set<string>, calls: seq<ToolCall>): nat {
    if calls == [] then 0
    else
      var n := |calls| - 1;
      match ContentRead(w, calls[n])
      case None => FreshReads(w, pages, calls[..n])
      case Some(url) =>
        FreshReads(w, pages, calls[..n]) + (if url != "" && url in Known(w, pages, calls[..n]) then 0 else 1)
  }

  /** Update calls of the response that complete when run. */
  function Completions(w: World, calls: seq<ToolCall>, round: nat): nat {
    if calls == [] then 0
    else
      var n := |calls| - 1;
      Completions(w, calls[..n], round) + (if IsUpdateCall(w, calls[n]) && w.outcomes(round, n) then 1 else 0)
  }

  /** The response has exactly one update call, and it completes. */
  predicate Saves(w: World, r: Response) {
    UpdateCalls(w, r.calls) == 1 && Completions(w, r.calls, r.round) == 1
  }

  /** It reads more new pages than there are reads left. */
  predicate Exceeds(w: World, r: Response) {
    !r.finalizing && FreshReads(w, r.left.pages, r.calls) > r.left.contentReads
  }

  predicate Decides(w: World, r: Response) {
    UpdateCalls(w, r.calls) > 0 || Exceeds(w, r)
  }

  function LogOf(w: World, r: Response): seq<Entry> {
    CallsStep(w, r.left, r.calls, r.finalizing, UpdateCalls(w, r.calls), r.round).1
  }

  lemma OneEntry(w: World, left: Limits, call: ToolCall, finalizing: bool, updates: nat, completes: bool)
    requires w.updateTool != w.readTool
    ensures var log := CallStep(w, left, call, finalizing, updates, completes).1;
      && Count(log, ABreach) == (if log == [Breach] then 1 else 0)
      && Count(log, ASave) == (if IsUpdateCall(w, call) && updates <= 1 && completes then 1 else 0)
      && (finalizing ==> Count(log, ABreach) == 0)
  {
    var log := CallStep(w, left, call, finalizing, updates, completes).1;
    if log != [] {
      CountSnoc([], log[0], ABreach);
      CountSnoc([], log[0], ASave);
      NilAppend([log[0]]);
    }
  }

  lemma NothingCounted()
    ensures Count([], ASave) == 0 && Count([], ABreach) == 0
    ensures Count([Provider], ASave) == 0 && Count([Provider], ABreach) == 0
  {
  }

  /** The last call of a response, taken apart. */
  lemma LastCall(w: World, left: Limits, calls: seq<ToolCall>, finalizing: bool, updates: nat, round: nat)
    requires calls != []
    ensures var n := |calls| - 1;
      var before := CallsStep(w, left, calls[..n], finalizing, updates, round);
      var step := CallStep(w, before.0, calls[n], finalizing, updates, w.outcomes(round, n));
      var both := CallsStep(w, left, calls, finalizing, updates, round);
      && both.0 == step.0
      && Count(both.1, ABreach) == Count(before.1, ABreach) + Count(step.1, ABreach)
      && Count(both.1, ASave) == Count(before.1, ASave) + Count(step.1, ASave)
  {
    hide CallStep, Count;
    var n := |calls| - 1;
    var before := CallsStep(w, left, calls[..n], finalizing, updates, round);
    var step := CallStep(w, before.0, calls[n], finalizing, updates, w.outcomes(round, n));
    LogCountAppend(before.1, step.1, ABreach);
    LogCountAppend(before.1, step.1, ASave);
  }

  /** One call before finalizing, seen as a content read. */
  lemma OneRead(w: World, left: Limits, call: ToolCall, updates: nat, completes: bool)
    requires w.updateTool != w.readTool
    ensures var step := CallStep(w, left, call, false, updates, completes);
      match ContentRead(w, call)
      case None => step.0 == left && Count(step.1, ABreach) == 0
      case Some(url) =>
        if url != "" && url in left.pages then step.0 == left && Count(step.1, ABreach) == 0
        else if left.contentReads == 0 then step.0 == left && Count(step.1, ABreach) == 1
        else
          && step.0 == left.(contentReads := left.contentReads - 1, pages := left.pages + Named(url))
          && Count(step.1, ABreach) == 0
  {
    OneEntry(w, left, call, false, updates, completes);
    hide Count;
  }

  /** Until the reads run out, exactly the fresh ones are paid for. */
  lemma {:induction false} ReadsArePaid(w: World, left: Limits, calls: seq<ToolCall>, updates: nat, round: nat)
    requires w.updateTool != w.readTool
    ensures var step := CallsStep(w, left, calls, false, updates, round);
      var needed := FreshReads(w, left.pages, calls);
      && (Count(step.1, ABreach) > 0 <==> needed > left.contentReads)
      && (needed <= left.contentReads ==>
            step.0.contentReads == left.contentReads - needed && step.0.pages == Known(w, left.pages, calls))
      && (needed > left.contentReads ==> step.0.contentReads == 0)
  {
    NothingCounted();
    hide CallsStep, CallStep, Count, ContentRead;
    if calls == [] {
      NoCalls(w, left, false, updates, round);
    } else {
      var n := |calls| - 1;
      ReadsArePaid(w, left, calls[..n], updates, round);
      LastCall(w, left, calls, false, updates, round);
      OneRead(w, CallsStep(w, left, calls[..n], false, updates, round).0, calls[n], updates, w.outcomes(round, n));
    }
  }

  /** A lone update call runs and completes as it may; several are all refused. */
  lemma {:induction false} SavesAreCompletions(w: World, left: Limits, calls: seq<ToolCall>, finalizing: bool,
                                               updates: nat, round: nat)
    requires w.updateTool != w.readTool
    ensures var log := CallsStep(w, left, calls, finalizing, updates, round).1;
      && Count(log, ASave) == (if updates <= 1 then Completions(w, calls, round) else 0)
      && (finalizing ==> Count(log, ABreach) == 0)
  {
    if calls != [] {
      var n := |calls| - 1;
      var before := CallsStep(w, left, calls[..n], finalizing, updates, round);
      SavesAreCompletions(w, left, calls[..n], finalizing, updates, round);
      LastCall(w, left, calls, finalizing, updates, round);
      OneEntry(w, before.0, calls[n], finalizing, updates, w.outcomes(round, n));
      hide CallsStep, Count, CallStep;
    }
  }

  lemma {:induction false} CompletionsAreUpdates(w: World, calls: seq<ToolCall>, round: nat)
    ensures Completions(w, calls, round) <= UpdateCalls(w, calls)
  {
    if calls != [] {
      CompletionsAreUpdates(w, calls[..|calls| - 1], round);
    }
  }

  /** What a response does to the log is decided by its calls, its outcomes and the reads left. */
  lemma ResponseIs(w: World, r: Response)
    requires w.updateTool != w.readTool
    ensures Count(LogOf(w, r), ASave) == if Saves(w, r) then 1 else 0
    ensures Count(LogOf(w, r), ABreach) > 0 <==> Exceeds(w, r)
  {
    hide CallsStep, Count, UpdateCalls, Completions, FreshReads;
    SavesAreCompletions(w, r.left, r.calls, r.finalizing, UpdateCalls(w, r.calls), r.round);
    CompletionsAreUpdates(w, r.calls, r.round);
    if !r.finalizing {
      ReadsArePaid(w, r.left, r.calls, UpdateCalls(w, r.calls), r.round);
    }
  }

  // ---------------------------------------------------------------- one pass

  /** The response a round receives, if it has calls to run. */
  function ResponseOf(w: World, left: Limits, profileOnly: bool): Option<Response>
    requires left.rounds > 0
  {
    var reply, spent := w.replies(Round(left)), left.(rounds := left.rounds - 1);
    if reply.Streamed? && reply.calls != [] then
      Some(Response(Round(left), reply.calls, spent, Finalizing(spent, profileOnly)))
    else None
  }

  function Rest(w: World, r: Response): (left: Limits)
    ensures left.rounds == r.left.rounds
  {
    CallsKeepRounds(w, r.left, r.calls, r.finalizing, UpdateCalls(w, r.calls), r.round);
    CallsStep(w, r.left, r.calls, r.finalizing, UpdateCalls(w, r.calls), r.round).0
  }

  /** The first response that tries to update or reads too much, unless the pass ends before. */
  function Deciding(w: World, left: Limits, profileOnly: bool): (r: Option<Response>)
    ensures r.Some? ==> Decides(w, r.value) && (profileOnly ==> r.value.finalizing)
    decreases left.rounds
  {
    if left.rounds == 0 then None
    else
      match ResponseOf(w, left, profileOnly)
      case None => None
      case Some(r) => if Decides(w, r) then Some(r) else Deciding(w, Rest(w, r), profileOnly)
  }

  lemma RoundIsResponse(w: World, left: Limits, profileOnly: bool)
    requires left.rounds > 0 && w.updateTool != w.readTool
    ensures var round := RoundOf(w, left, profileOnly);
      match ResponseOf(w, left, profileOnly)
      case None => round.over && !round.ok && Count(round.log, ASave) == 0 && Count(round.log, ABreach) == 0
      case Some(r) =>
        && round.left == Rest(w, r) && (round.over <==> Decides(w, r)) && (round.ok <==> Saves(w, r) && !Exceeds(w, r))
        && Count(round.log, ASave) == (if Saves(w, r) then 1 else 0)
        && (Count(round.log, ABreach) > 0 <==> Exceeds(w, r))
  {
    NothingCounted();
    hide CallsStep, UpdateCalls, Count, Completions, FreshReads;
    match ResponseOf(w, left, profileOnly)
    case None =>
    case Some(r) =>
      ResponseIs(w, r);
      LogCountAppend([Provider], LogOf(w, r), ASave);
      LogCountAppend([Provider], LogOf(w, r), ABreach);
  }

  /** A pass saves exactly when its deciding response does, and wins unless that one also reads
      too much. */
  lemma {:induction false} PassIsDecided(w: World, left: Limits, profileOnly: bool)
    requires left.rounds <= TOTAL_MAX_ROUNDS && w.updateTool != w.readTool
    ensures PassOf(w, left, profileOnly).left.rounds <= left.rounds
    ensures var pass := PassOf(w, left, profileOnly);
      match Deciding(w, left, profileOnly)
      case None => !pass.ok && Count(pass.log, ASave) == 0 && Count(pass.log, ABreach) == 0
      case Some(r) =>
        && Count(pass.log, ASave) == (if Saves(w, r) then 1 else 0)
        && (Count(pass.log, ABreach) > 0 <==> Exceeds(w, r))
        && (pass.ok <==> Saves(w, r) && !Exceeds(w, r))
        && r.round < TOTAL_MAX_ROUNDS && pass.left.rounds == TOTAL_MAX_ROUNDS - r.round - 1
    decreases left.rounds
  {
    NothingCounted();
    hide Count, RoundOf, Saves, Exceeds, Rest;
    if left.rounds > 0 {
      RoundIsResponse(w, left, profileOnly);
      RoundSpendsOne(w, left, profileOnly);
      var round := RoundOf(w, left, profileOnly);
      var response := ResponseOf(w, left, profileOnly);
      if !round.over {
        var rest := PassOf(w, round.left, profileOnly);
        PassIsDecided(w, round.left, profileOnly);
        LogCountAppend(round.log, rest.log, ASave);
        LogCountAppend(round.log, rest.log, ABreach);
        QuietResponse(w, response.value);
      }
    }
  }

  lemma QuietResponse(w: World, r: Response)
    requires !Decides(w, r)
    ensures !Saves(w, r) && !Exceeds(w, r)
  {
  }

  // ---------------------------------------------------------------- the whole job

  /** The corrective pass, which reads nothing, after a response of this round. */
  function Corrective(round: nat): Limits {
    Limits(if round < TOTAL_MAX_ROUNDS then TOTAL_MAX_ROUNDS - round - 1 else 0, 0, {})
  }

  predicate DeciderSaves(w: World, decider: Option<Response>) {
    decider.Some? && Saves(w, decider.value)
  }

  /** The first deciding response saves and reads too much; and of the responses after it, the
      first one with an update call has just that one, and it completes as well. */
  predicate SavesTwice(w: World) {
    var first := Deciding(w, Untouched(), false);
    && first.Some? && Saves(w, first.value) && Exceeds(w, first.value)
    && DeciderSaves(w, Deciding(w, Corrective(first.value.round), true))
  }

  /** While finalizing, only the rounds matter. */
  lemma {:induction false} OnlyRoundsMatter(w: World, a: Limits, b: Limits)
    requires a.rounds == b.rounds
    ensures DeciderSaves(w, Deciding(w, a, true)) <==> DeciderSaves(w, Deciding(w, b, true))
    decreases a.rounds
  {
    hide UpdateCalls, Completions, Rest;
    if a.rounds > 0 && ResponseOf(w, a, true).Some? {
      var r, r' := ResponseOf(w, a, true).value, ResponseOf(w, b, true).value;
      if !Decides(w, r) {
        OnlyRoundsMatter(w, Rest(w, r), Rest(w, r'));
      }
    }
  }

  /** Exactly when a job completes the update twice, and when it succeeds. */
  lemma JobIsDecided(w: World)
    requires w.updateTool != w.readTool
    ensures var job := JobOf(w);
      && Count(job.first, ASave) <= 1 && Count(job.second, ASave) <= 1
      && (Count(job.first, ASave) == 1 && Count(job.second, ASave) == 1 <==> SavesTwice(w))
    ensures SavesTwice(w) ==> JobOf(w).ok
    ensures var first, rest := Deciding(w, Untouched(), false), PassOf(w, Untouched(), false).left;
      JobOf(w).ok <==>
        || (DeciderSaves(w, first) && !Exceeds(w, first.value))
        || DeciderSaves(w, Deciding(w, rest, true))
  {
    NothingCounted();
    hide Count, PassOf, Deciding, Saves;
    var first, pass := Deciding(w, Untouched(), false), PassOf(w, Untouched(), false);
    PassIsDecided(w, Untouched(), false);
    PassIsDecided(w, pass.left, true);
    if first.Some? {
      OnlyRoundsMatter(w, pass.left, Corrective(first.value.round));
    }
  }

  // ---------------------------------------------------------------- a job that saves twice

  /** Every tool run completes. The first reply updates and reads six pages in one response; the
      later ones only update. */
  function TwiceSaving(): World {
    World(
      n => Streamed("", "", if n == 0 then UpdateAndSixReads() else [UpdateCall()]),
      (round, place) => true,
      (call, completed) => "",
      url => Some(url),
      "update", "read", "", "")
  }

  function ReadCall(url: string): ToolCall {
    ToolCall("r", "read", url)
  }

  function UpdateCall(): ToolCall {
    ToolCall("u", "update", "")
  }

  function UpdateAndSixReads(): seq<ToolCall> {
    [UpdateCall()] + [ReadCall("a")] + [ReadCall("b")] + [ReadCall("c")] +
      [ReadCall("d")] + [ReadCall("e")] + [ReadCall("f")]
  }

  /** A read of a page that no earlier call of the response named. */
  lemma OneMoreRead(w: World, calls: seq<ToolCall>, url: string)
    requires w == TwiceSaving() && url != "" && url !in Known(w, {}, calls)
    ensures FreshReads(w, {}, calls + [ReadCall(url)]) == FreshReads(w, {}, calls) + 1
    ensures Known(w, {}, calls + [ReadCall(url)]) == Known(w, {}, calls) + {url}
    ensures UpdateCalls(w, calls + [ReadCall(url)]) == UpdateCalls(w, calls)
    ensures Completions(w, calls + [ReadCall(url)], 0) == Completions(w, calls, 0)
  {
    LastOf(calls, ReadCall(url));
  }

  lemma OneUpdate(round: nat)
    ensures var w, calls := TwiceSaving(), [UpdateCall()];
      && UpdateCalls(w, calls) == 1 && Completions(w, calls, round) == 1
      && FreshReads(w, {}, calls) == 0 && Known(w, {}, calls) == {}
  {
    LastOf([], UpdateCall());
    NilAppend([UpdateCall()]);
  }

  lemma SixFreshReads()
    ensures var w, calls := TwiceSaving(), UpdateAndSixReads();
      UpdateCalls(w, calls) == 1 && Completions(w, calls, 0) == 1 && FreshReads(w, {}, calls) == 6
  {
    var w, calls := TwiceSaving(), [UpdateCall()];
    OneUpdate(0);
    hide FreshReads, Known, UpdateCalls, Completions, TwiceSaving;
    OneMoreRead(w, calls, "a");
    OneMoreRead(w, calls + [ReadCall("a")], "b");
    OneMoreRead(w, calls + [ReadCall("a")] + [ReadCall("b")], "c");
    OneMoreRead(w, calls + [ReadCall("a")] + [ReadCall("b")] + [ReadCall("c")], "d");
    OneMoreRead(w, calls + [ReadCall("a")] + [ReadCall("b")] + [ReadCall("c")] + [ReadCall("d")], "e");
    var five := calls + [ReadCall("a")] + [ReadCall("b")] + [ReadCall("c")] + [ReadCall("d")] + [ReadCall("e")];
    OneMoreRead(w, five, "f");
  }

  lemma FirstDecides()
    ensures var w := TwiceSaving();
      var r := Response(0, UpdateAndSixReads(), Untouched().(rounds := 15), false);
      Deciding(w, Untouched(), false) == Some(r) && Saves(w, r) && Exceeds(w, r)
  {
    SixFreshReads();
    hide FreshReads, UpdateCalls, Completions, Rest;
  }

  lemma SecondDecides()
    ensures var w := TwiceSaving();
      var r := Response(1, [UpdateCall()], Corrective(0).(rounds := 14), true);
      Deciding(w, Corrective(0), true) == Some(r) && Saves(w, r)
  {
    OneUpdate(1);
    hide FreshReads, UpdateCalls, Completions, Rest;
  }

  lemma TwiceSavingTools()
    ensures TwiceSaving().updateTool != TwiceSaving().readTool
  {
  }

  lemma TwiceIs(w: World)
    requires Deciding(w, Untouched(), false).Some? && Deciding(w, Untouched(), false).value.round == 0
    requires Saves(w, Deciding(w, Untouched(), false).value) && Exceeds(w, Deciding(w, Untouched(), false).value)
    requires Deciding(w, Corrective(0), true).Some? && Saves(w, Deciding(w, Corrective(0), true).value)
    ensures SavesTwice(w)
  {
    hide Deciding, Saves, Exceeds;
  }

  /** So the profile agent can complete the update twice. */
  lemma UpdateCanCompleteTwice()
    ensures var w := TwiceSaving();
      w.updateTool != w.readTool && SavesTwice(w) && JobOf(w).ok
      && Count(JobOf(w).first, ASave) == 1 && Count(JobOf(w).second, ASave) == 1
  {
    var w := TwiceSaving();
    FirstDecides();
    SecondDecides();
    TwiceSavingTools();
    hide *;
    TwiceIs(w);
    JobIsDecided(w);
  }
}
