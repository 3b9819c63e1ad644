/** What every run of parking, deciding, claiming, recovering, cancelling and resuming keeps. */
module QuestionSafety {
  import opened Options
  import opened Chat
  import opened Seqs
  import opened Transcript
  import opened UserQuestions

  // ---------------------------------------------------------------- runs

  /** Committed transactions. `seen` in a resume is a checkpoint read at any earlier time. */
  datatype Step =
    | Park(worker: nat, call: ToolCall, live: seq<Message>, deferred: seq<ToolCall>, round: nat, nextSeq: nat)
    | Resume(worker: nat, enabled: bool, seen: Checkpoint)
    | Decide(request: nat, decision: RequestStatus, reply: string)
    | ClaimTurn(worker: nat)
    | LeaseLapses
    | Recover(requeue: bool)
    | Requeue(worker: nat)
    | CancelTurn
    | ConnectionChanged
    | FinishTurn(worker: nat)
    | AddRow(row: ToolRow)
    | SetRow(position: nat, status: RowStatus, content: string)

  /** Only a pending request of a waiting turn is decided, and the turn is queued with it. */
  function Decided(s: State, request: nat, decision: RequestStatus, reply: string): State {
    if request < |s.requests| && s.requests[request].status == Pending
      && s.turn.status == TurnWaiting && Resolved(decision) then
      s.(requests := s.requests[request := s.requests[request].(status := decision, reply := reply)],
         turn := s.turn.(status := TurnQueued, owner := None, leaseLive := false),
         events := s.events + [QuestionResolved(request)])
    else s
  }

  /** A running turn whose lease lapsed is requeued, or fails and gives up its questions. */
  function Recovered(s: State, requeue: bool): State {
    if s.turn.status != TurnRunning || s.turn.leaseLive then s
    else if requeue then s.(turn := s.turn.(status := TurnQueued, owner := None))
    else QuestionsCancelled(s).(turn := s.turn.(status := TurnEnded, owner := None))
  }

  function TurnCancelled(s: State): State {
    match s.turn.status
    case TurnEnded => s
    case TurnRunning => QuestionsCancelled(s).(turn := s.turn.(cancelRequested := true))
    case _ => QuestionsCancelled(s).(turn := Ended(s.turn).(cancelRequested := true))
  }

  function Ended(turn: TurnRow): TurnRow {
    turn.(status := TurnEnded, owner := None, leaseLive := false)
  }

  /** Replacing or removing a connection fails every waiting turn of the project
      (FailWaitingTurnsForProject), whatever it waits for, and touches nothing else of it. */
  function ConnectionReplaced(s: State): State {
    if s.turn.status == TurnWaiting then s.(turn := Ended(s.turn)) else s
  }

  predicate IsQuestionRow(s: State, callId: string) {
    exists i :: 0 <= i < |s.requests| && s.requests[i].callId == callId
  }

  function Next(s: State, e: Step, words: QuestionWording): State {
    match e
    case Park(worker, call, live, deferred, round, nextSeq) =>
      if ParkOutcome(s, worker, call, nextSeq) == Parked then ParkedState(s, call, live, deferred, round, nextSeq)
      else s
    case Resume(worker, enabled, seen) => AfterResume(s, worker, enabled, seen, words)
    case Decide(request, decision, reply) => Decided(s, request, decision, reply)
    case ClaimTurn(worker) =>
      if s.turn.status == TurnQueued then
        s.(turn := s.turn.(status := TurnRunning, owner := Some(worker), leaseLive := true))
      else s
    case LeaseLapses => s.(turn := s.turn.(leaseLive := false))
    case Recover(requeue) => Recovered(s, requeue)
    case Requeue(worker) =>
      if LiveClaim(s.turn, worker) then s.(turn := s.turn.(status := TurnQueued, owner := None, leaseLive := false))
      else s
    case CancelTurn => TurnCancelled(s)
    case ConnectionChanged => ConnectionReplaced(s)
    case FinishTurn(worker) =>
      if s.turn.status == TurnRunning && s.turn.owner == Some(worker) then
        s.(turn := s.turn.(status := TurnEnded, owner := None))
      else s
    case AddRow(row) => if RowConflicts(s.rows, row.seqNo, row.callId) then s else s.(rows := s.rows + [row])
    case SetRow(row, status, content) =>
      if row < |s.rows| && !IsQuestionRow(s, s.rows[row].callId) then
        s.(rows := s.rows[row := s.rows[row].(status := status, content := content)])
      else s
  }

  function Run(s: State, steps: seq<Step>, words: QuestionWording): State {
    if steps == [] then s else Next(Run(s, steps[..|steps| - 1], words), steps[|steps| - 1], words)
  }

  // ---------------------------------------------------------------- at most one resume

  /** The question's row was answered: it will never be awaiting again. */
  predicate Spent(s: State, request: nat) {
    request < |s.requests| && HasRow(s.rows, s.requests[request].callId)
      && !RowIs(s.rows, s.requests[request].callId, RowAwaiting)
  }

  predicate Resumes(s: State, e: Step, request: nat) {
    e.Resume? && e.seen.request == request && CanResume(s, e.worker, e.enabled, e.seen)
  }

  function ResumeCount(s: State, steps: seq<Step>, words: QuestionWording, request: nat): nat {
    if steps == [] then 0
    else
      var n := |steps| - 1;
      ResumeCount(s, steps[..n], words, request) +
        (if Resumes(Run(s, steps[..n], words), steps[n], request) then 1 else 0)
  }

  /** Rows keep their place and ids, and only a question's own resume answers its row. */
  predicate RowsKept(s: State, t: State) {
    && |s.rows| <= |t.rows|
    && forall i :: 0 <= i < |s.rows| ==> t.rows[i].callId == s.rows[i].callId
  }

  lemma {:induction false} DeferredKeeps(rows: seq<ToolRow>, deferred: seq<ToolCall>, words: QuestionWording)
    ensures |DeferredRows(rows, deferred, words)| == |rows| + |deferred|
    ensures DeferredRows(rows, deferred, words)[..|rows|] == rows
  {
    if deferred == [] {
      TakeAll(rows);
    } else {
      var before := DeferredRows(rows, deferred[..|deferred| - 1], words);
      DeferredKeeps(rows, deferred[..|deferred| - 1], words);
      assert DeferredRows(rows, deferred, words)[..|rows|] == before[..|rows|];
    }
  }

  /** A row found before stays where it is. */
  lemma FindKept(before: seq<ToolRow>, after: seq<ToolRow>, callId: string)
    requires |before| <= |after| && forall i :: 0 <= i < |before| ==> after[i].callId == before[i].callId
    requires HasRow(before, callId)
    ensures FindRow(after, callId) == FindRow(before, callId)
  {
  }

  /** What a committed resume does to rows: the answered row, and new ones at the end. */
  lemma ResumedRows(s: State, seen: Checkpoint, words: QuestionWording)
    requires seen.request < |s.requests| && HasRow(s.rows, s.requests[seen.request].callId)
    ensures var t := ResumedState(s, seen, words);
      var k := FindRow(s.rows, s.requests[seen.request].callId);
      && RowsKept(s, t) && t.requests == s.requests && t.turn == s.turn && t.checkpoint == None
      && t.rows[k].status == RowCompleted
      && forall i :: 0 <= i < |s.rows| && i != k ==> t.rows[i] == s.rows[i]
  {
    hide DeferredRows, FindRow;
    var base := AnsweredRows(s, s.requests[seen.request], words);
    DeferredKeeps(base, seen.deferred, words);
    var t := ResumedState(s, seen, words);
    assert forall i :: 0 <= i < |base| ==> t.rows[i] == t.rows[..|base|][i];
  }

  lemma ResumeSpends(s: State, worker: nat, enabled: bool, seen: Checkpoint, words: QuestionWording, request: nat)
    requires Spent(s, request) || (CanResume(s, worker, enabled, seen) && seen.request == request)
    ensures Spent(AfterResume(s, worker, enabled, seen, words), request)
  {
    hide DeferredConflict, ResumedState, FindRow;
    var t := AfterResume(s, worker, enabled, seen, words);
    if CanResume(s, worker, enabled, seen) {
      ResumedRows(s, seen, words);
      FindKept(s.rows, t.rows, s.requests[request].callId);
    }
  }

  lemma StepSpends(s: State, e: Step, words: QuestionWording, request: nat)
    requires Spent(s, request) || Resumes(s, e, request)
    ensures Spent(Next(s, e, words), request)
  {
    hide CanResume, AfterResume, FindRow;
    match e
    case Resume(worker, enabled, seen) => ResumeSpends(s, worker, enabled, seen, words, request);
    case Park(_, _, _, _, _, _) => FindKept(s.rows, Next(s, e, words).rows, s.requests[request].callId);
    case AddRow(_) => FindKept(s.rows, Next(s, e, words).rows, s.requests[request].callId);
    case SetRow(_, _, _) => FindKept(s.rows, Next(s, e, words).rows, s.requests[request].callId);
    case _ =>
  }

  lemma SpentBlocks(s: State, e: Step, request: nat)
    requires Spent(s, request)
    ensures !Resumes(s, e, request)
  {
    hide DeferredConflict;
  }

  /** In every run a question is resumed at most once, even from checkpoints read long ago. */
  lemma {:induction false} ResumedAtMostOnce(s: State, steps: seq<Step>, words: QuestionWording, request: nat)
    ensures ResumeCount(s, steps, words, request) <= 1
    ensures ResumeCount(s, steps, words, request) == 1 ==> Spent(Run(s, steps, words), request)
  {
    hide Next, Spent, Resumes;
    if steps != [] {
      var n := |steps| - 1;
      var before := Run(s, steps[..n], words);
      ResumedAtMostOnce(s, steps[..n], words, request);
      if Spent(before, request) {
        SpentBlocks(before, steps[n], request);
        StepSpends(before, steps[n], words, request);
      } else if Resumes(before, steps[n], request) {
        StepSpends(before, steps[n], words, request);
      }
    }
  }

  // ---------------------------------------------------------------- a waiting turn can go on

  /** Until the turn ends, the checkpoint's question is the pending one while the turn waits and
      decided afterwards, and its row still awaits the answer. */
  predicate Parkable(s: State) {
    s.turn.status != TurnEnded ==>
      && (s.checkpoint.None? ==>
            s.turn.status != TurnWaiting && forall i :: 0 <= i < |s.requests| ==> s.requests[i].status != Pending)
      && (s.checkpoint.Some? ==>
            var r := s.checkpoint.value.request;
            && r < |s.requests|
            && RowIs(s.rows, s.requests[r].callId, RowAwaiting)
            && (if s.turn.status == TurnWaiting then s.requests[r].status == Pending
                else Resolved(s.requests[r].status))
            && forall i :: 0 <= i < |s.requests| && i != r ==> s.requests[i].status != Pending)
  }

  lemma ParkableAwaits(s: State, t: State)
    requires Parkable(s) && t.requests == s.requests && t.turn == s.turn && t.checkpoint == s.checkpoint
    requires s.turn.status != TurnEnded && s.checkpoint.Some? ==>
               RowIs(t.rows, s.requests[s.checkpoint.value.request].callId, RowAwaiting)
    ensures Parkable(t)
  {
    hide RowIs;
  }

  lemma ParkingIsParkable(s: State, worker: nat, call: ToolCall, live: seq<Message>, deferred: seq<ToolCall>,
                          round: nat, nextSeq: nat)
    requires Parkable(s) && ParkOutcome(s, worker, call, nextSeq) == Parked
    ensures Parkable(ParkedState(s, call, live, deferred, round, nextSeq))
  {
    var t := ParkedState(s, call, live, deferred, round, nextSeq);
    HasRowIs(s.rows, call.id);
    assert t.rows[|s.rows|].callId == call.id;
    hide FindFrom;
    assert FindRow(t.rows, call.id) == |s.rows| by { HasRowIs(t.rows, call.id); }
  }

  lemma AddedRowAwaits(s: State, row: ToolRow)
    requires Parkable(s)
    ensures Parkable(s.(rows := s.rows + [row]))
  {
    hide FindRow;
    if s.turn.status != TurnEnded && s.checkpoint.Some? {
      FindKept(s.rows, s.rows + [row], s.requests[s.checkpoint.value.request].callId);
      assert RowIs(s.rows + [row], s.requests[s.checkpoint.value.request].callId, RowAwaiting);
    }
    hide RowIs;
    ParkableAwaits(s, s.(rows := s.rows + [row]));
  }

  lemma SetRowAwaits(s: State, i: nat, row: ToolRow)
    requires Parkable(s) && i < |s.rows| && row.callId == s.rows[i].callId && !IsQuestionRow(s, row.callId)
    ensures Parkable(s.(rows := s.rows[i := row]))
  {
    hide FindRow;
    if s.turn.status != TurnEnded && s.checkpoint.Some? {
      FindKept(s.rows, s.rows[i := row], s.requests[s.checkpoint.value.request].callId);
    }
    ParkableAwaits(s, s.(rows := s.rows[i := row]));
  }

  lemma ResumeIsParkable(s: State, worker: nat, enabled: bool, seen: Checkpoint, words: QuestionWording)
    requires Parkable(s)
    ensures Parkable(AfterResume(s, worker, enabled, seen, words))
  {
    hide ResumedState, FindRow, DeferredConflict;
    if CanResume(s, worker, enabled, seen) {
      ResumedRows(s, seen, words);
    }
  }

  /** While a turn waits its question can be decided; once decided it can be resumed. */
  lemma StepIsParkable(s: State, e: Step, words: QuestionWording)
    requires Parkable(s)
    ensures Parkable(Next(s, e, words))
  {
    hide AfterResume, ParkOutcome, ParkedState, RowIs, FindRow, RowConflicts, IsQuestionRow;
    match e
    case Park(worker, call, live, deferred, round, nextSeq) =>
      if ParkOutcome(s, worker, call, nextSeq) == Parked {
        ParkingIsParkable(s, worker, call, live, deferred, round, nextSeq);
      }
    case Resume(worker, enabled, seen) => ResumeIsParkable(s, worker, enabled, seen, words);
    case AddRow(row) => AddedRowAwaits(s, row);
    case SetRow(i, status, content) =>
      if i < |s.rows| && !IsQuestionRow(s, s.rows[i].callId) {
        SetRowAwaits(s, i, s.rows[i].(status := status, content := content));
      }
    case _ =>
  }

  lemma {:induction false} RunIsParkable(s: State, steps: seq<Step>, words: QuestionWording)
    requires Parkable(s)
    ensures Parkable(Run(s, steps, words))
  {
    hide Parkable, Next;
    if steps != [] {
      RunIsParkable(s, steps[..|steps| - 1], words);
      StepIsParkable(Run(s, steps[..|steps| - 1], words), steps[|steps| - 1], words);
    }
  }

  /** So in every reachable state a live claim that finds the stored checkpoint resumes, exactly
      when the deferred calls have free and distinct ids. */
  lemma StoredCheckpointResumes(turn: TurnRow, steps: seq<Step>, words: QuestionWording, worker: nat)
    requires turn.status != TurnWaiting
    requires var s := Run(State(turn, [], [], None, []), steps, words);
      s.checkpoint.Some? && LiveClaim(s.turn, worker) && !s.turn.cancelRequested
    ensures var s := Run(State(turn, [], [], None, []), steps, words);
      CanResume(s, worker, true, s.checkpoint.value) <==> !DeferredConflict(s.rows, s.checkpoint.value.deferred)
  {
    hide Run, Next, DeferredConflict, RowIs;
    RunIsParkable(State(turn, [], [], None, []), steps, words);
  }

  lemma RunSnoc(s: State, steps: seq<Step>, e: Step, words: QuestionWording)
    ensures Run(s, steps + [e], words) == Next(Run(s, steps, words), e, words)
  {
    hide Next;
    LastOf(steps, e);
  }

  lemma OneStep(s: State, e: Step, words: QuestionWording)
    ensures Run(s, [e], words) == Next(s, e, words)
  {
    hide Next;
    RunSnoc(s, [], e, words);
    NilAppend([e]);
  }

  /** An example where they are not: two deferred calls share an id, so a question that was asked,
      answered and claimed again cannot be resumed. */
  lemma RepeatedDeferredIdBlocks(words: QuestionWording)
    ensures var call := ToolCall("d", "search", "");
      var start := State(TurnRow(TurnRunning, Some(0), true, false), [], [], None, []);
      var park := Park(0, ToolCall("q", words.tool, ""), [], [call, call], 0, 0);
      var s := Run(start, [park] + [Decide(0, Answered, "yes")] + [ClaimTurn(1)], words);
      && s.checkpoint == Some(Checkpoint(0, [], [call, call], 0))
      && s.requests == [QuestionRequest("q", Answered, "yes")]
      && LiveClaim(s.turn, 1) && !s.turn.cancelRequested && !CanResume(s, 1, true, s.checkpoint.value)
  {
    var call := ToolCall("d", "search", "");
    var start := State(TurnRow(TurnRunning, Some(0), true, false), [], [], None, []);
    var park, decide := Park(0, ToolCall("q", words.tool, ""), [], [call, call], 0, 0), Decide(0, Answered, "yes");
    var s := Run(start, [park] + [decide] + [ClaimTurn(1)], words);
    OneStep(start, park, words);
    RunSnoc(start, [park], decide, words);
    RunSnoc(start, [park] + [decide], ClaimTurn(1), words);
    assert [call, call][0].id == [call, call][1].id;
    assert ClashAt(s.rows, [call, call], 1);
  }

  // ---------------------------------------------------------------- ended turns

  predicate AnyPending(requests: seq<QuestionRequest>) {
    exists i :: 0 <= i < |requests| && requests[i].status == Pending
  }

  /** The turn ended with a question that nobody can decide any more. */
  predicate Stranded(s: State) {
    s.turn.status == TurnEnded && AnyPending(s.requests)
  }

  /** The connection changes under a turn that waits. */
  predicate Strands(s: State, e: Step) {
    e.ConnectionChanged? && s.turn.status == TurnWaiting
  }

  ghost predicate ConnectionStranded(s: State, steps: seq<Step>, words: QuestionWording) {
    exists k :: 0 <= k < |steps| && Strands(Run(s, steps[..k], words), steps[k])
  }

  /** No step reaches an ended turn's status, requests or checkpoint. */
  lemma EndedStays(s: State, e: Step, words: QuestionWording)
    requires s.turn.status == TurnEnded
    ensures var t := Next(s, e, words);
      t.turn.status == TurnEnded && t.requests == s.requests && t.checkpoint == s.checkpoint
  {
    hide FindRow, RowConflicts, IsQuestionRow, ParkedState, ResumedState, RequestConflicts, DeferredConflict;
  }

  lemma PendingIsWaiting(s: State)
    requires Parkable(s) && s.turn.status != TurnEnded
    ensures AnyPending(s.requests) <==> s.turn.status == TurnWaiting
  {
    hide RowIs;
    if s.checkpoint.Some? && s.turn.status == TurnWaiting {
      assert s.requests[s.checkpoint.value.request].status == Pending;
    }
  }

  lemma CancellingLeavesNone(s: State)
    ensures !AnyPending(QuestionsCancelled(s).requests)
  {
  }

  lemma ResumeKeepsTurn(s: State, worker: nat, enabled: bool, seen: Checkpoint, words: QuestionWording)
    ensures AfterResume(s, worker, enabled, seen, words).turn == s.turn
  {
    hide DeferredRows, DeferredConflict, RowIs, DeferredEvents;
  }

  /** Of all steps only a connection change strands a question. */
  lemma StepStrands(s: State, e: Step, words: QuestionWording)
    requires Parkable(s)
    ensures Stranded(Next(s, e, words)) <==> Stranded(s) || Strands(s, e)
  {
    if s.turn.status == TurnEnded {
      EndedStays(s, e, words);
      hide Next;
    } else {
      PendingIsWaiting(s);
      CancellingLeavesNone(s);
      hide AfterResume, ParkOutcome, RowIs, RowConflicts, IsQuestionRow, QuestionsCancelled, AnyPending, Parkable;
      match e
      case Resume(worker, enabled, seen) => ResumeKeepsTurn(s, worker, enabled, seen, words);
      case _ =>
    }
  }

  lemma {:induction false} RunStrands(s: State, steps: seq<Step>, words: QuestionWording)
    requires Parkable(s) && !Stranded(s)
    ensures Stranded(Run(s, steps, words)) <==> ConnectionStranded(s, steps, words)
  {
    hide Parkable, Next, Stranded, Strands;
    if steps != [] {
      var n := |steps| - 1;
      RunStrands(s, steps[..n], words);
      RunIsParkable(s, steps[..n], words);
      StepStrands(Run(s, steps[..n], words), steps[n], words);
      StrandedPrefix(s, steps, words);
    }
  }

  lemma StrandedPrefix(s: State, steps: seq<Step>, words: QuestionWording)
    requires steps != []
    ensures var n := |steps| - 1;
      ConnectionStranded(s, steps, words) <==>
      ConnectionStranded(s, steps[..n], words) || Strands(Run(s, steps[..n], words), steps[n])
  {
    hide Run, Strands;
    var n := |steps| - 1;
    forall k | 0 <= k < n ensures steps[..n][..k] == steps[..k] && steps[..n][k] == steps[k] {
      TakeTake(steps, k, n);
    }
  }

  /** So a question is pending exactly while its turn waits, or for ever once a connection change
      has failed the turn under it. */
  lemma PendingExactly(turn: TurnRow, steps: seq<Step>, words: QuestionWording)
    requires turn.status != TurnWaiting
    ensures var start := State(turn, [], [], None, []);
      var s := Run(start, steps, words);
      AnyPending(s.requests) <==> s.turn.status == TurnWaiting || ConnectionStranded(start, steps, words)
  {
    var start := State(turn, [], [], None, []);
    var s := Run(start, steps, words);
    assert Parkable(start) && !Stranded(start);
    hide Run, Next, ConnectionStranded;
    RunStrands(start, steps, words);
    RunIsParkable(start, steps, words);
    if s.turn.status != TurnEnded {
      PendingIsWaiting(s);
    }
  }

  /** The shortest such run: ask, and replace the connection. */
  lemma ConnectionChangeStrands(words: QuestionWording)
    ensures var start := State(TurnRow(TurnRunning, Some(0), true, false), [], [], None, []);
      var park := Park(0, ToolCall("q", words.tool, ""), [], [], 0, 0);
      var s := Run(start, [park] + [ConnectionChanged], words);
      && s.turn.status == TurnEnded && s.requests == [QuestionRequest("q", Pending, "")]
      && s.checkpoint == Some(Checkpoint(0, [], [], 0))
  {
    var start := State(TurnRow(TurnRunning, Some(0), true, false), [], [], None, []);
    var park := Park(0, ToolCall("q", words.tool, ""), [], [], 0, 0);
    OneStep(start, park, words);
    RunSnoc(start, [park], ConnectionChanged, words);
  }

  // ---------------------------------------------------------------- what a resume appends

  lemma {:induction false} DeferredAnswerIds(deferred: seq<ToolCall>, words: QuestionWording)
    ensures AnswerIds(DeferredMessages(deferred, words)) == IdsOf(deferred)
      && AllTools(DeferredMessages(deferred, words))
  {
    if deferred != [] {
      var earlier, last := deferred[..|deferred| - 1], deferred[|deferred| - 1];
      var m := ToolMessage(words.deferral(last), last.id, last.name);
      DeferredAnswerIds(earlier, words);
      AnswerIdsAppend(DeferredMessages(earlier, words), [m]);
      OneAnswer(m);
    }
  }

  /** The question and each deferred call are answered, once each and in order. */
  lemma ResumeAnswers(request: QuestionRequest, deferred: seq<ToolCall>, words: QuestionWording)
    ensures var added := [AnswerMessage(request, words)] + DeferredMessages(deferred, words);
      AllTools(added) && AnswerIds(added) == [request.callId] + IdsOf(deferred) && |added| == 1 + |deferred|
  {
    var answer := AnswerMessage(request, words);
    DeferredAnswerIds(deferred, words);
    AnswerIdsAppend([answer], DeferredMessages(deferred, words));
    OneAnswer(answer);
    DeferredLength(deferred, words);
  }

  lemma {:induction false} DeferredLength(deferred: seq<ToolCall>, words: QuestionWording)
    ensures |DeferredMessages(deferred, words)| == |deferred|
  {
    if deferred != [] {
      DeferredLength(deferred[..|deferred| - 1], words);
    }
  }

  /** A parked transcript ends in a round whose earlier calls are answered; the resume answers the
      rest of that round, so the resumed request is paired. */
  lemma ResumedIsPaired(s: State, seen: Checkpoint, words: QuestionWording,
                        history: seq<Message>, round: Message, earlier: seq<Message>, question: ToolCall)
    requires seen.request < |s.requests| && s.requests[seen.request].callId == question.id
    requires Paired(history) && round.role.RoleAssistant? && AllTools(earlier)
    requires seen.live == history + ([round] + earlier)
    requires IdsOf(round.toolCalls) == AnswerIds(earlier) + ([question.id] + IdsOf(seen.deferred))
    ensures Paired(ResumedTurn(s, seen, words).live)
  {
    hide DeferredMessages, AnswerMessage, Paired, PairedFrom, AllTools, AnswerIds, IdsOf;
    var request := s.requests[seen.request];
    var added := [AnswerMessage(request, words)] + DeferredMessages(seen.deferred, words);
    ResumeAnswers(request, seen.deferred, words);
    RoundClosed(history, round, earlier, added, TextMessage(RoleUser, words.resumePrompt));
  }

  lemma RoundClosed(history: seq<Message>, round: Message, earlier: seq<Message>, added: seq<Message>, prompt: Message)
    requires Paired(history) && round.role.RoleAssistant? && AllTools(earlier) && AllTools(added)
    requires IdsOf(round.toolCalls) == AnswerIds(earlier) + AnswerIds(added)
    requires prompt.role.RoleUser?
    ensures Paired(history + ([round] + earlier) + added + [prompt])
  {
    var block := [round] + (earlier + added);
    RoundIsBlock(round, earlier, added);
    PromptIsBlock(prompt);
    hide *;
    PairedJoin(history, block);
    PairedJoin(history + block, [prompt]);
    Regrouped(history, [round], earlier, added);
  }

  lemma Regrouped(a: seq<Message>, b: seq<Message>, c: seq<Message>, d: seq<Message>)
    ensures a + (b + c) + d == a + (b + (c + d))
  {
  }

  lemma PromptIsBlock(prompt: Message)
    requires prompt.role.RoleUser?
    ensures Paired([prompt])
  {
    hide Paired;
    PairedPlain(prompt);
  }

  lemma RoundIsBlock(round: Message, earlier: seq<Message>, added: seq<Message>)
    requires round.role.RoleAssistant? && AllTools(earlier) && AllTools(added)
    requires IdsOf(round.toolCalls) == AnswerIds(earlier) + AnswerIds(added)
    ensures Paired([round] + (earlier + added))
  {
    hide AnswerIds, IdsOf, Paired;
    AnswerIdsAppend(earlier, added);
    PairedBlock(round, earlier + added);
  }

  // ---------------------------------------------------------------- from parking to resuming

  /** What a turn that parked keeps for as long as its checkpoint stands. */
  predicate StillParked(parked: State, now: State, request: nat, row: nat) {
    && now.checkpoint == parked.checkpoint
    && row < |parked.rows| && RowsKept(parked, now) && now.rows[row] == parked.rows[row]
    && parked.events <= now.events
    && request < |parked.requests| <= |now.requests|
    && now.requests[request].callId == parked.requests[request].callId == parked.rows[row].callId
  }

  lemma StepKeepsParked(parked: State, s: State, e: Step, words: QuestionWording, request: nat, row: nat)
    requires StillParked(parked, s, request, row) && s.checkpoint.Some? && Next(s, e, words).checkpoint.Some?
    ensures StillParked(parked, Next(s, e, words), request, row)
  {
    hide FindRow, RowConflicts, RequestConflicts, DeferredConflict, DeferredRows, DeferredEvents;
    match e
    case Resume(worker, enabled, seen) =>
      assert Next(s, e, words) == s;
    case SetRow(i, status, content) =>
      if i == row {
        assert IsQuestionRow(s, s.rows[row].callId);
      }
    case _ =>
  }

  lemma {:induction false} RunKeepsParked(parked: State, steps: seq<Step>, words: QuestionWording,
                                          request: nat, row: nat)
    requires StillParked(parked, parked, request, row)
    requires forall k :: 0 <= k <= |steps| ==> Run(parked, steps[..k], words).checkpoint.Some?
    ensures StillParked(parked, Run(parked, steps, words), request, row)
  {
    hide StillParked, Next;
    if steps != [] {
      var n := |steps| - 1;
      forall k | 0 <= k <= n ensures steps[..n][..k] == steps[..k] {
      }
      RunKeepsParked(parked, steps[..n], words, request, row);
      TakeAll(steps);
      assert Run(parked, steps[..n + 1], words).checkpoint.Some?;
      RunChecked(parked, steps, words);
      StepKeepsParked(parked, Run(parked, steps[..n], words), steps[n], words, request, row);
    }
  }

  lemma RunChecked(s: State, steps: seq<Step>, words: QuestionWording)
    requires steps != []
    ensures Run(s, steps, words) == Next(Run(s, steps[..|steps| - 1], words), steps[|steps| - 1], words)
  {
    hide Next;
  }

  lemma {:induction false} DeferredMessageAt(deferred: seq<ToolCall>, words: QuestionWording, i: nat)
    requires i < |deferred|
    ensures i < |DeferredMessages(deferred, words)|
    ensures DeferredMessages(deferred, words)[i]
         == ToolMessage(words.deferral(deferred[i]), deferred[i].id, deferred[i].name)
  {
    DeferredLength(deferred, words);
    DeferredLength(deferred[..|deferred| - 1], words);
    if i < |deferred| - 1 {
      DeferredMessageAt(deferred[..|deferred| - 1], words, i);
    }
  }

  lemma {:induction false} DeferredEventAt(deferred: seq<ToolCall>, i: nat)
    requires i < |deferred|
    ensures |DeferredEvents(deferred)| == 2 * |deferred|
    ensures DeferredEvents(deferred)[2 * i] == ToolCallEvent(deferred[i].id)
    ensures DeferredEvents(deferred)[2 * i + 1] == ToolResultEvent(deferred[i].id, false)
  {
    var n := |deferred| - 1;
    if n > 0 {
      DeferredEventAt(deferred[..n], if i < n then i else 0);
    }
  }

  /** The failed row of one deferred call, at the next number after all rows before it. */
  predicate DeferredRowStands(rows: seq<ToolRow>, at: nat, call: ToolCall, words: QuestionWording) {
    && at < |rows| && rows[at] == ToolRow(rows[at].seqNo, call.id, call.name, RowFailed, words.deferral(call))
    && (forall k :: 0 <= k < at ==> rows[k].seqNo < rows[at].seqNo)
    && (rows[at].seqNo == 0 || exists k :: 0 <= k < at && rows[k].seqNo == rows[at].seqNo - 1)
  }

  lemma {:induction false} NextSeqIsLeast(rows: seq<ToolRow>)
    ensures NextSeq(rows) == 0 || exists i :: 0 <= i < |rows| && rows[i].seqNo == NextSeq(rows) - 1
  {
    if rows != [] {
      var n := |rows| - 1;
      NextSeqIsLeast(rows[..n]);
      assert rows[n].seqNo < NextSeq(rows);
      if NextSeq(rows) == NextSeq(rows[..n]) && NextSeq(rows) > 0 {
        var i :| 0 <= i < n && rows[..n][i].seqNo == NextSeq(rows) - 1;
        assert rows[i].seqNo == NextSeq(rows) - 1;
      }
    }
  }

  lemma {:induction false} DeferredRowAt(rows: seq<ToolRow>, deferred: seq<ToolCall>, words: QuestionWording, i: nat)
    requires i < |deferred|
    ensures DeferredRowStands(DeferredRows(rows, deferred, words), |rows| + i, deferred[i], words)
  {
    hide NextSeq;
    var n := |deferred| - 1;
    var before := DeferredRows(rows, deferred[..n], words);
    DeferredKeeps(rows, deferred[..n], words);
    if i < n {
      DeferredRowAt(rows, deferred[..n], words, i);
      RowStandsLater(before, DeferredRows(rows, deferred, words), |rows| + i, deferred[i], words);
    } else {
      NewRowStands(before, deferred[n], words);
    }
  }

  lemma NewRowStands(before: seq<ToolRow>, call: ToolCall, words: QuestionWording)
    ensures var row := ToolRow(NextSeq(before), call.id, call.name, RowFailed, words.deferral(call));
      DeferredRowStands(before + [row], |before|, call, words)
  {
    hide NextSeq;
    NextSeqIsLeast(before);
    var rows := before + [ToolRow(NextSeq(before), call.id, call.name, RowFailed, words.deferral(call))];
    assert forall k :: 0 <= k < |before| ==> rows[k] == before[k];
  }

  lemma RowStandsLater(rows: seq<ToolRow>, more: seq<ToolRow>, at: nat, call: ToolCall, words: QuestionWording)
    requires DeferredRowStands(rows, at, call, words) && rows <= more
    ensures DeferredRowStands(more, at, call, words)
  {
    assert forall k :: 0 <= k < |rows| ==> more[k] == rows[k];
  }

  /** The transcript a resumed turn goes on with: what was live when it parked, the answer, one
      deferral for each deferred call in order, and the prompt. */
  predicate GoesOn(r: Resuming, request: QuestionRequest, live: seq<Message>, deferred: seq<ToolCall>, round: nat,
                   words: QuestionWording)
  {
    && r.Resumed? && r.nextRound == round + 1
    && |r.live| == |live| + 1 + |deferred| + 1 && r.live[..|live|] == live
    && r.live[|live|] == ToolMessage(words.answer(request), request.callId, words.tool)
    && (forall i :: 0 <= i < |deferred| ==>
          r.live[|live| + 1 + i] == ToolMessage(words.deferral(deferred[i]), deferred[i].id, deferred[i].name))
    && r.live[|r.live| - 1] == TextMessage(RoleUser, words.resumePrompt)
    && r.added == r.live[|live|..|r.live| - 1]
  }

  lemma ResumedGoesOn(s: State, seen: Checkpoint, words: QuestionWording)
    requires seen.request < |s.requests|
    ensures GoesOn(ResumedTurn(s, seen, words), s.requests[seen.request], seen.live, seen.deferred, seen.round, words)
  {
    hide DeferredMessages;
    var deferred := DeferredMessages(seen.deferred, words);
    DeferredLength(seen.deferred, words);
    forall i | 0 <= i < |seen.deferred|
      ensures deferred[i] == ToolMessage(words.deferral(seen.deferred[i]), seen.deferred[i].id, seen.deferred[i].name)
    {
      DeferredMessageAt(seen.deferred, words, i);
    }
  }

  /** What a committed resume writes, row by row and event by event. */
  predicate ResumeWrites(s: State, t: State, row: nat, request: QuestionRequest, deferred: seq<ToolCall>,
                         words: QuestionWording)
  {
    && WritesRows(s.rows, t.rows, row, request, deferred, words) && WritesEvents(s.events, t.events, request, deferred)
    && t.turn == s.turn && t.requests == s.requests && t.checkpoint == None
  }

  predicate WritesRows(before: seq<ToolRow>, after: seq<ToolRow>, row: nat, request: QuestionRequest,
                       deferred: seq<ToolCall>, words: QuestionWording)
  {
    && row < |before| && |after| == |before| + |deferred|
    && after[row] == before[row].(status := RowCompleted, content := words.answer(request))
    && (forall i :: 0 <= i < |before| && i != row ==> after[i] == before[i])
    && (forall i :: 0 <= i < |deferred| ==> DeferredRowStands(after, |before| + i, deferred[i], words))
  }

  predicate WritesEvents(before: seq<TurnEvent>, after: seq<TurnEvent>, request: QuestionRequest,
                         deferred: seq<ToolCall>)
  {
    && |after| == |before| + 1 + 2 * |deferred| && after[..|before|] == before
    && after[|before|] == ToolResultEvent(request.callId, true)
    && (forall i :: 0 <= i < |deferred| ==>
          && after[|before| + 1 + 2 * i] == ToolCallEvent(deferred[i].id)
          && after[|before| + 2 + 2 * i] == ToolResultEvent(deferred[i].id, false))
  }

  lemma ResumedWrites(s: State, seen: Checkpoint, words: QuestionWording)
    requires seen.request < |s.requests| && HasRow(s.rows, s.requests[seen.request].callId)
    ensures var request := s.requests[seen.request];
      ResumeWrites(s, ResumedState(s, seen, words), FindRow(s.rows, request.callId), request, seen.deferred, words)
  {
    hide DeferredRows, DeferredEvents, FindRow, WritesRows, WritesEvents;
    RowsWritten(s, s.requests[seen.request], seen.deferred, words);
    EventsWritten(s.events, s.requests[seen.request], seen.deferred);
  }

  lemma RowsWritten(s: State, request: QuestionRequest, deferred: seq<ToolCall>, words: QuestionWording)
    requires HasRow(s.rows, request.callId)
    ensures var after := DeferredRows(AnsweredRows(s, request, words), deferred, words);
      WritesRows(s.rows, after, FindRow(s.rows, request.callId), request, deferred, words)
  {
    hide DeferredRows, FindRow, DeferredRowStands;
    var base := AnsweredRows(s, request, words);
    var after := DeferredRows(base, deferred, words);
    DeferredKeeps(base, deferred, words);
    assert forall i :: 0 <= i < |base| ==> after[i] == after[..|base|][i];
    forall i | 0 <= i < |deferred| ensures DeferredRowStands(after, |s.rows| + i, deferred[i], words) {
      DeferredRowAt(base, deferred, words, i);
    }
  }

  lemma EventsWritten(before: seq<TurnEvent>, request: QuestionRequest, deferred: seq<ToolCall>)
    ensures var after := before + [ToolResultEvent(request.callId, true)] + DeferredEvents(deferred);
      WritesEvents(before, after, request, deferred)
  {
    hide DeferredEvents;
    var events := DeferredEvents(deferred);
    var after := before + [ToolResultEvent(request.callId, true)] + events;
    EventCount(deferred);
    forall i | 0 <= i < |deferred|
      ensures events[2 * i] == ToolCallEvent(deferred[i].id)
      ensures events[2 * i + 1] == ToolResultEvent(deferred[i].id, false)
    {
      DeferredEventAt(deferred, i);
    }
    assert forall i :: 0 <= i < |events| ==> after[|before| + 1 + i] == events[i];
  }

  lemma EventCount(deferred: seq<ToolCall>)
    ensures |DeferredEvents(deferred)| == 2 * |deferred|
  {
    if deferred != [] {
      DeferredEventAt(deferred, 0);
    }
  }

  /** Parking is a round trip. Whatever happens to a parked turn while its checkpoint stands, the
      resume that commits goes on from the very transcript, deferred calls and round it was parked
      with, and completes the row of the question it was parked on. */
  lemma ParkRoundTrip(s: State, worker: nat, call: ToolCall, live: seq<Message>, deferred: seq<ToolCall>, round: nat,
                      nextSeq: nat, steps: seq<Step>, words: QuestionWording, claimer: nat)
    requires ParkOutcome(s, worker, call, nextSeq) == Parked
    requires var parked := Next(s, Park(worker, call, live, deferred, round, nextSeq), words);
      && (forall k :: 0 <= k <= |steps| ==> Run(parked, steps[..k], words).checkpoint.Some?)
      && Run(parked, steps, words).checkpoint.Some?
      && CanResume(Run(parked, steps, words), claimer, true, Run(parked, steps, words).checkpoint.value)
    ensures var parked := Next(s, Park(worker, call, live, deferred, round, nextSeq), words);
      var now := Run(parked, steps, words);
      var seen := now.checkpoint.value;
      var after := Next(now, Resume(claimer, true, seen), words);
      && |s.requests| < |now.requests| && now.requests[|s.requests|].callId == call.id
      && (var request := now.requests[|s.requests|];
          && GoesOn(ResumeOutcome(now, claimer, true, seen, words), request, live, deferred, round, words)
          && ResumeWrites(now, after, |s.rows|, request, deferred, words)
          && after.rows[|s.rows|] == ToolRow(nextSeq, call.id, call.name, RowCompleted, words.answer(request)))
      && s.events + [ToolCallEvent(call.id), QuestionRequired(|s.requests|)] <= now.events
  {
    var parked := Next(s, Park(worker, call, live, deferred, round, nextSeq), words);
    var now := Run(parked, steps, words);
    ParkedKeeps(s, worker, call, live, deferred, round, nextSeq, words);
    hide *;
    RunKeepsParked(parked, steps, words, |s.requests|, |s.rows|);
    ResumesWhatWasParked(s, parked, now, worker, call, live, deferred, round, nextSeq, words, claimer);
  }

  lemma ParkedKeeps(s: State, worker: nat, call: ToolCall, live: seq<Message>, deferred: seq<ToolCall>, round: nat,
                    nextSeq: nat, words: QuestionWording)
    requires ParkOutcome(s, worker, call, nextSeq) == Parked
    ensures var parked := Next(s, Park(worker, call, live, deferred, round, nextSeq), words);
      && StillParked(parked, parked, |s.requests|, |s.rows|)
      && parked.checkpoint == Some(Checkpoint(|s.requests|, live, deferred, round))
      && parked.rows == s.rows + [ToolRow(nextSeq, call.id, call.name, RowAwaiting, "")]
      && parked.events == s.events + [ToolCallEvent(call.id), QuestionRequired(|s.requests|)]
      && FindRow(parked.rows, call.id) == |s.rows|
  {
    HasRowIs(s.rows, call.id);
    hide HasRow, FindFrom;
  }

  lemma ResumesWhatWasParked(s: State, parked: State, now: State, worker: nat, call: ToolCall, live: seq<Message>,
                             deferred: seq<ToolCall>, round: nat, nextSeq: nat, words: QuestionWording, claimer: nat)
    requires StillParked(parked, now, |s.requests|, |s.rows|)
    requires parked.checkpoint == Some(Checkpoint(|s.requests|, live, deferred, round))
    requires parked.rows == s.rows + [ToolRow(nextSeq, call.id, call.name, RowAwaiting, "")]
    requires parked.events == s.events + [ToolCallEvent(call.id), QuestionRequired(|s.requests|)]
    requires FindRow(parked.rows, call.id) == |s.rows| && CanResume(now, claimer, true, now.checkpoint.value)
    ensures var seen := now.checkpoint.value;
      var after := Next(now, Resume(claimer, true, seen), words);
      && |s.requests| < |now.requests| && now.requests[|s.requests|].callId == call.id
      && (var request := now.requests[|s.requests|];
          && GoesOn(ResumeOutcome(now, claimer, true, seen, words), request, live, deferred, round, words)
          && ResumeWrites(now, after, |s.rows|, request, deferred, words)
          && after.rows[|s.rows|] == ToolRow(nextSeq, call.id, call.name, RowCompleted, words.answer(request)))
      && s.events + [ToolCallEvent(call.id), QuestionRequired(|s.requests|)] <= now.events
  {
    hide FindRow, DeferredConflict, ResumedState, ResumedTurn, GoesOn;
    FindKept(parked.rows, now.rows, call.id);
    ResumedGoesOn(now, now.checkpoint.value, words);
    ResumedWrites(now, now.checkpoint.value, words);
  }

  /** A decision and its reply are final: whatever follows, it is what a resume answers with. */
  lemma {:induction false} DecisionStays(s: State, request: nat, decision: RequestStatus, reply: string,
                                         steps: seq<Step>, words: QuestionWording)
    requires request < |s.requests| && s.requests[request].status == Pending && s.turn.status == TurnWaiting
    requires decision == Answered || decision == Skipped
    ensures var now := Run(Next(s, Decide(request, decision, reply), words), steps, words);
      request < |now.requests| && now.requests[request] == QuestionRequest(s.requests[request].callId, decision, reply)
    decreases |steps|
  {
    if steps != [] {
      var n := |steps| - 1;
      DecisionStays(s, request, decision, reply, steps[..n], words);
      hide *;
      RunChecked(Next(s, Decide(request, decision, reply), words), steps, words);
      StepKeepsDecided(Run(Next(s, Decide(request, decision, reply), words), steps[..n], words), steps[n], request,
        words);
    }
  }

  /** A turn parks exactly while its claim is live and not cancelled, with a free row, no question
      pending or asked for this call, and no checkpoint; a taken row, question or checkpoint is an
      error even when the claim is lost. */
  lemma ParksExactly(s: State, worker: nat, call: ToolCall, nextSeq: nat)
    ensures var taken :=
        || (exists i :: 0 <= i < |s.rows| && (s.rows[i].seqNo == nextSeq || s.rows[i].callId == call.id))
        || (exists i :: 0 <= i < |s.requests| && (s.requests[i].callId == call.id || s.requests[i].status == Pending))
        || s.checkpoint.Some?;
      var live := s.turn.status == TurnRunning && s.turn.owner == Some(worker) && s.turn.leaseLive;
      ParkOutcome(s, worker, call, nextSeq) ==
      if taken then ParkError else if live && !s.turn.cancelRequested then Parked else LostClaim
  {
  }

  /** Only the first decision counts, and it queues the turn. */
  lemma DecidesOnce(s: State, request: nat, decision: RequestStatus, reply: string, second: RequestStatus,
                    late: string, words: QuestionWording)
    requires request < |s.requests| && s.requests[request].status == Pending && s.turn.status == TurnWaiting
    requires decision == Answered || decision == Skipped
    ensures var t := Next(s, Decide(request, decision, reply), words);
      && t.turn == TurnRow(TurnQueued, None, false, s.turn.cancelRequested)
      && t.rows == s.rows && t.checkpoint == s.checkpoint && t.events == s.events + [QuestionResolved(request)]
      && (forall i :: 0 <= i < |s.requests| && i != request ==> t.requests[i] == s.requests[i])
      && Next(t, Decide(request, second, late), words) == t
    ensures Next(s, Decide(request, Cancelled, late), words) == s == Next(s, Decide(request, Pending, late), words)
  {
  }

  lemma StepKeepsDecided(s: State, e: Step, request: nat, words: QuestionWording)
    requires request < |s.requests| && s.requests[request].status != Pending
    ensures var t := Next(s, e, words);
      request < |t.requests| && t.requests[request] == s.requests[request]
  {
    hide FindRow, RowConflicts, RequestConflicts, DeferredConflict, DeferredRows, DeferredEvents, IsQuestionRow;
  }

  // ---------------------------------------------------------------- changing hands and giving up

  /** A turn changes hands with all it has: whether its worker gives it back or dies, whoever claims
      it next finds rows, question and checkpoint as they were. */
  lemma TurnChangesHands(s: State, worker: nat, next: nat, words: QuestionWording)
    requires LiveClaim(s.turn, worker)
    ensures Run(s, [Requeue(worker)] + [ClaimTurn(next)], words) == s.(turn := s.turn.(owner := Some(next)))
    ensures Run(s, [LeaseLapses] + [Recover(true)] + [ClaimTurn(next)], words)
         == s.(turn := s.turn.(owner := Some(next)))
    ensures Next(s, Recover(true), words) == s == Next(s, Recover(false), words) == Next(s, ClaimTurn(next), words)
    ensures next != worker ==> Next(s, Requeue(next), words) == s == Next(s, FinishTurn(next), words)
  {
    OneStep(s, Requeue(worker), words);
    RunSnoc(s, [Requeue(worker)], ClaimTurn(next), words);
    OneStep(s, LeaseLapses, words);
    RunSnoc(s, [LeaseLapses], Recover(true), words);
    RunSnoc(s, [LeaseLapses] + [Recover(true)], ClaimTurn(next), words);
    hide QuestionsCancelled;
  }

  /** A connection change fails a waiting turn, with nothing else of it, and no other turn. */
  lemma ConnectionChangeFails(s: State, words: QuestionWording)
    ensures Next(s, ConnectionChanged, words) ==
      if s.turn.status == TurnWaiting then s.(turn := TurnRow(TurnEnded, None, false, s.turn.cancelRequested)) else s
  {
  }

  /** A turn that is not requeued after its lease lapsed ends, and its question with it. */
  lemma LostTurnEnds(s: State, words: QuestionWording)
    requires s.turn.status == TurnRunning && !s.turn.leaseLive
    ensures var t := Next(s, Recover(false), words);
      && t.turn == s.turn.(status := TurnEnded, owner := None) && t.rows == s.rows && GivesUp(s, t)
  {
    CancellingGivesUp(s, Next(s, Recover(false), words).turn);
    hide GivesUp, CancelEvents;
  }

  predicate PendingResolved(requests: seq<QuestionRequest>, e: TurnEvent) {
    e.QuestionResolved? && e.request < |requests| && requests[e.request].status == Pending
  }

  predicate Earlier(a: TurnEvent, b: TurnEvent) {
    a.QuestionResolved? && b.QuestionResolved? && a.request < b.request
  }

  /** One event for each pending question, in their order. */
  ghost predicate ResolvesPending(requests: seq<QuestionRequest>, events: seq<TurnEvent>) {
    && (forall k :: 0 <= k < |events| ==> PendingResolved(requests, events[k]))
    && (forall i :: 0 <= i < |requests| && requests[i].status == Pending ==> QuestionResolved(i) in events)
    && (forall j, k :: 0 <= j < k < |events| ==> Earlier(events[j], events[k]))
  }

  /** Whatever was pending is cancelled, with one event for each in order, and nothing is left to
      resume from. */
  ghost predicate GivesUp(s: State, t: State) {
    && t.checkpoint == None && |t.requests| == |s.requests|
    && (forall i :: 0 <= i < |s.requests| ==>
          t.requests[i] == if s.requests[i].status == Pending then s.requests[i].(status := Cancelled)
                           else s.requests[i])
    && s.events <= t.events && ResolvesPending(s.requests, t.events[|s.events|..])
  }

  lemma {:induction false} CancelEventsAre(requests: seq<QuestionRequest>)
    ensures ResolvesPending(requests, CancelEvents(requests))
  {
    hide ResolvesPending;
    if requests == [] {
      NothingResolved();
    } else {
      CancelEventsAre(requests[..|requests| - 1]);
      OneMoreResolved(requests, CancelEvents(requests[..|requests| - 1]));
    }
  }

  lemma NothingResolved()
    ensures ResolvesPending([], [])
  {
  }

  lemma OneMoreResolved(requests: seq<QuestionRequest>, before: seq<TurnEvent>)
    requires requests != [] && ResolvesPending(requests[..|requests| - 1], before)
    ensures var n := |requests| - 1;
      ResolvesPending(requests, before + if requests[n].status == Pending then [QuestionResolved(n)] else [])
  {
    var n := |requests| - 1;
    var events := before + if requests[n].status == Pending then [QuestionResolved(n)] else [];
    forall k | 0 <= k < |before| ensures PendingResolved(requests, before[k]) && before[k].request < n {
      assert PendingResolved(requests[..n], before[k]);
    }
    if requests[n].status == Pending {
      assert events[|before|] == QuestionResolved(n);
    }
    forall i | 0 <= i < n && requests[i].status == Pending ensures QuestionResolved(i) in events {
      assert requests[..n][i] == requests[i];
    }
  }

  lemma CancellingGivesUp(s: State, turn: TurnRow)
    ensures GivesUp(s, QuestionsCancelled(s).(turn := turn))
  {
    hide CancelEvents, ResolvesPending;
    CancelEventsAre(s.requests);
    var t := QuestionsCancelled(s).(turn := turn);
    assert t.events[|s.events|..] == CancelEvents(s.requests);
  }

  /** A member's cancellation gives the question up at once and ends any turn that no worker runs. */
  lemma CancelGivesUp(s: State, words: QuestionWording)
    requires s.turn.status != TurnEnded
    ensures var t := Next(s, CancelTurn, words);
      && GivesUp(s, t) && t.rows == s.rows && t.turn.cancelRequested
      && t.turn.status == (if s.turn.status == TurnRunning then TurnRunning else TurnEnded)
      && (s.turn.status == TurnRunning ==> t.turn == s.turn.(cancelRequested := true))
      && (s.turn.status != TurnRunning ==> t.turn.owner == None && !t.turn.leaseLive)
  {
    CancellingGivesUp(s, Next(s, CancelTurn, words).turn);
    hide GivesUp, CancelEvents;
  }

  lemma StepKeepsCancelled(s: State, e: Step, words: QuestionWording)
    requires s.turn.cancelRequested
    ensures Next(s, e, words).turn.cancelRequested
    ensures e.Park? || e.Resume? ==> Next(s, e, words) == s
  {
    hide QuestionsCancelled, RowConflicts, RequestConflicts, IsQuestionRow, ResumedState;
    GivingUpKeepsTurn(s);
  }

  lemma GivingUpKeepsTurn(s: State)
    ensures QuestionsCancelled(s).turn == s.turn
  {
    hide CancelEvents;
  }

  /** From then on nothing parks and nothing resumes, in any run. */
  lemma {:induction false} CancelledForGood(s: State, steps: seq<Step>, e: Step, words: QuestionWording)
    requires s.turn.cancelRequested && (e.Park? || e.Resume?)
    ensures Run(s, steps, words).turn.cancelRequested
    ensures Next(Run(s, steps, words), e, words) == Run(s, steps, words)
    ensures e.Resume? ==> ResumeOutcome(Run(s, steps, words), e.worker, e.enabled, e.seen, words) == StopRaced
  {
    hide Next;
    if steps != [] {
      CancelledForGood(s, steps[..|steps| - 1], e, words);
      StepKeepsCancelled(Run(s, steps[..|steps| - 1], words), steps[|steps| - 1], words);
    }
    StepKeepsCancelled(Run(s, steps, words), e, words);
  }

  /** A resume that may not go on: past its claim it writes nothing; with questions switched off or
      an undecided question it gives up; without the request it only drops its checkpoint. */
  lemma RefusedResume(s: State, worker: nat, enabled: bool, seen: Checkpoint, words: QuestionWording)
    requires !CanResume(s, worker, enabled, seen)
    ensures var t := Next(s, Resume(worker, enabled, seen), words);
      if !LiveClaim(s.turn, worker) || s.turn.cancelRequested then t == s
      else if enabled && seen.request >= |s.requests| then t == s.(checkpoint := None)
      else if enabled && (s.requests[seen.request].status == Answered || s.requests[seen.request].status == Skipped)
      then t == s
      else t.turn == s.turn && t.rows == s.rows && GivesUp(s, t)
    ensures var r := ResumeOutcome(s, worker, enabled, seen, words);
      r == if s.turn.cancelRequested then StopRaced else ResumeError
  {
    CancellingGivesUp(s, s.turn);
    hide GivesUp, CancelEvents, DeferredConflict, RowIs, ResumedState, CancelledRequests;
  }
}
