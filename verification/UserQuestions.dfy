/** Parking a turn on a user question and resuming it (internal/aichatworker/user_question.go,
    internal/db/queries/ai_user_questions.sql, internal/app/ai_user_questions.go). */
module UserQuestions {
  import opened Options
  import opened Chat
  import opened Seqs
  import opened Transcript

  // ---------------------------------------------------------------- one turn's rows

  datatype TurnStatus = TurnQueued | TurnRunning | TurnWaiting | TurnEnded

  datatype TurnRow = TurnRow(status: TurnStatus, owner: Option<nat>, leaseLive: bool, cancelRequested: bool)

  datatype RowStatus = RowAwaiting | RowRunning | RowCompleted | RowFailed

  datatype ToolRow = ToolRow(seqNo: nat, callId: string, name: string, status: RowStatus, content: string)

  datatype RequestStatus = Pending | Answered | Skipped | Cancelled

  datatype QuestionRequest = QuestionRequest(callId: string, status: RequestStatus, reply: string)

  datatype Checkpoint = Checkpoint(request: nat, live: seq<Message>, deferred: seq<ToolCall>, round: nat)

  datatype TurnEvent =
    | ToolCallEvent(callId: string)
    | ToolResultEvent(callId: string, completed: bool)
    | QuestionRequired(request: nat)
    | QuestionResolved(request: nat)

  datatype State = State(
    turn: TurnRow,
    rows: seq<ToolRow>,
    requests: seq<QuestionRequest>,
    checkpoint: Option<Checkpoint>,
    events: seq<TurnEvent>)

  /** The question tool's name and the texts of results and of the resume prompt. */
  datatype QuestionWording = QuestionWording(
    tool: string, answer: QuestionRequest -> string, deferral: ToolCall -> string, resumePrompt: string)

  predicate LiveClaim(turn: TurnRow, worker: nat) {
    turn.status == TurnRunning && turn.owner == Some(worker) && turn.leaseLive
  }

  // ---------------------------------------------------------------- tool rows

  function FindRow(rows: seq<ToolRow>, callId: string): (i: nat)
    ensures i <= |rows| && (i < |rows| ==> rows[i].callId == callId)
    ensures forall k :: 0 <= k < i ==> rows[k].callId != callId
  {
    FindFrom(rows, callId, 0)
  }

  function FindFrom(rows: seq<ToolRow>, callId: string, from: nat): (i: nat)
    requires from <= |rows|
    ensures from <= i <= |rows| && (i < |rows| ==> rows[i].callId == callId)
    ensures forall k :: from <= k < i ==> rows[k].callId != callId
    decreases |rows| - from
  {
    if from == |rows| || rows[from].callId == callId then from else FindFrom(rows, callId, from + 1)
  }

  predicate HasRow(rows: seq<ToolRow>, callId: string) {
    FindRow(rows, callId) < |rows|
  }

  predicate RowIs(rows: seq<ToolRow>, callId: string, status: RowStatus) {
    HasRow(rows, callId) && rows[FindRow(rows, callId)].status == status
  }

  /** The next free sequence number: one past the largest. */
  function NextSeq(rows: seq<ToolRow>): (n: nat)
    ensures forall i :: 0 <= i < |rows| ==> rows[i].seqNo < n
  {
    if rows == [] then 0
    else
      var earlier, last := NextSeq(rows[..|rows| - 1]), rows[|rows| - 1].seqNo;
      if last + 1 > earlier then last + 1 else earlier
  }

  /** The table's unique keys. */
  predicate RowConflicts(rows: seq<ToolRow>, seqNo: nat, callId: string) {
    exists i :: 0 <= i < |rows| && (rows[i].seqNo == seqNo || rows[i].callId == callId)
  }

  predicate RequestConflicts(requests: seq<QuestionRequest>, callId: string) {
    exists i :: 0 <= i < |requests| && (requests[i].callId == callId || requests[i].status == Pending)
  }

  // ---------------------------------------------------------------- cancellation

  function CancelledRequests(requests: seq<QuestionRequest>): (r: seq<QuestionRequest>)
    ensures |r| == |requests|
    ensures forall i :: 0 <= i < |r| ==>
      r[i] == if requests[i].status == Pending then requests[i].(status := Cancelled) else requests[i]
  {
    if requests == [] then []
    else
      var last := requests[|requests| - 1];
      CancelledRequests(requests[..|requests| - 1]) +
        [if last.status == Pending then last.(status := Cancelled) else last]
  }

  function CancelEvents(requests: seq<QuestionRequest>): seq<TurnEvent> {
    if requests == [] then []
    else
      CancelEvents(requests[..|requests| - 1]) +
      (if requests[|requests| - 1].status == Pending then [QuestionResolved(|requests| - 1)] else [])
  }

  /** CancelPendingUserQuestionsForTurn: resolves what is pending and drops the checkpoint. */
  function QuestionsCancelled(s: State): State {
    s.(requests := CancelledRequests(s.requests), checkpoint := None, events := s.events + CancelEvents(s.requests))
  }

  // ---------------------------------------------------------------- parking

  datatype Parking = Parked | LostClaim | ParkError

  function ParkOutcome(s: State, worker: nat, call: ToolCall, nextSeq: nat): Parking {
    if RowConflicts(s.rows, nextSeq, call.id)
      || RequestConflicts(s.requests, call.id) || s.checkpoint.Some? then ParkError
    else if !LiveClaim(s.turn, worker) || s.turn.cancelRequested then LostClaim
    else Parked
  }

  function ParkedState(s: State, call: ToolCall, live: seq<Message>, deferred: seq<ToolCall>, round: nat,
                       nextSeq: nat): State
  {
    State(
      s.turn.(status := TurnWaiting, owner := None, leaseLive := false),
      s.rows + [ToolRow(nextSeq, call.id, call.name, RowAwaiting, "")],
      s.requests + [QuestionRequest(call.id, Pending, "")],
      Some(Checkpoint(|s.requests|, live, deferred, round)),
      s.events + [ToolCallEvent(call.id), QuestionRequired(|s.requests|)])
  }

  // ---------------------------------------------------------------- resuming

  datatype Resuming =
    | Resumed(live: seq<Message>, added: seq<Message>, nextRound: nat)
    | StopRaced
    | ResumeError

  function AnswerMessage(request: QuestionRequest, words: QuestionWording): Message {
    ToolMessage(words.answer(request), request.callId, words.tool)
  }

  function DeferredMessages(deferred: seq<ToolCall>, words: QuestionWording): seq<Message> {
    if deferred == [] then []
    else
      var last := deferred[|deferred| - 1];
      DeferredMessages(deferred[..|deferred| - 1], words) + [ToolMessage(words.deferral(last), last.id, last.name)]
  }

  /** Deferred calls get failed rows after all existing ones; none is ever run. */
  function DeferredRows(rows: seq<ToolRow>, deferred: seq<ToolCall>, words: QuestionWording): seq<ToolRow> {
    if deferred == [] then rows
    else
      var last := deferred[|deferred| - 1];
      var before := DeferredRows(rows, deferred[..|deferred| - 1], words);
      before + [ToolRow(NextSeq(before), last.id, last.name, RowFailed, words.deferral(last))]
  }

  function DeferredEvents(deferred: seq<ToolCall>): seq<TurnEvent> {
    if deferred == [] then []
    else
      var last := deferred[|deferred| - 1];
      DeferredEvents(deferred[..|deferred| - 1]) + [ToolCallEvent(last.id), ToolResultEvent(last.id, false)]
  }

  /** Some deferred call has no free id. */
  predicate DeferredConflict(rows: seq<ToolRow>, deferred: seq<ToolCall>) {
    exists i :: 0 <= i < |deferred| && ClashAt(rows, deferred, i)
  }

  predicate ClashAt(rows: seq<ToolRow>, deferred: seq<ToolCall>, i: nat)
    requires i < |deferred|
  {
    HasRow(rows, deferred[i].id) || exists j :: 0 <= j < i && deferred[j].id == deferred[i].id
  }

  predicate Resolved(status: RequestStatus) {
    status == Answered || status == Skipped
  }

  /** The guards past which a resume writes the answer. */
  predicate CanResume(s: State, worker: nat, enabled: bool, seen: Checkpoint) {
    && !s.turn.cancelRequested && LiveClaim(s.turn, worker) && enabled
    && seen.request < |s.requests| && Resolved(s.requests[seen.request].status)
    && RowIs(s.rows, s.requests[seen.request].callId, RowAwaiting)
    && !DeferredConflict(s.rows, seen.deferred)
  }

  function AnsweredRows(s: State, request: QuestionRequest, words: QuestionWording): seq<ToolRow>
    requires HasRow(s.rows, request.callId)
  {
    var i := FindRow(s.rows, request.callId);
    s.rows[i := s.rows[i].(status := RowCompleted, content := words.answer(request))]
  }

  /** What a committed resume leaves: one result for the question, one for each deferred call in
      order, and no checkpoint. */
  function ResumedState(s: State, seen: Checkpoint, words: QuestionWording): State
    requires seen.request < |s.requests| && HasRow(s.rows, s.requests[seen.request].callId)
  {
    var request := s.requests[seen.request];
    s.(rows := DeferredRows(AnsweredRows(s, request, words), seen.deferred, words),
       checkpoint := None,
       events := s.events + [ToolResultEvent(request.callId, true)] + DeferredEvents(seen.deferred))
  }

  function ResumedTurn(s: State, seen: Checkpoint, words: QuestionWording): Resuming
    requires seen.request < |s.requests|
  {
    var added := [AnswerMessage(s.requests[seen.request], words)] + DeferredMessages(seen.deferred, words);
    Resumed(seen.live + added + [TextMessage(RoleUser, words.resumePrompt)], added, seen.round + 1)
  }

  /** The state after a resume that found this checkpoint, whatever happened since. */
  function AfterResume(s: State, worker: nat, enabled: bool, seen: Checkpoint, words: QuestionWording): State {
    if s.turn.cancelRequested || !LiveClaim(s.turn, worker) then s
    else if !enabled then QuestionsCancelled(s)
    else if seen.request >= |s.requests| then s.(checkpoint := None)
    else if !Resolved(s.requests[seen.request].status) then QuestionsCancelled(s)
    else if CanResume(s, worker, enabled, seen) then ResumedState(s, seen, words)
    else s
  }

  function ResumeOutcome(s: State, worker: nat, enabled: bool, seen: Checkpoint, words: QuestionWording): Resuming {
    if s.turn.cancelRequested then StopRaced
    else if CanResume(s, worker, enabled, seen) then ResumedTurn(s, seen, words)
    else ResumeError
  }

  // ---------------------------------------------------------------- the database

  class TurnStore {
    var turn: TurnRow
    var rows: seq<ToolRow>
    var requests: seq<QuestionRequest>
    var checkpoint: Option<Checkpoint>
    var events: seq<TurnEvent>

    constructor (turn: TurnRow)
      ensures Now() == State(turn, [], [], None, [])
    {
      this.turn, rows, requests, checkpoint, events := turn, [], [], None, [];
    }

    function Now(): State
      reads this
    {
      State(turn, rows, requests, checkpoint, events)
    }

    method Rollback(before: State)
      modifies this
      ensures Now() == before
    {
      turn, rows, requests, checkpoint, events :=
        before.turn, before.rows, before.requests, before.checkpoint, before.events;
    }

    method InsertToolCall(row: ToolRow) returns (ok: bool)
      modifies this`rows
      ensures ok <==> !RowConflicts(old(rows), row.seqNo, row.callId)
      ensures rows == if ok then old(rows) + [row] else old(rows)
    {
      for i := 0 to |rows|
        invariant forall k :: 0 <= k < i ==> rows[k].seqNo != row.seqNo && rows[k].callId != row.callId
      {
        if rows[i].seqNo == row.seqNo || rows[i].callId == row.callId {
          return false;
        }
      }
      rows := rows + [row];
      return true;
    }

    method CreateUserQuestionRequest(callId: string) returns (ok: bool)
      modifies this`requests
      ensures ok <==> !RequestConflicts(old(requests), callId)
      ensures requests == if ok then old(requests) + [QuestionRequest(callId, Pending, "")] else old(requests)
    {
      for i := 0 to |requests|
        invariant forall k :: 0 <= k < i ==> requests[k].callId != callId && requests[k].status != Pending
      {
        if requests[i].callId == callId || requests[i].status == Pending {
          return false;
        }
      }
      requests := requests + [QuestionRequest(callId, Pending, "")];
      return true;
    }

    /** One transaction; `fault(n)` fails its n-th statement. A park that fails or has lost its
        claim leaves the turn exactly as it was. */
    method ParkTurnForUserQuestion(worker: nat, call: ToolCall, live: seq<Message>, deferred: seq<ToolCall>,
                                   round: nat, nextSeq: nat, fault: nat -> bool)
      returns (r: Parking)
      modifies this
      ensures r == Parked ==> ParkOutcome(old(Now()), worker, call, nextSeq) == Parked
      ensures Now() == if r == Parked then ParkedState(old(Now()), call, live, deferred, round, nextSeq) else old(Now())
      ensures (forall n :: !fault(n)) ==> r == ParkOutcome(old(Now()), worker, call, nextSeq)
    {
      var before := Now();
      var inserted := InsertToolCall(ToolRow(nextSeq, call.id, call.name, RowAwaiting, ""));
      if fault(0) || !inserted { Rollback(before); return ParkError; }
      var created := CreateUserQuestionRequest(call.id);
      if fault(1) || !created { Rollback(before); return ParkError; }
      var request := |requests| - 1;
      if fault(2) || checkpoint.Some? { Rollback(before); return ParkError; }
      checkpoint := Some(Checkpoint(request, live, deferred, round));
      events := events + [ToolCallEvent(call.id), QuestionRequired(request)];
      if fault(3) { Rollback(before); return ParkError; }
      if !(turn.status == TurnRunning && turn.owner == Some(worker) && turn.leaseLive && !turn.cancelRequested) {
        Rollback(before);
        return LostClaim;
      }
      turn := turn.(status := TurnWaiting, owner := None, leaseLive := false);
      if fault(4) { Rollback(before); return ParkError; }
      return Parked;
    }

    method CancelPendingUserQuestions()
      modifies this`requests, this`checkpoint, this`events
      ensures Now() == QuestionsCancelled(old(Now()))
    {
      for i := 0 to |requests|
        invariant |requests| == |old(requests)|
        invariant turn == old(turn) && rows == old(rows) && checkpoint == old(checkpoint)
        invariant forall k :: 0 <= k < i ==>
          requests[k] == if old(requests)[k].status == Pending then old(requests)[k].(status := Cancelled)
            else old(requests)[k]
        invariant forall k :: i <= k < |requests| ==> requests[k] == old(requests)[k]
        invariant events == old(events) + CancelEvents(old(requests)[..i])
      {
        TakeSnoc(old(requests), i);
        if requests[i].status == Pending {
          requests := requests[i := requests[i].(status := Cancelled)];
          events := events + [QuestionResolved(i)];
        }
      }
      TakeAll(old(requests));
      assert requests == CancelledRequests(old(requests));
      checkpoint := None;
    }

    /** Resumes from a checkpoint read before the transaction began, which may be stale by now. */
    method ResumeUserQuestion(worker: nat, enabled: bool, seen: Checkpoint, words: QuestionWording, fault: nat -> bool)
      returns (r: Resuming)
      modifies this
      ensures r.Resumed? ==>
        && CanResume(old(Now()), worker, enabled, seen)
        && r == ResumedTurn(old(Now()), seen, words)
        && Now() == ResumedState(old(Now()), seen, words)
      ensures !r.Resumed? ==>
        Now() == old(Now()) ||
        (!CanResume(old(Now()), worker, enabled, seen)
          && Now() == AfterResume(old(Now()), worker, enabled, seen, words))
      ensures (forall n :: !fault(n)) ==>
        r == ResumeOutcome(old(Now()), worker, enabled, seen, words)
          && Now() == AfterResume(old(Now()), worker, enabled, seen, words)
    {
      var before := Now();
      if fault(0) { return ResumeError; }
      if turn.cancelRequested { return StopRaced; }
      if turn.status != TurnRunning || turn.owner != Some(worker) || !turn.leaseLive { return ResumeError; }
      if !enabled {
        if !fault(1) { CancelPendingUserQuestions(); }
        return ResumeError;
      }
      if seen.request >= |requests| {
        if !fault(1) { checkpoint := None; }
        return ResumeError;
      }
      var request := requests[seen.request];
      if request.status != Answered && request.status != Skipped {
        if !fault(1) { CancelPendingUserQuestions(); }
        return ResumeError;
      }
      r := WriteAnswer(seen, request, words, fault, before);
      if !r.Resumed? {
        Rollback(before);
      }
    }

    /** The resume's writes, in order; the caller rolls back unless they all succeed. */
    method WriteAnswer(seen: Checkpoint, request: QuestionRequest, words: QuestionWording, fault: nat -> bool,
                       ghost before: State)
      returns (r: Resuming)
      requires before == Now() && seen.request < |requests| && request == requests[seen.request]
      modifies this
      ensures r.Resumed? ==>
        && RowIs(before.rows, request.callId, RowAwaiting) && !DeferredConflict(before.rows, seen.deferred)
        && r == ResumedTurn(before, seen, words) && Now() == ResumedState(before, seen, words)
      ensures (forall n :: !fault(n)) && !r.Resumed? ==>
        r == ResumeError
          && !(RowIs(before.rows, request.callId, RowAwaiting) && !DeferredConflict(before.rows, seen.deferred))
      ensures !r.Resumed? ==> r == ResumeError
    {
      hide DeferredRows, DeferredMessages, DeferredEvents, DeferredConflict, NextSeq;
      if fault(2) { return ResumeError; }
      var i := FindRow(rows, request.callId);
      if i == |rows| || rows[i].status != RowAwaiting { return ResumeError; }
      rows := rows[i := rows[i].(status := RowCompleted, content := words.answer(request))];
      events := events + [ToolResultEvent(request.callId, true)];
      if fault(3) { return ResumeError; }
      ConflictAnswered(before, request, words, seen.deferred);
      var answered, deferrals := AnswerDeferred(seen.deferred, words, fault);
      if !answered { return ResumeError; }
      var added := [AnswerMessage(request, words)] + deferrals;
      checkpoint := None;
      if fault(4 + |seen.deferred|) { return ResumeError; }
      return Resumed(seen.live + added + [TextMessage(RoleUser, words.resumePrompt)], added, seen.round + 1);
    }

    /** Each deferred call gets a failed row and a message, in order, as long as its id is free. */
    method AnswerDeferred(deferred: seq<ToolCall>, words: QuestionWording, fault: nat -> bool)
      returns (ok: bool, added: seq<Message>)
      modifies this`rows, this`events
      ensures ok ==>
        && !DeferredConflict(old(rows), deferred) && rows == DeferredRows(old(rows), deferred, words)
        && events == old(events) + DeferredEvents(deferred) && added == DeferredMessages(deferred, words)
      ensures (forall n :: !fault(n)) ==> (ok <==> !DeferredConflict(old(rows), deferred))
    {
      hide *;
      ghost var base, head := rows, events;
      added := [];
      NothingDeferred(base, words);
      AppendNil(head);
      TakeAll(deferred);
      for k := 0 to |deferred|
        invariant rows == DeferredRows(base, deferred[..k], words) && !DeferredConflict(base, deferred[..k])
        invariant added == DeferredMessages(deferred[..k], words)
        invariant events == head + DeferredEvents(deferred[..k])
      {
        var sibling := deferred[k];
        DeferredStep(base, deferred, k, words);
        var inserted := InsertToolCall(ToolRow(NextSeq(rows), sibling.id, sibling.name, RowRunning, ""));
        if !inserted || fault(4 + k) {
          return false, added;
        }
        rows := rows[|rows| - 1 := rows[|rows| - 1].(status := RowFailed, content := words.deferral(sibling))];
        var more := [ToolCallEvent(sibling.id), ToolResultEvent(sibling.id, false)];
        AppendAssoc(head, DeferredEvents(deferred[..k]), more);
        events := events + more;
        added := added + [ToolMessage(words.deferral(sibling), sibling.id, sibling.name)];
      }
      ok := true;
    }
  }

  // ---------------------------------------------------------------- lemmas for the deferred calls

  lemma NothingDeferred(base: seq<ToolRow>, words: QuestionWording)
    ensures DeferredRows(base, [], words) == base && DeferredMessages([], words) == [] && DeferredEvents([]) == []
    ensures !DeferredConflict(base, [])
  {
  }

  lemma {:induction false} DeferredIds(base: seq<ToolRow>, deferred: seq<ToolCall>, words: QuestionWording, id: string)
    ensures HasRow(DeferredRows(base, deferred, words), id) <==>
      HasRow(base, id) || exists j :: 0 <= j < |deferred| && deferred[j].id == id
  {
    hide HasRow;
    if deferred != [] {
      var earlier, last := deferred[..|deferred| - 1], deferred[|deferred| - 1];
      var before := DeferredRows(base, earlier, words);
      DeferredIds(base, earlier, words, id);
      HasRowAppend(before, ToolRow(NextSeq(before), last.id, last.name, RowFailed, words.deferral(last)), id);
    }
  }

  lemma HasRowAppend(rows: seq<ToolRow>, row: ToolRow, id: string)
    ensures HasRow(rows + [row], id) <==> HasRow(rows, id) || row.callId == id
  {
    HasRowIs(rows, id);
    HasRowIs(rows + [row], id);
    assert (rows + [row])[|rows|] == row;
    assert forall i :: 0 <= i < |rows| ==> (rows + [row])[i] == rows[i];
  }

  lemma HasRowIs(rows: seq<ToolRow>, id: string)
    ensures HasRow(rows, id) <==> exists i :: 0 <= i < |rows| && rows[i].callId == id
  {
  }

  lemma ClashIsRow(base: seq<ToolRow>, deferred: seq<ToolCall>, k: nat, words: QuestionWording)
    requires k < |deferred|
    ensures ClashAt(base, deferred, k) <==> HasRow(DeferredRows(base, deferred[..k], words), deferred[k].id)
  {
    hide HasRow, DeferredRows;
    DeferredIds(base, deferred[..k], words, deferred[k].id);
    assert forall j :: 0 <= j < k ==> deferred[..k][j] == deferred[j];
  }

  /** Deferring one more call, and what its insertion means. */
  lemma DeferredStep(base: seq<ToolRow>, deferred: seq<ToolCall>, k: nat, words: QuestionWording)
    requires k < |deferred|
    ensures deferred[..k + 1] == deferred[..k] + [deferred[k]]
    ensures var before := DeferredRows(base, deferred[..k], words);
      && DeferredRows(base, deferred[..k + 1], words)
           == before +
              [ToolRow(NextSeq(before), deferred[k].id, deferred[k].name, RowFailed, words.deferral(deferred[k]))]
      && (RowConflicts(before, NextSeq(before), deferred[k].id) ==> DeferredConflict(base, deferred))
      && (!RowConflicts(before, NextSeq(before), deferred[k].id) && !DeferredConflict(base, deferred[..k]) ==>
            !DeferredConflict(base, deferred[..k + 1]))
    ensures DeferredMessages(deferred[..k + 1], words)
         == DeferredMessages(deferred[..k], words) +
           [ToolMessage(words.deferral(deferred[k]), deferred[k].id, deferred[k].name)]
    ensures DeferredEvents(deferred[..k + 1])
         == DeferredEvents(deferred[..k]) + [ToolCallEvent(deferred[k].id), ToolResultEvent(deferred[k].id, false)]
  {
    var before := DeferredRows(base, deferred[..k], words);
    TakeSnoc(deferred, k);
    HasRowIs(before, deferred[k].id);
    ClashIsRow(base, deferred, k, words);
    DeferredConflictStep(base, deferred, k);
    hide HasRow, ClashAt, DeferredConflict;
  }

  lemma ClashPrefix(base: seq<ToolRow>, deferred: seq<ToolCall>, k: nat, i: nat)
    requires i < k <= |deferred|
    ensures ClashAt(base, deferred[..k], i) <==> ClashAt(base, deferred, i)
  {
    hide HasRow;
    assert forall j :: 0 <= j < k ==> deferred[..k][j] == deferred[j];
  }

  lemma DeferredConflictStep(base: seq<ToolRow>, deferred: seq<ToolCall>, k: nat)
    requires k < |deferred|
    ensures ClashAt(base, deferred, k) ==> DeferredConflict(base, deferred)
    ensures !ClashAt(base, deferred, k) && !DeferredConflict(base, deferred[..k]) ==>
      !DeferredConflict(base, deferred[..k + 1])
  {
    hide ClashAt;
    ClashPrefix(base, deferred, k + 1, k);
    if DeferredConflict(base, deferred[..k + 1]) {
      var i :| 0 <= i < k + 1 && ClashAt(base, deferred[..k + 1], i);
      ClashPrefix(base, deferred, k + 1, i);
      if i < k {
        ClashPrefix(base, deferred, k, i);
      }
    }
  }

  /** Answering the question leaves the call ids as they were. */
  lemma ConflictAnswered(s: State, request: QuestionRequest, words: QuestionWording, deferred: seq<ToolCall>)
    requires HasRow(s.rows, request.callId)
    ensures DeferredConflict(AnsweredRows(s, request, words), deferred) <==> DeferredConflict(s.rows, deferred)
  {
    var after := AnsweredRows(s, request, words);
    forall id ensures HasRow(after, id) <==> HasRow(s.rows, id) {
      HasRowIs(after, id);
      HasRowIs(s.rows, id);
      assert forall i :: 0 <= i < |after| ==> after[i].callId == s.rows[i].callId;
    }
    hide HasRow, AnsweredRows;
    forall i | 0 <= i < |deferred| ensures ClashAt(after, deferred, i) <==> ClashAt(s.rows, deferred, i) {
    }
  }
}
