/** Approval and execution guard of MCP calls, against saved rules and live sessions that may
    change at any moment (internal/aichatworker/mcp_connection.go, mcp_approval.go, worker.go and
    internal/aichattools/mcp_tools.go). */
module McpProtocol {
  import opened Options
  import opened Chat
  import opened Seqs

  datatype Permission = Allow | Ask | Deny

  /** The saved row of one tool; `digest` is its schema in the current discovered set, if there. */
  datatype Saved = Saved(revision: nat, permission: Permission, digest: Option<nat>)

  /** A connection as pinned when the turn began. */
  datatype Handle = Handle(connection: nat, revision: nat)

  /** What an alias was built to execute. */
  datatype Binding = Local | Remote(handle: Handle, remote: string)

  datatype Wait = WaitApproved | WaitDenied | WaitCancelled | WaitTimedOut | WaitLost

  /** The environment. Every observation happens at its own moment, so nothing read earlier says
      anything about what is read later. `saved` is None when membership, feature or row is gone,
      `canonical` is None for invalid JSON, `halts` is a turn that timed out, was cancelled or lost
      its lease, and `fault` a failing database statement. */
  datatype World = World(
    saved: (nat, Handle, string) -> Option<Saved>,
    live: (nat, Handle, string) -> Option<nat>,
    prepared: (nat, ToolCall) -> Option<string>,
    storedArgs: (nat, ToolCall) -> string,
    canonical: string -> Option<string>,
    blank: string -> bool,
    validJson: string -> bool,
    validQuestions: string -> bool,
    questionTool: string,
    wait: nat -> Wait,
    halts: nat -> bool,
    fault: nat -> bool)

  // ---------------------------------------------------------------- what is recorded

  /** One remote call, with the moments its guard looked at the rows and at the session. */
  datatype Dispatch = Dispatch(position: nat, call: ToolCall, handle: Handle, remote: string, rowAt: nat, liveAt: nat)

  /** One approved call: when its snapshot was taken and the decision read, and the moments of the
      recheck it then passed, a second snapshot being the last of them. */
  datatype Grant = Grant(
    call: ToolCall, handle: Handle, remote: string, digest: nat, proposedAt: nat, decidedAt: nat,
    argsAt: nat, rowAt: nat, liveAt: nat, againAt: nat)

  /** The grant of a request committed at this moment. */
  function GrantAt(call: ToolCall, handle: Handle, remote: string, digest: nat, proposedAt: nat,
                   requestedAt: nat): Grant
  {
    Grant(call, handle, remote, digest, proposedAt, requestedAt + 1,
          requestedAt + 2, requestedAt + 3, requestedAt + 4, requestedAt + 5)
  }

  predicate CanonicalEqual(w: World, a: string, b: string) {
    w.canonical(a).Some? && w.canonical(a) == w.canonical(b)
  }

  predicate SnapshotsEqual(w: World, stored: string, now: string) {
    if w.blank(stored) then w.blank(now) else CanonicalEqual(w, stored, now)
  }

  /** The row and the session agree on one schema, at the turn's revision. */
  predicate Agree(w: World, handle: Handle, remote: string, rowAt: nat, liveAt: nat) {
    var row := w.saved(rowAt, handle, remote);
    && row.Some? && row.value.revision == handle.revision && row.value.digest.Some?
    && w.live(liveAt, handle, remote) == row.value.digest
  }

  function RuleAt(w: World, handle: Handle, remote: string, at: nat): Permission {
    var row := w.saved(at, handle, remote);
    if row.Some? then row.value.permission else Deny
  }

  /** The saved rule and schema, at the handle's revision. */
  function CurrentAt(w: World, handle: Handle, remote: string, at: nat): Option<(Permission, nat)> {
    match w.saved(at, handle, remote)
    case None => None
    case Some(row) =>
      if row.revision == handle.revision && row.digest.Some? then Some((row.permission, row.digest.value)) else None
  }

  /** The guard of a remote call: agreeing schemas, and Allow, or Ask with proof. */
  predicate GuardPasses(w: World, handle: Handle, remote: string, rowAt: nat, liveAt: nat, proven: bool) {
    && Agree(w, handle, remote, rowAt, liveAt)
    && (RuleAt(w, handle, remote, rowAt) == Allow || (RuleAt(w, handle, remote, rowAt) == Ask && proven))
  }

  /** The same proposal could be prepared again, with the same snapshot. */
  predicate SameSnapshot(w: World, call: ToolCall, proposedAt: nat, againAt: nat) {
    && w.prepared(proposedAt, call).Some? && w.prepared(againAt, call).Some?
    && SnapshotsEqual(w, w.prepared(proposedAt, call).value, w.prepared(againAt, call).value)
  }

  /** A decision was approved, and afterwards the call was still the one approved: same
      arguments, same schema, same snapshot, no Deny. */
  predicate GrantHolds(w: World, g: Grant) {
    && w.wait(g.decidedAt) == WaitApproved
    && g.proposedAt < g.decidedAt < g.argsAt < g.rowAt < g.liveAt < g.againAt
    && CanonicalEqual(w, w.storedArgs(g.argsAt, g.call), g.call.args)
    && Agree(w, g.handle, g.remote, g.rowAt, g.liveAt)
    && w.live(g.liveAt, g.handle, g.remote) == Some(g.digest)
    && RuleAt(w, g.handle, g.remote, g.rowAt) != Deny
    && SameSnapshot(w, g.call, g.proposedAt, g.againAt)
  }

  /** Equal as JSON. */
  predicate SameJson(w: World, a: string, b: string) {
    w.canonical(a).Some? && w.canonical(b).Some? && w.canonical(a).value == w.canonical(b).value
  }

  /** A proposal prepared at both moments whose snapshots are both blank, or equal as JSON. */
  predicate SameProposal(w: World, call: ToolCall, one: nat, two: nat) {
    && w.prepared(one, call).Some? && w.prepared(two, call).Some?
    && (var a, b := w.prepared(one, call).value, w.prepared(two, call).value;
        (w.blank(a) && w.blank(b)) || (!w.blank(a) && SameJson(w, a, b)))
  }

  /** The user approved this call, and afterwards its stored arguments, its row and session, and its
      proposal were looked at once more, in this order, and found to be those approved. */
  predicate ApprovedFor(w: World, call: ToolCall, g: Grant) {
    && g.call == call && w.wait(g.decidedAt) == WaitApproved
    && g.proposedAt < g.decidedAt < g.argsAt < g.rowAt < g.liveAt < g.againAt
    && SameJson(w, w.storedArgs(g.argsAt, call), call.args)
    && (var row := w.saved(g.rowAt, g.handle, g.remote);
        && row.Some? && row.value.revision == g.handle.revision && row.value.permission != Deny
        && row.value.digest == Some(g.digest) && w.live(g.liveAt, g.handle, g.remote) == Some(g.digest))
    && SameProposal(w, call, g.proposedAt, g.againAt)
  }

  lemma ApprovalIs(w: World, g: Grant)
    ensures GrantHolds(w, g) <==> ApprovedFor(w, g.call, g)
  {
  }

  lemma GrantIsApproved(w: World, g: Grant)
    ensures GrantHolds(w, g) ==> w.wait(g.decidedAt) == WaitApproved
  {
    hide Agree, RuleAt, SameSnapshot, CanonicalEqual;
  }

  /** Why a dispatch was allowed: the rule was Allow, or Ask with this very call granted. */
  predicate Justified(w: World, d: Dispatch, grants: map<nat, Grant>) {
    && Agree(w, d.handle, d.remote, d.rowAt, d.liveAt)
    && RuleAt(w, d.handle, d.remote, d.rowAt) != Deny
    && (RuleAt(w, d.handle, d.remote, d.rowAt) == Ask ==>
          && d.position in grants && grants[d.position].call == d.call
          && grants[d.position].againAt < d.rowAt)
  }

  /** Every dispatch so far was justified by what its own guard saw, each call dispatched at most
      once, and every grant was earned. */
  predicate Recorded(w: World, registry: map<string, Binding>, byAlias: map<string, (Handle, string)>,
                     dispatched: seq<Dispatch>, grants: map<nat, Grant>, position: nat, clock: nat)
  {
    && (forall i :: 0 <= i < |dispatched| ==> Justified(w, dispatched[i], grants) && dispatched[i].position < position)
    && (forall i, j :: 0 <= i < j < |dispatched| ==> dispatched[i].position < dispatched[j].position)
    && (forall p :: p in grants ==> p <= position && GrantHolds(w, grants[p]) && grants[p].againAt < clock)
    && (forall p :: p in grants ==>
          grants[p].call.name in byAlias && byAlias[grants[p].call.name] == (grants[p].handle, grants[p].remote))
    && (forall i :: 0 <= i < |dispatched| ==>
          && dispatched[i].call.name in registry
          && registry[dispatched[i].call.name] == Remote(dispatched[i].handle, dispatched[i].remote))
  }

  lemma RecordedLater(w: World, registry: map<string, Binding>, byAlias: map<string, (Handle, string)>,
                      dispatched: seq<Dispatch>, grants: map<nat, Grant>, position: nat, clock: nat, later: nat)
    requires Recorded(w, registry, byAlias, dispatched, grants, position, clock) && clock <= later
    ensures Recorded(w, registry, byAlias, dispatched, grants, position, later)
  {
  }

  /** The next call: whatever this one dispatched is past. */
  lemma RecordedNext(w: World, registry: map<string, Binding>, byAlias: map<string, (Handle, string)>,
                     before: seq<Dispatch>, more: seq<Dispatch>,
                     grants: map<nat, Grant>, position: nat, clock: nat)
    requires Recorded(w, registry, byAlias, before, grants, position, clock) && |more| <= 1
    requires forall d :: d in more ==>
      && d.position == position && Justified(w, d, grants)
      && d.call.name in registry && registry[d.call.name] == Remote(d.handle, d.remote)
    ensures Recorded(w, registry, byAlias, before + more, grants, position + 1, clock)
    ensures forall p :: p in grants ==> p < position + 1
  {
    hide Justified, GrantHolds;
    var dispatched := before + more;
    assert forall i :: 0 <= i < |before| ==> dispatched[i] == before[i];
    assert forall i :: |before| <= i < |dispatched| ==> dispatched[i] in more;
  }

  lemma RecordedGrant(w: World, registry: map<string, Binding>, byAlias: map<string, (Handle, string)>,
                      dispatched: seq<Dispatch>, grants: map<nat, Grant>, position: nat, clock: nat, g: Grant)
    requires Recorded(w, registry, byAlias, dispatched, grants, position, clock)
      && GrantHolds(w, g) && g.againAt < clock
    requires g.call.name in byAlias && byAlias[g.call.name] == (g.handle, g.remote)
    ensures Recorded(w, registry, byAlias, dispatched, grants[position := g], position, clock)
  {
    hide GrantHolds, Agree, RuleAt;
    forall i | 0 <= i < |dispatched| ensures Justified(w, dispatched[i], grants[position := g]) {
      assert Justified(w, dispatched[i], grants);
    }
  }

  // ---------------------------------------------------------------- the turn

  /** How one call ended. */
  datatype CallEnd = Continued | Stopped

  datatype Verdict = Proceed | Refused | Abort

  class Turn {
    const registry: map<string, Binding>
    const byAlias: map<string, (Handle, string)>
    /** Aliases with a decision marked executing, for the guard to find. */
    var approved: set<string>
    var clock: nat
    var position: nat
    ghost var dispatched: seq<Dispatch>
    ghost var grants: map<nat, Grant>

    constructor (registry: map<string, Binding>, byAlias: map<string, (Handle, string)>)
      ensures this.registry == registry && this.byAlias == byAlias
      ensures approved == {} && dispatched == [] && grants == map[] && position == 0
    {
      this.registry, this.byAlias := registry, byAlias;
      approved, clock, position, dispatched, grants := {}, 0, 0, [], map[];
    }

    ghost predicate Valid(w: World)
      reads this
    {
      Recorded(w, registry, byAlias, dispatched, grants, position, clock)
    }

    /** Between calls no grant is open and no proof is held. */
    ghost predicate Idle()
      reads this
    {
      approved == {} && forall p :: p in grants ==> p < position
    }

    method Tick() returns (at: nat)
      modifies this`clock
      ensures at == old(clock) && clock == old(clock) + 1
    {
      at := clock;
      clock := clock + 1;
    }

    /** verifyMCPCallCurrent: the rule and current digest, or nothing if anything moved. */
    method VerifyCurrent(w: World, handle: Handle, remote: string) returns (current: Option<(Permission, nat)>)
      modifies this`clock
      ensures clock == old(clock) + 1
      ensures current == CurrentAt(w, handle, remote, old(clock))
    {
      var now := Tick();
      var row := w.saved(now, handle, remote);
      if row.None? || row.value.revision != handle.revision || row.value.digest.None? {
        return None;
      }
      return Some((row.value.permission, row.value.digest.value));
    }

    /** mcpCallGuard, immediately before the remote call. */
    method Guard(w: World, handle: Handle, remote: string, alias: string) returns (ok: bool)
      modifies this`clock
      ensures clock == old(clock) + 2
      ensures ok <==> GuardPasses(w, handle, remote, old(clock), old(clock) + 1, alias in approved)
    {
      var current := VerifyCurrent(w, handle, remote);
      var now := Tick();
      if current.None? {
        return false;
      }
      var live := w.live(now, handle, remote);
      if live.None? || live.value != current.value.1 {
        return false;
      }
      match current.value.0
      case Allow => ok := true;
      case Ask => ok := alias in approved;
      case Deny => ok := false;
    }

    /** What executing this call dispatches, its guard looking at these moments. */
    function Dispatches(w: World, call: ToolCall, rowAt: nat, proven: bool, position: nat): seq<Dispatch>
      requires call.name in registry
    {
      match registry[call.name]
      case Local => []
      case Remote(handle, remote) =>
        if GuardPasses(w, handle, remote, rowAt, rowAt + 1, proven)
        then [Dispatch(position, call, handle, remote, rowAt, rowAt + 1)]
        else []
    }

    /** A built tool's Execute: a remote tool runs its own guard, whatever gated it before, and is
        dispatched exactly when that passes. */
    method Execute(w: World, call: ToolCall)
      requires call.name in registry
      modifies this`clock, this`dispatched
      ensures old(clock) <= clock <= old(clock) + 2
      ensures dispatched == old(dispatched) + Dispatches(w, call, old(clock), call.name in approved, position)
    {
      match registry[call.name]
      case Local =>
      case Remote(handle, remote) =>
        var rowAt := clock;
        var ok := Guard(w, handle, remote, call.name);
        if ok {
          dispatched := dispatched + [Dispatch(position, call, handle, remote, rowAt, rowAt + 1)];
        }
    }

    /** What a dispatch was allowed by, as far as its proof is this call's grant. */
    lemma DispatchesAreJustified(w: World, call: ToolCall, rowAt: nat, proven: bool)
      requires call.name in registry
      requires proven ==> position in grants && grants[position].call == call && grants[position].againAt < rowAt
      ensures forall d :: d in Dispatches(w, call, rowAt, proven, position) ==>
        && d.position == position && Justified(w, d, grants) && d.call == call
        && registry[call.name] == Remote(d.handle, d.remote)
    {
      hide Agree, RuleAt;
    }

    /** approvedCallUnchanged: looks at stored arguments, rows, session and snapshot once more. */
    method ApprovedCallUnchanged(w: World, call: ToolCall, handle: Handle, remote: string, digest: nat,
                                 proposedAt: nat, decidedAt: nat)
      returns (intact: bool)
      requires w.wait(decidedAt) == WaitApproved && proposedAt < decidedAt < clock && w.prepared(proposedAt, call).Some?
      modifies this`clock
      ensures clock == old(clock) + 4
      ensures var c := old(clock);
        intact <==> GrantHolds(w, Grant(call, handle, remote, digest, proposedAt, decidedAt, c, c + 1, c + 2, c + 3))
    {
      var argsAt := Tick();
      var current := VerifyCurrent(w, handle, remote);
      var liveAt := Tick();
      var againAt := Tick();
      if current.None? || current.value.0 == Deny || current.value.1 != digest {
        return false;
      }
      if !CanonicalEqual(w, w.storedArgs(argsAt, call), call.args) {
        return false;
      }
      var live := w.live(liveAt, handle, remote);
      if live.None? || live.value != current.value.1 {
        return false;
      }
      var again := w.prepared(againAt, call);
      if again.None? {
        return false;
      }
      return SnapshotsEqual(w, w.prepared(proposedAt, call).value, again.value);
    }

    /** Ask: commits the approval request, waits in place, rechecks, and marks it executing. */
    method AwaitDecision(w: World, call: ToolCall, handle: Handle, remote: string, digest: nat, proposedAt: nat)
      returns (verdict: Verdict)
      requires proposedAt < clock && w.prepared(proposedAt, call).Some?
      modifies this`clock
      ensures clock >= old(clock) && (verdict == Proceed ==> clock == old(clock) + 7)
      ensures verdict == Proceed <==>
        && GrantHolds(w, GrantAt(call, handle, remote, digest, proposedAt, old(clock)))
        && !w.fault(old(clock)) && !w.fault(old(clock) + 6)
      ensures verdict == Refused <==> !w.fault(old(clock)) && w.wait(old(clock) + 1) in {WaitDenied, WaitTimedOut}
    {
      hide GrantHolds;
      GrantIsApproved(w, GrantAt(call, handle, remote, digest, proposedAt, clock));
      var requestedAt := Tick();
      if w.fault(requestedAt) {
        return Abort;
      }
      var decidedAt := Tick();
      match w.wait(decidedAt)
      case WaitCancelled => return Abort;
      case WaitLost => return Abort;
      case WaitDenied => return Refused;
      case WaitTimedOut => return Refused;
      case WaitApproved =>
        var intact := ApprovedCallUnchanged(w, call, handle, remote, digest, proposedAt, decidedAt);
        if !intact {
          return Abort;
        }
        var markedAt := Tick();
        return if w.fault(markedAt) then Abort else Proceed;
    }

    // -------------------------------------------------------------- one call

    predicate Gated(call: ToolCall) {
      call.name in registry && call.name in byAlias
    }

    /** What the gate finds before anyone is asked: rule and schemas, and a safe proposal. */
    predicate Cleared(w: World, call: ToolCall, start: nat)
      requires Gated(call)
    {
      var (handle, remote) := byAlias[call.name];
      && Agree(w, handle, remote, start, start + 2) && RuleAt(w, handle, remote, start) != Deny
      && w.prepared(start + 1, call).Some?
    }

    predicate Asked(w: World, call: ToolCall, start: nat)
      requires Gated(call)
    {
      Cleared(w, call, start) && RuleAt(w, byAlias[call.name].0, byAlias[call.name].1, start) == Ask
    }

    /** The grant the gate can earn when it starts at this moment. */
    function GateGrant(w: World, call: ToolCall, start: nat): Grant
      requires Gated(call) && Cleared(w, call, start)
    {
      var (handle, remote) := byAlias[call.name];
      GrantAt(call, handle, remote, w.live(start + 2, handle, remote).value, start + 1, start + 3)
    }

    predicate Earned(w: World, call: ToolCall, start: nat)
      requires Gated(call)
    {
      Asked(w, call, start) && GrantHolds(w, GateGrant(w, call, start)) && !w.fault(start + 3) && !w.fault(start + 9)
    }

    /** The gate lets this call through. */
    predicate Admits(w: World, call: ToolCall, start: nat) {
      Gated(call) ==> Cleared(w, call, start) && (Asked(w, call, start) ==> Earned(w, call, start))
    }

    /** When it is through. */
    function GateEnd(w: World, call: ToolCall, start: nat): nat {
      if !Gated(call) then start else if Asked(w, call, start) then start + 10 else start + 3
    }

    predicate Proven(w: World, call: ToolCall, start: nat) {
      Gated(call) && Earned(w, call, start)
    }

    /** What a call at the gate dispatches: it passes the gate, its row is saved, and its own guard
        passes right before. */
    function GatedEffect(w: World, call: ToolCall, start: nat, position: nat): seq<Dispatch> {
      var gated := GateEnd(w, call, start);
      if Admits(w, call, start) then AdmittedEffect(w, call, gated, Proven(w, call, start), position) else []
    }

    lemma ClearedIs(w: World, call: ToolCall, start: nat)
      requires Gated(call)
      ensures var (handle, remote) := byAlias[call.name];
        var current := CurrentAt(w, handle, remote, start);
        && (Cleared(w, call, start) <==>
              && current.Some? && current.value.0 != Deny && w.prepared(start + 1, call).Some?
              && w.live(start + 2, handle, remote) == Some(current.value.1))
        && (Asked(w, call, start) <==> Cleared(w, call, start) && current.value.0 == Ask)
    {
      var (handle, remote) := byAlias[call.name];
      var row := w.saved(start, handle, remote);
      if row.Some? && row.value.revision == handle.revision && row.value.digest.Some? {
        assert CurrentAt(w, handle, remote, start) == Some((row.value.permission, row.value.digest.value));
      } else {
        assert CurrentAt(w, handle, remote, start) == None;
      }
    }

    /** What the gate decides, case by case. */
    lemma GateIs(w: World, call: ToolCall, start: nat)
      ensures !Gated(call) ==> Admits(w, call, start) && !Proven(w, call, start) && GateEnd(w, call, start) == start
      ensures Gated(call) ==>
        && (Admits(w, call, start) <==> Cleared(w, call, start) && (Asked(w, call, start) ==> Proven(w, call, start)))
        && (Asked(w, call, start) ==> Cleared(w, call, start))
        && GateEnd(w, call, start) == (if Asked(w, call, start) then start + 10 else start + 3)
        && (Proven(w, call, start) ==> Asked(w, call, start))
        && (Asked(w, call, start) ==>
              var (handle, remote) := byAlias[call.name];
              && w.live(start + 2, handle, remote).Some?
              && GateGrant(w, call, start)
                   == GrantAt(call, handle, remote, w.live(start + 2, handle, remote).value, start + 1, start + 3)
              && (Proven(w, call, start) <==>
                    GrantHolds(w, GateGrant(w, call, start)) && !w.fault(start + 3) && !w.fault(start + 9)))
    {
      hide GrantHolds;
    }

    /** Rule, proposal and live schema before anyone is asked: the rule and the digest, or nothing. */
    method Clear(w: World, call: ToolCall) returns (cleared: Option<(Permission, nat)>)
      requires Gated(call)
      modifies this`clock
      ensures clock >= old(clock)
      ensures cleared.Some? <==> Cleared(w, call, old(clock))
      ensures cleared.Some? ==>
        && clock == old(clock) + 3 && cleared.value.0 != Deny && w.prepared(old(clock) + 1, call).Some?
        && (cleared.value.0 == Ask <==> Asked(w, call, old(clock)))
        && w.live(old(clock) + 2, byAlias[call.name].0, byAlias[call.name].1) == Some(cleared.value.1)
    {
      hide Agree, RuleAt, CurrentAt, Cleared, Asked;
      ClearedIs(w, call, clock);
      var (handle, remote) := byAlias[call.name];
      var current := VerifyCurrent(w, handle, remote);
      if current.None? || current.value.0 == Deny {
        return None;
      }
      var preparedAt := Tick();
      var proposal := w.prepared(preparedAt, call);
      if proposal.None? {
        return None;
      }
      var liveAt := Tick();
      var live := w.live(liveAt, handle, remote);
      if live.None? || live.value != current.value.1 {
        return None;
      }
      return current;
    }

    lemma GatedIs(call: ToolCall)
      ensures Gated(call) <==> call.name in registry && call.name in byAlias
    {
    }

    /** What the gate decides, dropping any earlier proof first. */
    method Decide(w: World, call: ToolCall) returns (verdict: Verdict)
      modifies this`clock, this`approved
      ensures clock >= old(clock)
      ensures verdict == Proceed <==> Admits(w, call, old(clock))
      ensures verdict == Proceed ==> clock == GateEnd(w, call, old(clock))
      ensures approved == if Proven(w, call, old(clock)) then {call.name} else {}
    {
      hide *;
      GateIs(w, call, clock);
      approved := {};
      GatedIs(call);
      if call.name !in registry || call.name !in byAlias {
        return Proceed;
      }
      var cleared := Clear(w, call);
      if cleared.None? {
        return Refused;
      }
      if cleared.value.0 == Allow {
        return Proceed;
      }
      var (handle, remote) := byAlias[call.name];
      verdict := AwaitDecision(w, call, handle, remote, cleared.value.1, clock - 2);
      if verdict == Proceed {
        approved := approved + {call.name};
      }
    }

    lemma ProvenGrant(w: World, call: ToolCall, start: nat)
      requires Proven(w, call, start)
      ensures Gated(call) && Cleared(w, call, start) && Admits(w, call, start)
      ensures var g := GateGrant(w, call, start);
        && GrantHolds(w, g) && g.call == call && g.againAt < GateEnd(w, call, start)
        && call.name in byAlias && byAlias[call.name] == (g.handle, g.remote)
    {
      hide GrantHolds, Agree, RuleAt;
    }

    /** The round loop's gate: earns the call's own proof, and only that, before it dispatches. */
    method Gate(w: World, call: ToolCall) returns (verdict: Verdict)
      requires Valid(w) && Idle()
      modifies this`clock, this`approved, this`grants
      ensures Valid(w) && clock >= old(clock)
      ensures verdict == Proceed <==> Admits(w, call, old(clock))
      ensures verdict == Proceed ==> clock == GateEnd(w, call, old(clock))
      ensures approved == if Proven(w, call, old(clock)) then {call.name} else {}
      ensures Proven(w, call, old(clock)) ==>
        grants == old(grants)[position := GateGrant(w, call, old(clock))] && grants[position].againAt < clock
      ensures !Proven(w, call, old(clock)) ==> grants == old(grants)
    {
      hide Recorded, GrantHolds, Admits, Proven, GateEnd, GateGrant;
      verdict := Decide(w, call);
      RecordedLater(w, registry, byAlias, dispatched, grants, position, old(clock), clock);
      ghost var start := old(clock);
      if Proven(w, call, start) {
        ProvenGrant(w, call, start);
        ghost var g := GateGrant(w, call, start);
        RecordedGrant(w, registry, byAlias, dispatched, grants, position, clock, g);
        grants := grants[position := g];
      }
    }

    lemma EffectIs(w: World, call: ToolCall, start: nat, position: nat)
      ensures Proven(w, call, start) ==> Admits(w, call, start)
      ensures var gated := GateEnd(w, call, start);
        GatedEffect(w, call, start, position) ==
        if Admits(w, call, start) then AdmittedEffect(w, call, gated, Proven(w, call, start), position) else []
    {
      hide GrantHolds, Cleared, Agree, RuleAt, AdmittedEffect;
    }

    /** What an admitted call dispatches once its row is saved. */
    function AdmittedEffect(w: World, call: ToolCall, start: nat, proven: bool, position: nat): (r: seq<Dispatch>)
      ensures |r| <= 1
    {
      if !w.fault(start) && call.name in registry then Dispatches(w, call, start + 1, proven, position) else []
    }

    lemma AdmittedIsJustified(w: World, call: ToolCall, start: nat, proven: bool)
      requires proven ==> position in grants && grants[position].call == call && grants[position].againAt < start
      ensures forall d :: d in AdmittedEffect(w, call, start, proven, position) ==>
        && d.position == position && Justified(w, d, grants)
        && d.call.name in registry && registry[d.call.name] == Remote(d.handle, d.remote)
    {
      hide Justified, Dispatches;
      if call.name in registry {
        DispatchesAreJustified(w, call, start + 1, proven);
      }
    }

    lemma AdmittedIs(w: World, call: ToolCall, start: nat, proven: bool)
      ensures var effect := AdmittedEffect(w, call, start, proven, position);
        && (w.fault(start) || call.name !in registry ==> effect == [])
        && (!w.fault(start) && call.name in registry ==> effect == Dispatches(w, call, start + 1, proven, position))
    {
      hide Dispatches;
    }

    /** An admitted call: its row is saved, it is executed, its proof is dropped and its result
        recorded. */
    method RunAdmitted(w: World, call: ToolCall) returns (end: CallEnd)
      requires Valid(w) && approved <= {call.name}
      requires call.name in approved ==>
                 position in grants && grants[position].call == call && grants[position].againAt < clock
      modifies this
      ensures Valid(w) && old(position) <= position <= old(position) + 1
      ensures dispatched
        == old(dispatched) + AdmittedEffect(w, call, old(clock), call.name in old(approved), old(position))
      ensures end == Continued ==> Idle() && position == old(position) + 1
      ensures approved <= {call.name}
    {
      hide Recorded, Justified, Dispatches, AdmittedEffect;
      AdmittedIs(w, call, clock, call.name in approved);
      AdmittedIsJustified(w, call, clock, call.name in approved);
      AppendNil(dispatched);
      ghost var effect := AdmittedEffect(w, call, clock, call.name in approved, position);
      forall later | later >= clock ensures Recorded(w, registry, byAlias, dispatched, grants, position, later) {
        RecordedLater(w, registry, byAlias, dispatched, grants, position, clock, later);
      }
      var insertedAt := Tick();
      if w.fault(insertedAt) {
        return Stopped;
      }
      if call.name in registry {
        Execute(w, call);
      }
      approved := approved - {call.name};
      var completedAt := Tick();
      RecordedNext(w, registry, byAlias, old(dispatched), effect, grants, position, clock);
      position := position + 1;
      return if w.fault(completedAt) then Stopped else Continued;
    }

    /** One call of the round loop, from the gate on. */
    method RunGated(w: World, call: ToolCall) returns (end: CallEnd)
      requires Valid(w) && Idle()
      modifies this
      ensures Valid(w) && old(position) <= position <= old(position) + 1
      ensures dispatched == old(dispatched) + GatedEffect(w, call, old(clock), old(position))
      ensures end == Continued ==> Idle() && position == old(position) + 1
      ensures approved <= {call.name}
    {
      hide Recorded, Admits, GateEnd, Proven, AdmittedEffect, GatedEffect, Gated;
      EffectIs(w, call, clock, position);
      AppendNil(dispatched);
      var verdict := Gate(w, call);
      match verdict
      case Abort => return Stopped;
      case Refused =>
        AppendNil(dispatched);
        RecordedNext(w, registry, byAlias, dispatched, [], grants, position, clock);
        position := position + 1;
        return Continued;
      case Proceed =>
        GrantIsOwn(w, call, old(clock));
        end := RunAdmitted(w, call);
    }

    lemma GrantIsOwn(w: World, call: ToolCall, start: nat)
      ensures Proven(w, call, start) ==> GateGrant(w, call, start).call == call
    {
      hide GrantHolds, Agree, RuleAt;
    }

    /** The turn's question tool is served, so a call of it parks the turn instead of dispatching. */
    predicate Asks(w: World, call: ToolCall) {
      call.name == w.questionTool && call.name in registry
    }

    /** The moment a call reaches the gate; the first one of a round also announces the work. */
    function GateStart(start: nat, first: bool): nat {
      if first then start + 3 else start + 2
    }

    /** Progress is saved, the turn still runs and is not cancelled, and the call's arguments are
        JSON and no question. */
    predicate Reaches(w: World, call: ToolCall, start: nat, first: bool) {
      && !w.fault(start) && !w.halts(start + 1) && (first ==> !w.fault(start + 2))
      && w.validJson(call.args) && !Asks(w, call)
    }

    /** What one call of the loop dispatches. */
    function Effect(w: World, call: ToolCall, start: nat, first: bool, position: nat): seq<Dispatch> {
      if Reaches(w, call, start, first) then GatedEffect(w, call, GateStart(start, first), position) else []
    }

    /** A call that never reaches the gate ends with a failed result, whose event may fail. */
    method FailCall(w: World) returns (end: CallEnd)
      requires Valid(w) && Idle()
      modifies this`clock, this`position
      ensures Valid(w) && Idle() && old(position) <= position <= old(position) + 1
      ensures end == Continued ==> position == old(position) + 1
    {
      hide Recorded;
      var resultAt := Tick();
      RecordedLater(w, registry, byAlias, dispatched, grants, position, resultAt, clock);
      if w.fault(resultAt) {
        return Stopped;
      }
      AppendNil(dispatched);
      RecordedNext(w, registry, byAlias, dispatched, [], grants, position, clock);
      position := position + 1;
      return Continued;
    }

    /** One call of the round loop. Arguments that are no JSON fail the call alone, and a question
        parks the turn, or fails the call when its own arguments are invalid. */
    method RunCall(w: World, call: ToolCall, first: bool) returns (end: CallEnd)
      requires Valid(w) && Idle()
      modifies this
      ensures Valid(w) && old(position) <= position <= old(position) + 1
      ensures end == Continued ==> position == old(position) + 1
      ensures dispatched == old(dispatched) + Effect(w, call, old(clock), first, old(position))
      ensures end == Continued ==> Idle()
      ensures approved <= {call.name}
    {
      hide Recorded, GatedEffect, Gated;
      ghost var start := clock;
      AppendNil(dispatched);
      forall later | later >= clock ensures Recorded(w, registry, byAlias, dispatched, grants, position, later) {
        RecordedLater(w, registry, byAlias, dispatched, grants, position, clock, later);
      }
      var savedAt := Tick();
      if w.fault(savedAt) {
        return Stopped;
      }
      var leaseAt := Tick();
      if w.halts(leaseAt) {
        return Stopped;
      }
      if first {
        var announcedAt := Tick();
        if w.fault(announcedAt) {
          return Stopped;
        }
      }
      if !w.validJson(call.args) {
        end := FailCall(w);
        return end;
      }
      if call.name == w.questionTool && call.name in registry {
        if !w.validQuestions(call.args) {
          end := FailCall(w);
          return end;
        }
        return Stopped;
      }
      end := RunGated(w, call);
    }

    /** And nothing else stops a call: with a wired alias, unchanging rows and sessions that agree,
        a proposal that can be prepared again, no fault, and Allow, or Ask with an approval of the
        very arguments, it is dispatched. */
    lemma PermittedCallRuns(w: World, call: ToolCall, start: nat, first: bool, handle: Handle, remote: string,
                            row: Saved)
      requires call.name in byAlias && byAlias[call.name] == (handle, remote)
      requires call.name in registry && registry[call.name] == Remote(handle, remote)
      requires w.validJson(call.args) && call.name != w.questionTool && forall t :: !w.fault(t) && !w.halts(t)
      requires forall t :: w.saved(t, handle, remote) == Some(row) && w.live(t, handle, remote) == row.digest
      requires row.revision == handle.revision && row.digest.Some? && row.permission != Deny
      requires var at := start + if first then 3 else 2;
        && w.prepared(at + 1, call).Some?
        && (row.permission == Ask ==>
              && w.wait(at + 4) == WaitApproved && SameProposal(w, call, at + 1, at + 8)
              && SameJson(w, w.storedArgs(at + 5, call), call.args))
      ensures var effect := Effect(w, call, start, first, position);
        && |effect| == 1 && effect[0].call == call && effect[0].position == position
        && effect[0].handle == handle && effect[0].remote == remote
    {
      hide SnapshotsEqual, CanonicalEqual;
      SameIs(w, call, start + (if first then 3 else 2) + 1, start + (if first then 3 else 2) + 8);
    }

    lemma SameIs(w: World, call: ToolCall, one: nat, two: nat)
      ensures SameProposal(w, call, one, two) <==> SameSnapshot(w, call, one, two)
      ensures forall a, b :: SameJson(w, a, b) <==> CanonicalEqual(w, a, b)
    {
    }

    /** Conversely a call is dispatched only if its progress was saved, the turn still ran, and its
        arguments were JSON and no question; and through a known alias only if the gate found rule,
        schemas and proposal in order and, under Ask, had this very call approved. */
    lemma DispatchedCallPassed(w: World, call: ToolCall, start: nat, first: bool)
      requires Effect(w, call, start, first, position) != []
      ensures call.name in registry && registry[call.name].Remote?
      ensures w.validJson(call.args) && call.name != w.questionTool
      ensures !w.fault(start) && !w.halts(start + 1) && (first ==> !w.fault(start + 2))
      ensures call.name in byAlias ==>
        var at := start + if first then 3 else 2;
        var (handle, remote) := byAlias[call.name];
        var row := w.saved(at, handle, remote);
        && row.Some? && row.value.revision == handle.revision && row.value.permission != Deny
        && row.value.digest.Some? && w.live(at + 2, handle, remote) == row.value.digest
        && w.prepared(at + 1, call).Some?
        && (row.value.permission == Ask ==>
              && !w.fault(at + 3) && !w.fault(at + 9)
              && ApprovedFor(w, call, GrantAt(call, handle, remote, row.value.digest.value, at + 1, at + 3)))
    {
      if call.name in byAlias {
        var at := start + if first then 3 else 2;
        var (handle, remote) := byAlias[call.name];
        var row := w.saved(at, handle, remote);
        if row.Some? && row.value.digest.Some? {
          ApprovalIs(w, GrantAt(call, handle, remote, row.value.digest.value, at + 1, at + 3));
        }
      }
      hide GrantHolds, ApprovedFor, AdmittedEffect;
    }

    /** A round's calls, one after the other, until one ends the turn; each dispatches itself or
        nothing. */
    method RunRound(w: World, calls: seq<ToolCall>) returns (end: CallEnd)
      requires Valid(w) && Idle()
      modifies this
      ensures Valid(w)
      ensures end == Continued ==> Idle() && position == old(position) + |calls|
      ensures |old(dispatched)| <= |dispatched| && dispatched[..|old(dispatched)|] == old(dispatched)
      ensures forall i :: |old(dispatched)| <= i < |dispatched| ==>
        && old(position) <= dispatched[i].position < old(position) + |calls|
        && dispatched[i].call == calls[dispatched[i].position - old(position)]
    {
      hide Recorded, Effect;
      end := Continued;
      for k := 0 to |calls|
        invariant Valid(w) && end == Continued && Idle() && position == old(position) + k
        invariant |old(dispatched)| <= |dispatched| && dispatched[..|old(dispatched)|] == old(dispatched)
        invariant forall i :: |old(dispatched)| <= i < |dispatched| ==>
          && old(position) <= dispatched[i].position < old(position) + k
          && dispatched[i].call == calls[dispatched[i].position - old(position)]
      {
        EffectIsOwn(w, calls[k], clock, k == 0, position);
        end := RunCall(w, calls[k], k == 0);
        if end == Stopped {
          return Stopped;
        }
      }
    }

    lemma EffectIsOwn(w: World, call: ToolCall, start: nat, first: bool, position: nat)
      ensures |Effect(w, call, start, first, position)| <= 1
      ensures forall d :: d in Effect(w, call, start, first, position) ==> d.call == call && d.position == position
    {
      hide GuardPasses, Admits, Proven, Reaches, GateEnd;
    }

    /** A remote call runs only under the turn's revision, with the live schema the saved one,
        and never under Deny; under Ask only if the user approved that very call, and the
        approval is spent on one dispatch. */
    lemma DispatchIsAuthorized(w: World, i: nat)
      requires Valid(w) && i < |dispatched|
      ensures var d := dispatched[i];
        var row := w.saved(d.rowAt, d.handle, d.remote);
        && row.Some? && row.value.revision == d.handle.revision
        && row.value.digest.Some? && w.live(d.liveAt, d.handle, d.remote) == row.value.digest
        && row.value.permission != Deny
        && (row.value.permission == Ask ==>
              && d.position in grants && grants[d.position].againAt < d.rowAt
              && ApprovedFor(w, d.call, grants[d.position]))
      ensures forall j :: 0 <= j < |dispatched| && dispatched[j].position == dispatched[i].position ==> j == i
    {
      assert Justified(w, dispatched[i], grants);
      if dispatched[i].position in grants {
        ApprovalIs(w, grants[dispatched[i].position]);
      }
      hide GrantHolds, ApprovedFor;
    }

    /** When aliases are wired to one tool each and a session keeps its schemas, an approved call
        runs under exactly the schema the user approved. */
    lemma ApprovedSchemaRuns(w: World, i: nat)
      requires Valid(w) && i < |dispatched|
      requires forall alias :: alias in registry && alias in byAlias ==>
        registry[alias] == Remote(byAlias[alias].0, byAlias[alias].1)
      requires forall s, t, handle, remote :: w.live(s, handle, remote) == w.live(t, handle, remote)
      requires RuleAt(w, dispatched[i].handle, dispatched[i].remote, dispatched[i].rowAt) == Ask
      ensures dispatched[i].position in grants
      ensures var d := dispatched[i];
        w.saved(d.rowAt, d.handle, d.remote).value.digest == Some(grants[d.position].digest)
    {
      var d := dispatched[i];
      assert Justified(w, d, grants);
      var g := grants[d.position];
      assert GrantHolds(w, g);
      assert (g.handle, g.remote) == (d.handle, d.remote);
    }
  }
}
