/** The turn budgets and their durable snapshots (internal/aichattools/aichattools.go, web.go,
    get_search_suggestions.go, skills.go; internal/aichatworker/user_question.go). */
module Budgets {
  import opened Seqs
  import opened Utf8
  import SkillReader

  /** Everything one turn may still spend. */
  datatype Allowance = Allowance(
    rows: int, bytes: int, uniqueLimit: int, pages: set<string>,
    searches: int, fetches: int, calls: int, requests: int, skillBytes: int)

  function NonNegative(n: int): nat {
    if n < 0 then 0 else n
  }

  function Spent(remaining: int, n: int): int {
    if n >= remaining then 0 else remaining - n
  }

  // ---------------------------------------------------------------- the budget objects

  class Budget {
    var remaining: int

    constructor (rows: int)
      ensures remaining == rows
    {
      remaining := rows;
    }

    /** A snapshot never revives what was overspent. */
    constructor Restore(state: int)
      ensures remaining == NonNegative(state)
    {
      var rows := state;
      if rows < 0 {
        rows := 0;
      }
      remaining := rows;
    }

    method Spend(n: int) returns (left: int)
      modifies this
      ensures left == remaining == Spent(old(remaining), n)
    {
      if n >= remaining {
        remaining := 0;
      } else {
        remaining := remaining - n;
      }
      return remaining;
    }
  }

  class PageContentBudget {
    var remaining: int
    var uniqueLimit: int
    var pages: set<string>

    constructor (byteLimit: int, uniquePageLimit: int)
      ensures remaining == NonNegative(byteLimit) && uniqueLimit == NonNegative(uniquePageLimit) && pages == {}
    {
      remaining := if byteLimit < 0 then 0 else byteLimit;
      uniqueLimit := if uniquePageLimit < 0 then 0 else uniquePageLimit;
      pages := {};
    }

    method SpendBytes(n: int) returns (left: int)
      modifies this`remaining
      ensures left == remaining == Spent(old(remaining), NonNegative(n))
    {
      var spent := if n < 0 then 0 else n;
      if spent >= remaining {
        remaining := 0;
      } else {
        remaining := remaining - spent;
      }
      return remaining;
    }

    method TryRegisterPage(key: string) returns (ok: bool)
      modifies this`pages
      ensures ok <==> key in old(pages) || |old(pages)| < uniqueLimit
      ensures pages == if ok then old(pages) + {key} else old(pages)
    {
      if key in pages {
        assert pages == pages + {key};
        return true;
      }
      if |pages| >= uniqueLimit {
        return false;
      }
      pages := pages + {key};
      return true;
    }
  }

  /** RestorePageContentBudget: registers the saved keys again, in whatever order they were saved. */
  method RestorePageContentBudget(bytesLeft: int, uniqueLimit: int, seenKeys: seq<string>)
    returns (budget: PageContentBudget)
    ensures fresh(budget)
    ensures budget.remaining == NonNegative(bytesLeft) && budget.uniqueLimit == NonNegative(uniqueLimit)
    ensures budget.pages == Registered(seenKeys, NonNegative(uniqueLimit))
  {
    budget := new PageContentBudget(bytesLeft, uniqueLimit);
    for i := 0 to |seenKeys|
      invariant fresh(budget) && budget.remaining == NonNegative(bytesLeft)
        && budget.uniqueLimit == NonNegative(uniqueLimit)
      invariant budget.pages == Registered(seenKeys[..i], NonNegative(uniqueLimit))
    {
      TakeSnoc(seenKeys, i);
      var ok := budget.TryRegisterPage(seenKeys[i]);
    }
    TakeAll(seenKeys);
  }

  function Registered(keys: seq<string>, limit: nat): set<string> {
    if keys == [] then {}
    else
      var before := Registered(keys[..|keys| - 1], limit);
      if keys[|keys| - 1] in before || |before| < limit then before + {keys[|keys| - 1]} else before
  }

  class WebBudget {
    var searchesLeft: int
    var fetchesLeft: int

    constructor (searches: int, fetches: int)
      ensures searchesLeft == NonNegative(searches) && fetchesLeft == NonNegative(fetches)
    {
      searchesLeft := if searches < 0 then 0 else searches;
      fetchesLeft := if fetches < 0 then 0 else fetches;
    }

    method SpendSearch() returns (ok: bool)
      modifies this`searchesLeft
      ensures ok <==> old(searchesLeft) > 0
      ensures searchesLeft == old(searchesLeft) - (if ok then 1 else 0)
    {
      if searchesLeft <= 0 {
        return false;
      }
      searchesLeft := searchesLeft - 1;
      return true;
    }

    method SpendFetch() returns (ok: bool)
      modifies this`fetchesLeft
      ensures ok <==> old(fetchesLeft) > 0
      ensures fetchesLeft == old(fetchesLeft) - (if ok then 1 else 0)
    {
      if fetchesLeft <= 0 {
        return false;
      }
      fetchesLeft := fetchesLeft - 1;
      return true;
    }
  }

  class SuggestBudget {
    var callsLeft: int
    var requestsLeft: int

    constructor (calls: int, requests: int)
      ensures callsLeft == NonNegative(calls) && requestsLeft == NonNegative(requests)
    {
      callsLeft := if calls < 0 then 0 else calls;
      requestsLeft := if requests < 0 then 0 else requests;
    }

    method SpendCall() returns (ok: bool)
      modifies this`callsLeft
      ensures ok <==> old(callsLeft) > 0
      ensures callsLeft == old(callsLeft) - (if ok then 1 else 0)
    {
      if callsLeft <= 0 {
        return false;
      }
      callsLeft := callsLeft - 1;
      return true;
    }

    /** All or nothing. */
    method SpendRequests(n: int) returns (ok: bool)
      modifies this`requestsLeft
      ensures ok <==> NonNegative(n) <= old(requestsLeft)
      ensures requestsLeft == old(requestsLeft) - (if ok then NonNegative(n) else 0)
    {
      var cost := if n < 0 then 0 else n;
      if requestsLeft < cost {
        return false;
      }
      requestsLeft := requestsLeft - cost;
      return true;
    }

    /** One suggestion call: a refused request cost still uses up the call. */
    method SpendCallThenRequests(cost: int) returns (ok: bool)
      modifies this
      ensures ok <==> old(callsLeft) > 0 && NonNegative(cost) <= old(requestsLeft)
      ensures callsLeft == old(callsLeft) - (if old(callsLeft) > 0 then 1 else 0)
      ensures requestsLeft == old(requestsLeft) - (if ok then NonNegative(cost) else 0)
    {
      ok := SpendCall();
      if ok {
        ok := SpendRequests(cost);
      }
    }
  }

  class SkillBudget {
    var remaining: int

    constructor (bytes: int)
      ensures remaining == NonNegative(bytes)
    {
      remaining := if bytes < 0 then 0 else bytes;
    }

    method Spend(n: int) returns (left: int)
      modifies this
      ensures left == remaining == Spent(old(remaining), NonNegative(n))
    {
      var spent := if n < 0 then 0 else n;
      if spent >= remaining {
        remaining := 0;
      } else {
        remaining := remaining - spent;
      }
      return remaining;
    }
  }

  // ---------------------------------------------------------------- reading skills within budget

  datatype SkillOutcome = Delivered(chunk: SkillReader.Chunk) | SkillError(error: SkillReader.ReadError) | SkillLimit

  function ContentCap(remaining: int): int {
    if remaining < SkillReader.MAX_READ_CONTENT_BYTES then remaining else SkillReader.MAX_READ_CONTENT_BYTES
  }

  /** read_skill under a budget: it delivers what it pays for, to the byte. A character wider than
      what is left is refused instead of overspent. */
  method ExecuteReadSkill(c: SkillReader.Catalog, id: string, path: string, offset: int, revision: string,
                          serializedCap: int, budget: SkillBudget)
    returns (r: SkillOutcome)
    modifies budget
    ensures var was := old(budget.remaining);
      var read := SkillReader.CatalogRead(c, id, path, offset, revision, ContentCap(was), serializedCap);
      && (r.Delivered? ==>
            read == SkillReader.Read(r.chunk) && |r.chunk.content| <= was
              && budget.remaining == was - |r.chunk.content|)
      && (!r.Delivered? ==> budget.remaining == was)
      && (r.SkillError? ==> read == SkillReader.Failed(r.error))
      && (r.SkillLimit? <==> c.Loaded? && (was <= 0 || (read.Read? && |read.chunk.content| > was)))
  {
    hide SkillReader.ReadOf, SkillReader.FirstSkill;
    if c.NoCatalog? {
      return SkillError(SkillReader.NotConfigured);
    }
    if c.BrokenCatalog? {
      return SkillError(SkillReader.Unavailable);
    }
    if budget.remaining <= 0 {
      return SkillLimit;
    }
    var maxContent := SkillReader.MAX_READ_CONTENT_BYTES;
    if budget.remaining < maxContent {
      maxContent := budget.remaining;
    }
    var result := SkillReader.ReadSkill(c, id, path, offset, revision, maxContent, serializedCap);
    if result.Failed? {
      return SkillError(result.error);
    }
    if |result.chunk.content| > budget.remaining {
      return SkillLimit;
    }
    var left := budget.Spend(|result.chunk.content|);
    return Delivered(result.chunk);
  }

  // ---------------------------------------------------------------- a turn's operations

  datatype Op =
    | SpendRows(n: int)
    | SpendBytes(n: int)
    | RegisterPage(key: string)
    | Search
    | Fetch
    | Suggest(cost: int)
    | SpendSkill(n: int)
    | Park(keyOrder: seq<string>)

  /** What an operation answers: the remainder left, or whether it was admitted. */
  datatype Answer = Left(n: int) | Admitted(ok: bool) | Silent

  function After(a: Allowance, op: Op): Allowance {
    match op
    case SpendRows(n) => a.(rows := Spent(a.rows, n))
    case SpendBytes(n) => a.(bytes := Spent(a.bytes, NonNegative(n)))
    case RegisterPage(key) => if key in a.pages || |a.pages| < a.uniqueLimit then a.(pages := a.pages + {key}) else a
    case Search => if a.searches > 0 then a.(searches := a.searches - 1) else a
    case Fetch => if a.fetches > 0 then a.(fetches := a.fetches - 1) else a
    case Suggest(cost) =>
      if a.calls <= 0 then a
      else if a.requests < NonNegative(cost) then a.(calls := a.calls - 1)
      else a.(calls := a.calls - 1, requests := a.requests - NonNegative(cost))
    case SpendSkill(n) => a.(skillBytes := Spent(a.skillBytes, NonNegative(n)))
    case Park(keyOrder) => RestoredFrom(a, keyOrder)
  }

  function AnswerOf(a: Allowance, op: Op): Answer {
    match op
    case SpendRows(n) => Left(Spent(a.rows, n))
    case SpendBytes(n) => Left(Spent(a.bytes, NonNegative(n)))
    case RegisterPage(key) => Admitted(key in a.pages || |a.pages| < a.uniqueLimit)
    case Search => Admitted(a.searches > 0)
    case Fetch => Admitted(a.fetches > 0)
    case Suggest(cost) => Admitted(a.calls > 0 && a.requests >= NonNegative(cost))
    case SpendSkill(n) => Left(Spent(a.skillBytes, NonNegative(n)))
    case Park(_) => Silent
  }

  /** Snapshot and restore, the keys saved in some order. */
  function RestoredFrom(a: Allowance, keyOrder: seq<string>): Allowance {
    Allowance(
      NonNegative(a.rows), NonNegative(a.bytes),
      NonNegative(a.uniqueLimit), Registered(keyOrder, NonNegative(a.uniqueLimit)),
      NonNegative(a.searches), NonNegative(a.fetches), NonNegative(a.calls), NonNegative(a.requests),
      NonNegative(a.skillBytes))
  }

  predicate Sound(a: Allowance) {
    && a.rows >= 0 && a.bytes >= 0 && |a.pages| <= a.uniqueLimit
    && a.searches >= 0 && a.fetches >= 0 && a.calls >= 0 && a.requests >= 0 && a.skillBytes >= 0
  }

  /** The keys saved are the keys registered, each once, in any order. */
  ghost predicate SavedKeys(a: Allowance, keyOrder: seq<string>) {
    && (forall i, j :: 0 <= i < j < |keyOrder| ==> keyOrder[i] != keyOrder[j])
    && forall key :: key in keyOrder <==> key in a.pages
  }

  lemma {:induction false} RegisteredAll(keys: seq<string>, limit: nat)
    requires |keys| <= limit && forall i, j :: 0 <= i < j < |keys| ==> keys[i] != keys[j]
    ensures Registered(keys, limit) == set key | key in keys
    ensures |Registered(keys, limit)| == |keys|
  {
    if keys != [] {
      RegisteredAll(keys[..|keys| - 1], limit);
      LastKey(keys);
    }
  }

  lemma LastKey(keys: seq<string>)
    requires keys != [] && forall i, j :: 0 <= i < j < |keys| ==> keys[i] != keys[j]
    ensures var front, last := keys[..|keys| - 1], keys[|keys| - 1];
      && last !in front && (set key | key in keys) == (set key | key in front) + {last}
  {
    assert keys == keys[..|keys| - 1] + [keys[|keys| - 1]];
  }

  lemma {:induction false} DistinctSize(keys: seq<string>, s: set<string>)
    requires (forall i, j :: 0 <= i < j < |keys| ==> keys[i] != keys[j]) && forall key :: key in keys <==> key in s
    ensures |keys| == |s|
  {
    if keys == [] {
      assert s == {};
    } else {
      var front, last := keys[..|keys| - 1], keys[|keys| - 1];
      assert keys == front + [last];
      DistinctSize(front, s - {last});
    }
  }

  /** Whatever keys were saved, restoring never registers more than the limit, and leaves one out only
      when all slots are taken. */
  lemma {:induction false} RegisteredWithin(keys: seq<string>, limit: nat)
    ensures |Registered(keys, limit)| <= limit && forall key :: key in Registered(keys, limit) ==> key in keys
    ensures |Registered(keys, limit)| == limit || forall key :: key in keys ==> key in Registered(keys, limit)
  {
    if keys != [] {
      var front, last := keys[..|keys| - 1], keys[|keys| - 1];
      var before := Registered(front, limit);
      RegisteredWithin(front, limit);
      assert keys == front + [last];
      if last in before {
        assert before + {last} == before;
      }
      if |before| < limit {
        forall key | key in keys ensures key in Registered(keys, limit) {
          assert key in front || key == last;
        }
      }
    }
  }

  /** Parking and restoring is the identity, exactly when nothing was negative to begin with: only
      a row budget created below zero is clamped on the way. */
  lemma RestoreIsIdentity(a: Allowance, keyOrder: seq<string>)
    requires SavedKeys(a, keyOrder) && Sound(a.(rows := 0))
    ensures RestoredFrom(a, keyOrder) == a <==> a.rows >= 0
  {
    DistinctSize(keyOrder, a.pages);
    RegisteredAll(keyOrder, NonNegative(a.uniqueLimit));
    assert Registered(keyOrder, NonNegative(a.uniqueLimit)) == a.pages;
  }

  // ---------------------------------------------------------------- whole runs

  function RunOps(a: Allowance, ops: seq<Op>): Allowance {
    if ops == [] then a else After(RunOps(a, ops[..|ops| - 1]), ops[|ops| - 1])
  }

  /** Answers in order; parking answers nothing. */
  function Answers(a: Allowance, ops: seq<Op>): seq<Answer> {
    if ops == [] then []
    else
      var n := |ops| - 1;
      Answers(a, ops[..n]) + (if ops[n].Park? then [] else [AnswerOf(RunOps(a, ops[..n]), ops[n])])
  }

  function Unparked(ops: seq<Op>): seq<Op> {
    if ops == [] then []
    else Unparked(ops[..|ops| - 1]) + (if ops[|ops| - 1].Park? then [] else [ops[|ops| - 1]])
  }

  /** Non-negative spends, and parks that save exactly the registered keys. */
  ghost predicate Proper(a: Allowance, ops: seq<Op>) {
    ops == [] ||
    (var n := |ops| - 1;
     && Proper(a, ops[..n])
     && (ops[n].SpendRows? ==> ops[n].n >= 0)
     && (ops[n].Park? ==> SavedKeys(RunOps(a, ops[..n]), ops[n].keyOrder)))
  }

  lemma StepIsSound(a: Allowance, op: Op)
    requires Sound(a) && (op.SpendRows? ==> op.n >= 0) && (op.Park? ==> SavedKeys(a, op.keyOrder))
    ensures Sound(After(a, op))
    ensures op.Park? ==> After(a, op) == a
    ensures var b := After(a, op);
      && b.rows <= a.rows && b.bytes <= a.bytes && b.searches <= a.searches && b.fetches <= a.fetches
      && b.calls <= a.calls && b.requests <= a.requests && b.skillBytes <= a.skillBytes
      && a.pages <= b.pages && b.uniqueLimit == a.uniqueLimit
  {
    if op.Park? {
      RestoreIsIdentity(a, op.keyOrder);
    }
  }

  /** Remainders never grow or go negative, and keys stay within the unique limit. */
  lemma {:induction false} RunIsSound(a: Allowance, ops: seq<Op>)
    requires Sound(a) && Proper(a, ops)
    ensures Sound(RunOps(a, ops))
    ensures var b := RunOps(a, ops);
      && b.rows <= a.rows && b.bytes <= a.bytes && b.searches <= a.searches && b.fetches <= a.fetches
      && b.calls <= a.calls && b.requests <= a.requests && b.skillBytes <= a.skillBytes
      && a.pages <= b.pages && b.uniqueLimit == a.uniqueLimit
  {
    hide After, Sound;
    if ops != [] {
      var n := |ops| - 1;
      RunIsSound(a, ops[..n]);
      StepIsSound(RunOps(a, ops[..n]), ops[n]);
    }
  }

  /** A turn that parks any number of times behaves exactly like one that never does: same answer
      to every operation, same remainders. */
  lemma {:induction false} ParkingIsInvisible(a: Allowance, ops: seq<Op>)
    requires Sound(a) && Proper(a, ops)
    ensures RunOps(a, ops) == RunOps(a, Unparked(ops))
    ensures Answers(a, ops) == Answers(a, Unparked(ops))
  {
    hide After, Sound, AnswerOf;
    if ops != [] {
      var n := |ops| - 1;
      var before := RunOps(a, ops[..n]);
      RunIsSound(a, ops[..n]);
      ParkingIsInvisible(a, ops[..n]);
      StepIsSound(before, ops[n]);
      if ops[n].Park? {
        AppendNil(Unparked(ops[..n]));
        AppendNil(Answers(a, ops[..n]));
      } else {
        NoParks(ops[..n]);
        LastOf(Unparked(ops[..n]), ops[n]);
      }
    }
  }

  lemma {:induction false} NoParks(ops: seq<Op>)
    ensures forall i :: 0 <= i < |Unparked(ops)| ==> !Unparked(ops)[i].Park?
  {
    if ops != [] {
      NoParks(ops[..|ops| - 1]);
    }
  }

  datatype Resource = Searches | Fetches | Calls | Requests

  /** What one admitted operation may count against a resource. */
  function Cost(op: Op, resource: Resource): nat {
    match (op, resource)
    case (Search, Searches) => 1
    case (Fetch, Fetches) => 1
    case (Suggest(_), Calls) => 1
    case (Suggest(cost), Requests) => NonNegative(cost)
    case _ => 0
  }

  function Granted(a: Allowance, op: Op, resource: Resource): nat {
    if AnswerOf(a, op) == Admitted(true) then Cost(op, resource) else 0
  }

  function AdmittedCost(a: Allowance, ops: seq<Op>, resource: Resource): nat {
    if ops == [] then 0
    else
      var n := |ops| - 1;
      AdmittedCost(a, ops[..n], resource) + Granted(RunOps(a, ops[..n]), ops[n], resource)
  }

  /** Suggestion calls that found one left, whether or not their requests were granted. */
  function CallsUsed(a: Allowance, ops: seq<Op>): nat {
    if ops == [] then 0
    else
      var n := |ops| - 1;
      CallsUsed(a, ops[..n]) + CallUsed(RunOps(a, ops[..n]), ops[n])
  }

  function CallUsed(a: Allowance, op: Op): nat {
    if op.Suggest? && a.calls > 0 then 1 else 0
  }

  lemma StepAddsUp(a: Allowance, op: Op)
    requires Sound(a) && (op.Park? ==> SavedKeys(a, op.keyOrder))
    ensures Granted(a, op, Searches) + After(a, op).searches == a.searches
    ensures Granted(a, op, Fetches) + After(a, op).fetches == a.fetches
    ensures Granted(a, op, Requests) + After(a, op).requests == a.requests
    ensures CallUsed(a, op) + After(a, op).calls == a.calls
    ensures Granted(a, op, Calls) <= CallUsed(a, op)
  {
    hide RestoredFrom, Registered, SavedKeys;
    if op.Park? {
      SoundParks(a, op.keyOrder);
    }
  }

  /** What was admitted and what is left always add up to the original allowance. For suggestion
      calls it is those used that add up: one whose requests are refused is used up as well, so
      the admitted ones stay within the allowance. */
  lemma {:induction false} AdmittedAddsUp(a: Allowance, ops: seq<Op>)
    requires Sound(a) && Proper(a, ops)
    ensures AdmittedCost(a, ops, Searches) + RunOps(a, ops).searches == a.searches
    ensures AdmittedCost(a, ops, Fetches) + RunOps(a, ops).fetches == a.fetches
    ensures AdmittedCost(a, ops, Requests) + RunOps(a, ops).requests == a.requests
    ensures CallsUsed(a, ops) + RunOps(a, ops).calls == a.calls
    ensures AdmittedCost(a, ops, Calls) <= CallsUsed(a, ops) <= a.calls
  {
    hide After, Granted, CallUsed, SavedKeys;
    RunIsSound(a, ops);
    if ops != [] {
      var n := |ops| - 1;
      RunIsSound(a, ops[..n]);
      AdmittedAddsUp(a, ops[..n]);
      StepAddsUp(RunOps(a, ops[..n]), ops[n]);
    }
  }

  // ---------------------------------------------------------------- what a run leaves

  datatype Pool = Rows | PageBytes | SkillBytes

  function Held(a: Allowance, pool: Pool): int {
    match pool case Rows => a.rows case PageBytes => a.bytes case SkillBytes => a.skillBytes
  }

  /** What an operation takes from a pool; negative byte counts take nothing. */
  function Taken(op: Op, pool: Pool): int {
    match (op, pool)
    case (SpendRows(n), Rows) => n
    case (SpendBytes(n), PageBytes) => NonNegative(n)
    case (SpendSkill(n), SkillBytes) => NonNegative(n)
    case _ => 0
  }

  function TotalTaken(ops: seq<Op>, pool: Pool): int {
    if ops == [] then 0 else TotalTaken(ops[..|ops| - 1], pool) + Taken(ops[|ops| - 1], pool)
  }

  lemma StepTakes(a: Allowance, op: Op, pool: Pool)
    requires Sound(a) && (op.SpendRows? ==> op.n >= 0) && (op.Park? ==> SavedKeys(a, op.keyOrder))
    ensures Held(After(a, op), pool) == NonNegative(Held(a, pool) - Taken(op, pool))
    ensures Taken(op, pool) >= 0
  {
    hide RestoredFrom, SavedKeys;
    if op.Park? {
      SoundParks(a, op.keyOrder);
    }
  }

  /** A pool holds what it began with less everything spent on it, and never less than nothing. */
  lemma {:induction false} SpendsAddUp(a: Allowance, ops: seq<Op>, pool: Pool)
    requires Sound(a) && Proper(a, ops)
    ensures Held(RunOps(a, ops), pool) == NonNegative(Held(a, pool) - TotalTaken(ops, pool))
    ensures TotalTaken(ops, pool) >= 0
  {
    hide After, Taken, SavedKeys;
    if ops != [] {
      var n := |ops| - 1;
      RunIsSound(a, ops[..n]);
      SpendsAddUp(a, ops[..n], pool);
      StepTakes(RunOps(a, ops[..n]), ops[n], pool);
    }
  }

  /** How often a run asks. */
  function Asked(ops: seq<Op>, resource: Resource): nat {
    if ops == [] then 0
    else
      Asked(ops[..|ops| - 1], resource) +
      (match (ops[|ops| - 1], resource)
       case (Search, Searches) => 1
       case (Fetch, Fetches) => 1
       case (Suggest(_), Calls) => 1
       case _ => 0)
  }

  function Least(a: int, b: int): int {
    if a <= b then a else b
  }

  lemma StepAdmits(a: Allowance, op: Op)
    requires Sound(a)
    ensures Granted(a, op, Searches) == Least(a.searches, Asked([op], Searches))
    ensures Granted(a, op, Fetches) == Least(a.fetches, Asked([op], Fetches))
    ensures CallUsed(a, op) == Least(a.calls, Asked([op], Calls))
  {
    assert [op][..0] == [];
  }

  lemma AskedSnoc(ops: seq<Op>, op: Op, resource: Resource)
    ensures Asked(ops + [op], resource) == Asked(ops, resource) + Asked([op], resource)
  {
    LastOf(ops, op);
    assert [op][..0] == [];
  }

  /** Searches, fetches and suggestion calls are admitted as long as there are any left. */
  lemma {:induction false} AdmittedWhileLeft(a: Allowance, ops: seq<Op>)
    requires Sound(a) && Proper(a, ops)
    ensures AdmittedCost(a, ops, Searches) == Least(a.searches, Asked(ops, Searches))
    ensures AdmittedCost(a, ops, Fetches) == Least(a.fetches, Asked(ops, Fetches))
    ensures CallsUsed(a, ops) == Least(a.calls, Asked(ops, Calls))
  {
    hide After, Granted, CallUsed, SavedKeys;
    if ops != [] {
      var n := |ops| - 1;
      RunIsSound(a, ops[..n]);
      AdmittedWhileLeft(a, ops[..n]);
      AdmittedAddsUp(a, ops[..n]);
      StepAdmits(RunOps(a, ops[..n]), ops[n]);
      assert ops == ops[..n] + [ops[n]];
      forall resource ensures Asked(ops, resource) == Asked(ops[..n], resource) + Asked([ops[n]], resource) {
        AskedSnoc(ops[..n], ops[n], resource);
      }
      hide Asked;
    }
  }

  function KeysAsked(ops: seq<Op>): set<string> {
    if ops == [] then {}
    else KeysAsked(ops[..|ops| - 1]) + KeyAsked(ops[|ops| - 1])
  }

  /** Every page asked for is registered, unless all slots are taken; and no other page ever is. */
  lemma {:induction false} PagesFillSlots(a: Allowance, ops: seq<Op>)
    requires Sound(a) && Proper(a, ops)
    ensures RunOps(a, ops).pages <= a.pages + KeysAsked(ops)
    ensures RunOps(a, ops).pages == a.pages + KeysAsked(ops) || |RunOps(a, ops).pages| == a.uniqueLimit
  {
    hide Sound, SavedKeys, After, KeysAsked;
    if ops == [] {
      NoKeysAsked();
    } else {
      var n := |ops| - 1;
      RunIsSound(a, ops[..n]);
      PagesFillSlots(a, ops[..n]);
      KeysAskedSnoc(ops);
      RegisterFills(RunOps(a, ops[..n]), ops[n]);
      PagesFill(a.pages, KeysAsked(ops[..n]), KeyAsked(ops[n]), RunOps(a, ops[..n]).pages, RunOps(a, ops).pages,
        a.uniqueLimit);
    }
  }

  function KeyAsked(op: Op): set<string> {
    if op.RegisterPage? then {op.key} else {}
  }

  lemma NoKeysAsked()
    ensures KeysAsked([]) == {}
  {
  }

  lemma KeysAskedSnoc(ops: seq<Op>)
    requires ops != []
    ensures KeysAsked(ops) == KeysAsked(ops[..|ops| - 1]) + KeyAsked(ops[|ops| - 1])
  {
  }

  lemma PagesFill(start: set<string>, asked: set<string>, key: set<string>, before: set<string>, after: set<string>,
                  limit: int)
    requires before <= start + asked && (before == start + asked || |before| == limit)
    requires after == before + key || (after == before && |before| == limit)
    requires |before| == limit && after != before ==> |after| <= limit
    ensures after <= start + (asked + key) && (after == start + (asked + key) || |after| == limit)
  {
    if after == before + key {
      if before == start + asked {
        assert after == start + (asked + key);
      } else if after != before {
        MoreKeys(before, after);
      }
    }
  }

  lemma MoreKeys(before: set<string>, after: set<string>)
    requires before <= after
    ensures |before| <= |after|
  {
    assert after == before + (after - before);
  }

  lemma RegisterFills(a: Allowance, op: Op)
    requires Sound(a) && (op.Park? ==> SavedKeys(a, op.keyOrder))
    ensures var b := After(a, op);
      && (b.pages == a.pages + KeyAsked(op) || (b.pages == a.pages && |a.pages| == a.uniqueLimit))
      && |b.pages| <= a.uniqueLimit
  {
    if op.Park? {
      SoundParks(a, op.keyOrder);
      hide After, SavedKeys;
      NothingMore(a.pages);
    } else if op.RegisterPage? {
      OneMoreKey(a.pages, op.key);
    } else {
      hide Spent, NonNegative;
      NothingMore(a.pages);
    }
  }

  lemma NothingMore(keys: set<string>)
    ensures keys + {} == keys
  {
  }

  lemma OneMoreKey(keys: set<string>, key: string)
    ensures key in keys ==> keys + {key} == keys
    ensures key !in keys ==> |keys + {key}| == |keys| + 1
  {
  }

  /** Answers are true: a spend names what is left afterwards, a page is admitted exactly when it is
      registered afterwards, and a suggestion exactly when a call and all its requests were there. */
  lemma AnswersAreTrue(a: Allowance, op: Op)
    requires Sound(a)
    ensures op.SpendRows? ==> AnswerOf(a, op) == Left(After(a, op).rows)
    ensures op.SpendBytes? ==> AnswerOf(a, op) == Left(After(a, op).bytes)
    ensures op.SpendSkill? ==> AnswerOf(a, op) == Left(After(a, op).skillBytes)
    ensures op.RegisterPage? ==> AnswerOf(a, op) == Admitted(op.key in After(a, op).pages)
    ensures op.Suggest? ==> AnswerOf(a, op) == Admitted(a.calls > 0 && op.cost <= a.requests)
    ensures op.Search? ==> AnswerOf(a, op) == Admitted(a.searches > 0)
    ensures op.Fetch? ==> AnswerOf(a, op) == Admitted(a.fetches > 0)
  {
  }

  /** Spending a negative number of rows would raise the remainder, and is the only way to. */
  lemma RowsGrowOnlyByNegativeSpends(rows: int, n: int)
    requires rows >= 0
    ensures Spent(rows, n) > rows <==> n < 0
    ensures Spent(rows, n) >= 0
  {
  }

  lemma SoundParks(a: Allowance, keyOrder: seq<string>)
    requires SavedKeys(a, keyOrder) && Sound(a)
    ensures After(a, Park(keyOrder)) == a
  {
    RestoreIsIdentity(a, keyOrder);
  }

  // ---------------------------------------------------------------- one turn's budget objects

  class TurnBudgets {
    var row: Budget
    var page: PageContentBudget
    var web: WebBudget
    var suggest: SuggestBudget
    var skill: SkillBudget

    constructor (row: Budget, page: PageContentBudget, web: WebBudget, suggest: SuggestBudget, skill: SkillBudget)
      ensures this.row == row && this.page == page && this.web == web && this.suggest == suggest && this.skill == skill
    {
      this.row, this.page, this.web, this.suggest, this.skill := row, page, web, suggest, skill;
    }

    function Now(): Allowance
      reads this, row, page, web, suggest, skill
    {
      Allowance(row.remaining, page.remaining, page.uniqueLimit, page.pages,
                web.searchesLeft, web.fetchesLeft, suggest.callsLeft, suggest.requestsLeft, skill.remaining)
    }

    /** A tool spending from the turn's budgets does what `After` and `AnswerOf` say. */
    method Apply(op: Op) returns (answer: Answer)
      requires !op.Park?
      modifies row, page, web, suggest, skill
      ensures Now() == After(old(Now()), op) && answer == AnswerOf(old(Now()), op)
    {
      if op.SpendRows? || op.SpendBytes? || op.SpendSkill? {
        answer := Spend(op);
      } else {
        answer := Ask(op);
      }
    }

    method Spend(op: Op) returns (answer: Answer)
      requires op.SpendRows? || op.SpendBytes? || op.SpendSkill?
      modifies row, page, skill
      ensures Now() == After(old(Now()), op) && answer == AnswerOf(old(Now()), op)
    {
      hide RestoredFrom, Spent, NonNegative;
      match op
      case SpendRows(n) => var left := row.Spend(n); answer := Left(left);
      case SpendBytes(n) => var left := page.SpendBytes(n); answer := Left(left);
      case SpendSkill(n) => var left := skill.Spend(n); answer := Left(left);
    }

    method Ask(op: Op) returns (answer: Answer)
      requires op.RegisterPage? || op.Search? || op.Fetch? || op.Suggest?
      modifies page, web, suggest
      ensures Now() == After(old(Now()), op) && answer == AnswerOf(old(Now()), op)
    {
      hide RestoredFrom, Spent, NonNegative;
      var ok;
      match op {
        case RegisterPage(key) => ok := page.TryRegisterPage(key);
        case Search => ok := web.SpendSearch();
        case Fetch => ok := web.SpendFetch();
        case Suggest(cost) => ok := suggest.SpendCallThenRequests(cost);
      }
      answer := Admitted(ok);
    }

    /** Snapshots the remainders and resumes on new objects built from them. */
    method ParkAndResume() returns (ghost keys: seq<string>)
      modifies this
      ensures SavedKeys(old(Now()), keys) && Now() == After(old(Now()), Park(keys))
      ensures Sound(old(Now())) ==> Now() == old(Now())
    {
      hide Registered, Sound, NonNegative, Spent;
      var before := Now();
      var seen := SeenKeys(page.pages);
      keys := seen;
      row := new Budget.Restore(before.rows);
      page := RestorePageContentBudget(before.bytes, before.uniqueLimit, seen);
      web := new WebBudget(before.searches, before.fetches);
      suggest := new SuggestBudget(before.calls, before.requests);
      skill := new SkillBudget(before.skillBytes);
      if Sound(before) {
        SoundParks(before, seen);
      }
    }
  }

  /** The registered keys in map order, which is any order. */
  method SeenKeys(pages: set<string>) returns (keys: seq<string>)
    ensures forall i, j :: 0 <= i < j < |keys| ==> keys[i] != keys[j]
    ensures forall key :: key in keys <==> key in pages
  {
    keys := [];
    var rest := pages;
    while rest != {}
      invariant rest <= pages
      invariant forall i :: 0 <= i < |keys| ==> keys[i] in pages && keys[i] !in rest
      invariant forall i, j :: 0 <= i < j < |keys| ==> keys[i] != keys[j]
      invariant forall key :: key in pages && key !in rest ==> key in keys
      decreases rest
    {
      var key :| key in rest;
      rest := rest - {key};
      SeenNext(keys, key);
      keys := keys + [key];
    }
  }

  lemma SeenNext(keys: seq<string>, key: string)
    ensures forall other :: other in keys + [key] <==> other in keys || other == key
  {
    assert (keys + [key])[|keys|] == key;
    assert forall i :: 0 <= i < |keys| ==> (keys + [key])[i] == keys[i];
  }
}
