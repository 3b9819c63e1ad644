/** Refreshing a location's generated Maps queries
    (internal/aiaudit/location_map_query_generation.go). */
module MapQueries {
  import opened Seqs

  const MAP_QUERY_STARTER_LIMIT := 10
  const MAX_INT32 := 0x7FFF_FFFF

  /** A stored query. */
  datatype Row = Row(
    id: nat, text: string, normalized: string, ordinal: int, enabled: bool, isMap: bool, generated: bool)

  datatype Insert = Insert(text: string, normalized: string, ordinal: int, enabled: bool)

  datatype Plan = Plan(inserts: seq<Insert>, deletes: seq<nat>)

  /** Display and dedupe-key normalization of free text; nothing about them is assumed. */
  datatype Norm = Norm(display: string -> string, key: string -> string)

  /** Go's int32 increment. */
  function Wrap32(n: int): (r: int)
    ensures -MAX_INT32 - 1 <= r <= MAX_INT32
    ensures -MAX_INT32 - 1 <= n <= MAX_INT32 ==> r == n
  {
    (n + MAX_INT32 + 1) % 0x1_0000_0000 - MAX_INT32 - 1
  }

  predicate IsInt32(n: int) {
    -MAX_INT32 - 1 <= n <= MAX_INT32
  }

  // ---------------------------------------------------------------- the plan

  /** The wanted phrases, each key once, at most the limit. */
  function Wanted(queries: seq<string>, norm: Norm): seq<Insert> {
    if queries == [] then []
    else
      var before := Wanted(queries[..|queries| - 1], norm);
      var display := norm.display(queries[|queries| - 1]);
      if |before| >= MAP_QUERY_STARTER_LIMIT || display == "" || Keyed(before, norm.key(display)) then before
      else before + [Insert(display, norm.key(display), 0, false)]
  }

  predicate Keyed(items: seq<Insert>, key: string) {
    exists i :: 0 <= i < |items| && items[i].normalized == key
  }

  predicate Has(row: Row, key: string, norm: Norm) {
    row.isMap && (row.normalized == key || norm.key(row.text) == key)
  }

  predicate Present(rows: seq<Row>, key: string, norm: Norm) {
    exists i :: 0 <= i < |rows| && Has(rows[i], key, norm)
  }

  /** A generated row none of whose keys is wanted. */
  predicate Unwanted(row: Row, want: seq<Insert>, norm: Norm) {
    row.isMap && row.generated && !Keyed(want, row.normalized) && !Keyed(want, norm.key(row.text))
  }

  function Deletes(rows: seq<Row>, want: seq<Insert>, norm: Norm): seq<nat> {
    if rows == [] then []
    else
      var row := rows[|rows| - 1];
      Deletes(rows[..|rows| - 1], want, norm) + (if Unwanted(row, want, norm) then [row.id] else [])
  }

  function NextOrdinal(rows: seq<Row>): int {
    if rows == [] then 0
    else
      var next := NextOrdinal(rows[..|rows| - 1]);
      var row := rows[|rows| - 1];
      if row.isMap && row.ordinal >= next then Wrap32(row.ordinal + 1) else next
  }

  predicate NoMapRows(rows: seq<Row>) {
    forall i :: 0 <= i < |rows| ==> !rows[i].isMap
  }

  /** The wanted phrases that no row represents yet, in order. */
  function Inserts(want: seq<Insert>, rows: seq<Row>, norm: Norm): (r: seq<Insert>)
    ensures |r| <= |want|
  {
    if want == [] then []
    else
      var before := Inserts(want[..|want| - 1], rows, norm);
      var item := want[|want| - 1];
      if |before| >= MAP_QUERY_STARTER_LIMIT || Present(rows, item.normalized, norm)
        || Keyed(before, item.normalized) then before
      else before + [item.(ordinal := Wrap32(NextOrdinal(rows) + |before|), enabled := NoMapRows(rows))]
  }

  function PlanOf(queries: seq<string>, rows: seq<Row>, norm: Norm): Plan {
    var want := Wanted(queries, norm);
    Plan(Inserts(want, rows, norm), Deletes(rows, want, norm))
  }

  function Keys(items: seq<Insert>): set<string> {
    set i | 0 <= i < |items| :: items[i].normalized
  }

  lemma Wrap32Next(n: int, k: nat)
    ensures Wrap32(Wrap32(n + k) + 1) == Wrap32(n + (k + 1))
  {
  }

  method PlanRefresh(queries: seq<string>, rows: seq<Row>, norm: Norm) returns (plan: Plan)
    requires forall i :: 0 <= i < |rows| ==> IsInt32(rows[i].ordinal)
    ensures plan == PlanOf(queries, rows, norm)
  {
    hide NextOrdinal, Wrap32, Present, Keyed;
    NothingStored(norm);
    var want := CollectWanted(queries, norm);
    var wantKeys := Keys(want);
    KeysAreKeyed(want);
    var present: set<string> := {};
    var next := 0;
    var mapCount := 0;
    var deletes: seq<nat> := [];
    for i := 0 to |rows|
      invariant forall key :: key in present <==> Present(rows[..i], key, norm)
      invariant next == NextOrdinal(rows[..i]) && IsInt32(next)
      invariant deletes == Deletes(rows[..i], want, norm)
      invariant mapCount == 0 <==> NoMapRows(rows[..i])
    {
      TakeSnoc(rows, i);
      var row := rows[i];
      NextOrdinalSnoc(rows[..i], row);
      PresentSnoc(rows[..i], row, norm);
      if !row.isMap {
        continue;
      }
      mapCount := mapCount + 1;
      present := present + {norm.key(row.text), row.normalized};
      if row.ordinal >= next {
        next := Wrap32(row.ordinal + 1);
      }
      if !row.generated {
        continue;
      }
      if row.normalized in wantKeys || norm.key(row.text) in wantKeys {
        continue;
      }
      deletes := deletes + [row.id];
    }
    TakeAll(rows);
    var inserts := CollectInserts(want, rows, norm, present, next, mapCount == 0);
    plan := Plan(inserts, deletes);
  }

  method CollectWanted(queries: seq<string>, norm: Norm) returns (want: seq<Insert>)
    ensures want == Wanted(queries, norm)
  {
    want := [];
    for i := 0 to |queries|
      invariant want == Wanted(queries[..i], norm)
    {
      TakeSnoc(queries, i);
      if |want| >= MAP_QUERY_STARTER_LIMIT {
        WantedIsFull(queries, i, norm);
        break;
      }
      var display := norm.display(queries[i]);
      if display == "" {
        continue;
      }
      var key := norm.key(display);
      if key in Keys(want) {
        continue;
      }
      want := want + [Insert(display, key, 0, false)];
    }
    TakeAll(queries);
  }

  lemma {:induction false} WantedIsFull(queries: seq<string>, i: nat, norm: Norm)
    requires i <= |queries| && |Wanted(queries[..i], norm)| >= MAP_QUERY_STARTER_LIMIT
    ensures Wanted(queries, norm) == Wanted(queries[..i], norm)
  {
    if i == |queries| {
      TakeAll(queries);
    } else {
      TakeTake(queries, i, |queries| - 1);
      WantedIsFull(queries[..|queries| - 1], i, norm);
    }
  }

  method CollectInserts(want: seq<Insert>, rows: seq<Row>, norm: Norm, known: set<string>, first: int, initial: bool)
    returns (inserts: seq<Insert>)
    requires forall key :: key in known <==> Present(rows, key, norm)
    requires first == NextOrdinal(rows) && IsInt32(first) && initial == NoMapRows(rows)
    ensures inserts == Inserts(want, rows, norm)
  {
    hide Present, NextOrdinal, NoMapRows, Wrap32, Keyed, Inserts;
    NothingKeyed();
    NothingInserted(rows, norm);
    var present, next := known, first;
    inserts := [];
    for i := 0 to |want|
      invariant inserts == Inserts(want[..i], rows, norm)
      invariant forall key :: key in present <==> key in known || Keyed(inserts, key)
      invariant next == Wrap32(first + |inserts|)
      invariant |inserts| < MAP_QUERY_STARTER_LIMIT
    {
      TakeSnoc(want, i);
      var item := want[i];
      InsertsSnoc(want[..i], item, rows, norm);
      if item.normalized in present {
        continue;
      }
      KeyedSnoc(inserts, item.(ordinal := next, enabled := initial));
      present := present + {item.normalized};
      inserts := inserts + [item.(ordinal := next, enabled := initial)];
      Wrap32Next(first, |inserts| - 1);
      next := Wrap32(next + 1);
      if |inserts| >= MAP_QUERY_STARTER_LIMIT {
        InsertsAreFull(want, i + 1, rows, norm);
        break;
      }
    }
    TakeAll(want);
  }

  lemma NothingInserted(rows: seq<Row>, norm: Norm)
    ensures Inserts([], rows, norm) == []
  {
  }

  lemma InsertsSnoc(want: seq<Insert>, item: Insert, rows: seq<Row>, norm: Norm)
    ensures var before := Inserts(want, rows, norm);
      Inserts(want + [item], rows, norm) ==
        if |before| >= MAP_QUERY_STARTER_LIMIT || Present(rows, item.normalized, norm)
          || Keyed(before, item.normalized) then before
        else before + [item.(ordinal := Wrap32(NextOrdinal(rows) + |before|), enabled := NoMapRows(rows))]
  {
    hide Present, NextOrdinal, NoMapRows, Wrap32, Keyed;
    LastOf(want, item);
  }

  lemma {:induction false} InsertsAreFull(want: seq<Insert>, i: nat, rows: seq<Row>, norm: Norm)
    requires i <= |want| && |Inserts(want[..i], rows, norm)| >= MAP_QUERY_STARTER_LIMIT
    ensures Inserts(want, rows, norm) == Inserts(want[..i], rows, norm)
  {
    if i == |want| {
      TakeAll(want);
    } else {
      TakeTake(want, i, |want| - 1);
      InsertsAreFull(want[..|want| - 1], i, rows, norm);
    }
  }

  lemma NothingStored(norm: Norm)
    ensures NextOrdinal([]) == 0 && NoMapRows([]) && forall key :: !Present([], key, norm)
  {
  }

  lemma NothingKeyed()
    ensures forall key :: !Keyed([], key)
  {
  }

  lemma KeyedSnoc(items: seq<Insert>, item: Insert)
    ensures forall key :: Keyed(items + [item], key) <==> Keyed(items, key) || item.normalized == key
  {
    forall key ensures Keyed(items + [item], key) <==> Keyed(items, key) || item.normalized == key {
      assert (items + [item])[|items|] == item;
      if Keyed(items, key) {
        var i :| 0 <= i < |items| && items[i].normalized == key;
        assert (items + [item])[i] == items[i];
      }
    }
  }

  lemma KeysAreKeyed(items: seq<Insert>)
    ensures forall key :: key in Keys(items) <==> Keyed(items, key)
  {
  }

  lemma NextOrdinalSnoc(rows: seq<Row>, row: Row)
    requires IsInt32(NextOrdinal(rows)) && IsInt32(row.ordinal)
    ensures NextOrdinal(rows + [row]) ==
      if row.isMap && row.ordinal >= NextOrdinal(rows) then Wrap32(row.ordinal + 1) else NextOrdinal(rows)
    ensures IsInt32(NextOrdinal(rows + [row]))
  {
    LastOf(rows, row);
  }

  lemma PresentSnoc(rows: seq<Row>, row: Row, norm: Norm)
    ensures forall key :: Present(rows + [row], key, norm) <==> Present(rows, key, norm) || Has(row, key, norm)
  {
    forall key ensures Present(rows + [row], key, norm) <==> Present(rows, key, norm) || Has(row, key, norm) {
      assert (rows + [row])[|rows|] == row;
      if Present(rows, key, norm) {
        var i :| 0 <= i < |rows| && Has(rows[i], key, norm);
        assert (rows + [row])[i] == rows[i];
      }
    }
  }

  // ---------------------------------------------------------------- saving the plan

  /** DELETE ... WHERE id, and only generated rows. */
  function Kept(rows: seq<Row>, ids: seq<nat>): seq<Row> {
    if rows == [] then []
    else
      var row := rows[|rows| - 1];
      Kept(rows[..|rows| - 1], ids) + (if row.generated && row.id in ids then [] else [row])
  }

  function NextId(rows: seq<Row>): (id: nat)
    ensures forall i :: 0 <= i < |rows| ==> rows[i].id < id
  {
    if rows == [] then 0
    else
      var before, last := NextId(rows[..|rows| - 1]), rows[|rows| - 1].id;
      if last + 1 > before then last + 1 else before
  }

  function Stored(item: Insert, id: nat): Row {
    Row(id, item.text, item.normalized, item.ordinal, item.enabled, true, true)
  }

  function Added(inserts: seq<Insert>, firstId: nat): (r: seq<Row>)
    ensures |r| == |inserts| && forall i :: 0 <= i < |r| ==> r[i] == Stored(inserts[i], firstId + i)
  {
    if inserts == [] then []
    else Added(inserts[..|inserts| - 1], firstId) + [Stored(inserts[|inserts| - 1], firstId + |inserts| - 1)]
  }

  function Applied(rows: seq<Row>, queries: seq<string>, norm: Norm): seq<Row> {
    var plan := PlanOf(queries, rows, norm);
    Kept(rows, plan.deletes) + Added(plan.inserts, NextId(rows))
  }

  /** The location's map rows in ordinal order, under the table's keys and checks. */
  predicate ValidRows(rows: seq<Row>) {
    && (forall i :: 0 <= i < |rows| ==> rows[i].isMap && 0 <= rows[i].ordinal <= MAX_INT32)
    && forall i, j :: 0 <= i < j < |rows| ==>
      rows[i].ordinal < rows[j].ordinal && rows[i].id != rows[j].id && rows[i].normalized != rows[j].normalized
  }

  /** One past the largest ordinal, without wrapping. */
  function FirstFree(rows: seq<Row>): int {
    if rows == [] then 0 else rows[|rows| - 1].ordinal + 1
  }

  /** The ordinals the plan needs exist. */
  predicate HasRoom(rows: seq<Row>, inserts: seq<Insert>) {
    inserts == [] || FirstFree(rows) + |inserts| - 1 <= MAX_INT32
  }

  class LocationQueries {
    var rows: seq<Row>

    constructor ()
      ensures rows == [] && ValidRows(rows)
    {
      rows := [];
      NoRows();
    }

    method DeleteGenerated(id: nat)
      modifies this
      ensures rows == Kept(old(rows), [id])
    {
      var kept: seq<Row> := [];
      for i := 0 to |rows|
        invariant rows == old(rows) && kept == Kept(rows[..i], [id])
      {
        TakeSnoc(rows, i);
        if !(rows[i].generated && rows[i].id == id) {
          kept := kept + [rows[i]];
        }
      }
      TakeAll(rows);
      rows := kept;
    }

    /** INSERT ... ON CONFLICT (normalized) DO NOTHING; a negative or used ordinal is an error. */
    method InsertQuery(row: Row) returns (ok: bool)
      modifies this
      ensures (exists i :: 0 <= i < |old(rows)| && old(rows)[i].normalized == row.normalized) ==>
        ok && rows == old(rows)
      ensures !(exists i :: 0 <= i < |old(rows)| && old(rows)[i].normalized == row.normalized) ==>
        && (ok <==> row.ordinal >= 0 && forall i :: 0 <= i < |old(rows)| ==> old(rows)[i].ordinal != row.ordinal)
        && rows == if ok then old(rows) + [row] else old(rows)
    {
      var free := row.ordinal >= 0;
      for i := 0 to |rows|
        invariant rows == old(rows)
        invariant forall k :: 0 <= k < i ==> rows[k].normalized != row.normalized
        invariant free <==> row.ordinal >= 0 && forall k :: 0 <= k < i ==> rows[k].ordinal != row.ordinal
      {
        if rows[i].normalized == row.normalized {
          return true;
        }
        if rows[i].ordinal == row.ordinal {
          free := false;
        }
      }
      if free {
        rows := rows + [row];
      }
      return free;
    }

    /** One transaction, `fault(n)` failing its n-th statement: the whole plan, or nothing. Unless
        a statement fails it fails exactly when the plan needs an ordinal past the largest 32-bit
        one, which would wrap. */
    method SaveLocationMapQueryStarter(queries: seq<string>, norm: Norm, fault: nat -> bool) returns (ok: bool)
      requires ValidRows(rows)
      modifies this
      ensures ValidRows(rows)
      ensures ok ==> HasRoom(old(rows), PlanOf(queries, old(rows), norm).inserts)
      ensures (forall n :: !fault(n)) ==> (ok <==> HasRoom(old(rows), PlanOf(queries, old(rows), norm).inserts))
      ensures rows == if ok then Applied(old(rows), queries, norm) else old(rows)
    {
      hide *;
      Int32Rows(rows);
      var before := rows;
      if fault(0) || fault(1) {
        return false;
      }
      var plan := PlanRefresh(queries, rows, norm);
      ghost var want := Wanted(queries, norm);
      PlanIs(queries, before, norm);
      var firstId := NextId(rows);
      NothingDeleted(before);
      TakeAll(plan.deletes);
      for i := 0 to |plan.deletes|
        invariant rows == Kept(before, plan.deletes[..i])
      {
        if fault(2 + i) {
          rows := before;
          return false;
        }
        DeleteGenerated(plan.deletes[i]);
        TakeSnoc(plan.deletes, i);
        KeptTwice(before, plan.deletes[..i], plan.deletes[i]);
      }
      ghost var kept := rows;
      MidwayStarts(before, plan.inserts, plan.deletes, firstId);
      for i := 0 to |plan.inserts|
        invariant Midway(before, plan.inserts, kept, firstId, rows, i)
      {
        if fault(2 + |plan.deletes| + i) {
          rows := before;
          return false;
        }
        InsertFits(before, want, norm, kept, firstId, rows, i);
        var good := InsertQuery(Stored(plan.inserts[i], firstId + i));
        if !good {
          NoRoomLeft(before, plan.inserts, i);
          rows := before;
          return false;
        }
      }
      MidwayEnds(before, plan.inserts, kept, firstId, rows);
      if fault(2 + |plan.deletes| + |plan.inserts|) {
        rows := before;
        return false;
      }
      AppliedIs(before, queries, norm);
      ok := true;
    }
  }

  // ---- lemmas for the save

  lemma NoRows()
    ensures ValidRows([])
  {
  }

  lemma Int32Rows(rows: seq<Row>)
    requires ValidRows(rows)
    ensures forall i :: 0 <= i < |rows| ==> IsInt32(rows[i].ordinal)
  {
  }

  lemma {:induction false} NothingDeleted(rows: seq<Row>)
    ensures Kept(rows, []) == rows
  {
    if rows != [] {
      NothingDeleted(rows[..|rows| - 1]);
    }
  }

  lemma {:induction false} KeptTwice(rows: seq<Row>, ids: seq<nat>, id: nat)
    ensures Kept(Kept(rows, ids), [id]) == Kept(rows, ids + [id])
  {
    if rows != [] {
      var front, row := rows[..|rows| - 1], rows[|rows| - 1];
      KeptTwice(front, ids, id);
      LastOf(Kept(front, ids), row);
      AppendNil(Kept(front, ids));
    }
  }

  /** Exactly the rows that are not generated or not listed survive. */
  lemma {:induction false} KeptIsExact(rows: seq<Row>, ids: seq<nat>, row: Row)
    ensures row in Kept(rows, ids) <==> row in rows && !(row.generated && row.id in ids)
  {
    if rows != [] {
      KeptIsExact(rows[..|rows| - 1], ids, row);
      assert rows == rows[..|rows| - 1] + [rows[|rows| - 1]];
    }
  }

  lemma {:induction false} KeptIsValid(rows: seq<Row>, ids: seq<nat>)
    requires ValidRows(rows)
    ensures ValidRows(Kept(rows, ids))
  {
    if rows != [] {
      var front, last := rows[..|rows| - 1], rows[|rows| - 1];
      ValidFront(rows);
      hide ValidRows;
      KeptIsValid(front, ids);
      var kept := Kept(front, ids);
      forall k | 0 <= k < |kept|
        ensures kept[k].normalized != last.normalized && kept[k].id != last.id && kept[k].ordinal < last.ordinal
      {
        KeptIsExact(front, ids, kept[k]);
        BeforeLast(rows, kept[k]);
      }
      LastIsValid(rows);
      ValidSnoc(kept, last);
    }
  }

  lemma ValidFront(rows: seq<Row>)
    requires ValidRows(rows) && rows != []
    ensures ValidRows(rows[..|rows| - 1])
  {
  }

  lemma LastIsValid(rows: seq<Row>)
    requires ValidRows(rows) && rows != []
    ensures rows[|rows| - 1].isMap && 0 <= rows[|rows| - 1].ordinal <= MAX_INT32
  {
  }

  lemma BeforeLast(rows: seq<Row>, row: Row)
    requires ValidRows(rows) && rows != [] && row in rows[..|rows| - 1]
    ensures var last := rows[|rows| - 1];
      row.normalized != last.normalized && row.id != last.id && row.ordinal < last.ordinal
  {
  }

  lemma NothingAdded(kept: seq<Row>, firstId: nat)
    ensures kept + Added([], firstId) == kept
  {
  }

  /** What the planner inserts: wanted keys that no row has, each once, at consecutive ordinals. */
  lemma {:induction false} InsertsAre(want: seq<Insert>, rows: seq<Row>, norm: Norm, i: nat)
    requires i < |Inserts(want, rows, norm)|
    ensures var item := Inserts(want, rows, norm)[i];
      && item.ordinal == Wrap32(NextOrdinal(rows) + i)
      && !Present(rows, item.normalized, norm) && Keyed(want, item.normalized)
      && forall k :: 0 <= k < i ==> Inserts(want, rows, norm)[k].normalized != item.normalized
  {
    hide Wrap32, NextOrdinal, Present, NoMapRows;
    var front, last := want[..|want| - 1], want[|want| - 1];
    assert want == front + [last];
    KeyedSnoc(front, last);
    if i < |Inserts(front, rows, norm)| {
      InsertsAre(front, rows, norm, i);
    }
  }

  /** Rows in ordinal order: the next ordinal is the one after the last, as int32 sees it. */
  lemma {:induction false} NextIsFree(rows: seq<Row>)
    requires ValidRows(rows)
    ensures NextOrdinal(rows) == Wrap32(FirstFree(rows))
  {
    hide Wrap32;
    if rows == [] {
      WrapSmall(0);
    } else {
      var front := rows[..|rows| - 1];
      ValidFront(rows);
      NextIsFree(front);
      if front != [] {
        assert front[|front| - 1] == rows[|front| - 1];
        assert rows[|front| - 1].ordinal < rows[|rows| - 1].ordinal;
      }
      WrapSmall(FirstFree(front));
    }
  }

  lemma WrapSmall(n: int)
    requires 0 <= n <= MAX_INT32
    ensures Wrap32(n) == n
  {
  }

  lemma WrapAgain(n: int, i: nat)
    requires 0 <= n <= MAX_INT32 + 1 && n + i <= MAX_INT32 + 1
    ensures Wrap32(Wrap32(n) + i) == if n + i <= MAX_INT32 then n + i else -MAX_INT32 - 1
  {
  }

  lemma {:induction false} FirstFreeBounds(rows: seq<Row>)
    requires ValidRows(rows)
    ensures 0 <= FirstFree(rows) <= MAX_INT32 + 1
    ensures forall i :: 0 <= i < |rows| ==> rows[i].ordinal < FirstFree(rows)
  {
  }

  lemma NotPresent(rows: seq<Row>, key: string, norm: Norm, row: Row)
    requires ValidRows(rows) && !Present(rows, key, norm) && row in rows
    ensures row.normalized != key && norm.key(row.text) != key
  {
    var i :| 0 <= i < |rows| && rows[i] == row;
    assert !Has(rows[i], key, norm);
  }

  /** The rows just before the i-th insert. */
  predicate Midway(before: seq<Row>, inserts: seq<Insert>, kept: seq<Row>, firstId: nat, rows: seq<Row>, i: nat) {
    && i <= |inserts| && rows == kept + Added(inserts[..i], firstId)
    && ValidRows(before) && ValidRows(rows) && firstId == NextId(before)
    && (i > 0 ==> FirstFree(before) + i - 1 <= MAX_INT32)
    && forall k :: 0 <= k < |kept| ==> kept[k] in before
  }

  /** It never clashes on its key, and its ordinal is free unless it wrapped. */
  lemma InsertFits(before: seq<Row>, want: seq<Insert>, norm: Norm, kept: seq<Row>, firstId: nat, rows: seq<Row>,
                   i: nat)
    requires var inserts := Inserts(want, before, norm);
      i < |inserts| && Midway(before, inserts, kept, firstId, rows, i)
    ensures var row := Stored(Inserts(want, before, norm)[i], firstId + i);
      && (forall k :: 0 <= k < |rows| ==> rows[k].normalized != row.normalized)
      && (FirstFree(before) + i <= MAX_INT32 ==>
            && row.ordinal >= 0 && (forall k :: 0 <= k < |rows| ==> rows[k].ordinal != row.ordinal)
            && Midway(before, Inserts(want, before, norm), kept, firstId, rows + [row], i + 1))
      && (FirstFree(before) + i > MAX_INT32 ==> row.ordinal < 0)
  {
    hide Wrap32, NextOrdinal, Present, Keyed, Kept, NextId, ValidRows, Inserts, NoMapRows;
    var inserts := Inserts(want, before, norm);
    var row := Stored(inserts[i], firstId + i);
    InsertsAre(want, before, norm, i);
    NextIsFree(before);
    FirstFreeBounds(before);
    WrapAgain(FirstFree(before), i);
    forall k | 0 <= k < |rows|
      ensures rows[k].normalized != row.normalized
        && rows[k].id < firstId + i && rows[k].ordinal < FirstFree(before) + i
    {
      EarlierRow(before, want, norm, kept, firstId, rows, i, k);
    }
    if FirstFree(before) + i <= MAX_INT32 {
      AddedSnoc(inserts, i, firstId);
      AppendAssoc(kept, Added(inserts[..i], firstId), [row]);
      ValidSnoc(rows, row);
    }
  }

  lemma AddedSnoc(inserts: seq<Insert>, i: nat, firstId: nat)
    requires i < |inserts|
    ensures Added(inserts[..i + 1], firstId) == Added(inserts[..i], firstId) + [Stored(inserts[i], firstId + i)]
  {
    TakeSnoc(inserts, i);
  }

  lemma EarlierRow(before: seq<Row>, want: seq<Insert>, norm: Norm, kept: seq<Row>, firstId: nat, rows: seq<Row>,
                   i: nat, k: nat)
    requires var inserts := Inserts(want, before, norm);
      i < |inserts| && k < |rows| && Midway(before, inserts, kept, firstId, rows, i)
    ensures rows[k].normalized != Inserts(want, before, norm)[i].normalized
    ensures rows[k].id < firstId + i && rows[k].ordinal < FirstFree(before) + i
  {
    hide Wrap32, NextOrdinal, Present, Keyed, Inserts, Added;
    var inserts := Inserts(want, before, norm);
    InsertsAre(want, before, norm, i);
    FirstFreeBounds(before);
    if k < |kept| {
      assert rows[k] == kept[k];
      NotPresent(before, inserts[i].normalized, norm, rows[k]);
    } else {
      var j := k - |kept|;
      assert rows[k] == Added(inserts[..i], firstId)[j];
      assert inserts[..i][j] == inserts[j];
      InsertsAre(want, before, norm, j);
      NextIsFree(before);
      WrapAgain(FirstFree(before), j);
    }
  }

  lemma ValidSnoc(rows: seq<Row>, row: Row)
    requires ValidRows(rows) && row.isMap && 0 <= row.ordinal <= MAX_INT32
    requires forall k :: 0 <= k < |rows| ==>
      rows[k].normalized != row.normalized && rows[k].id != row.id && rows[k].ordinal < row.ordinal
    ensures ValidRows(rows + [row])
  {
  }

  lemma PlanIs(queries: seq<string>, rows: seq<Row>, norm: Norm)
    ensures PlanOf(queries, rows, norm)
      == Plan(Inserts(Wanted(queries, norm), rows, norm), Deletes(rows, Wanted(queries, norm), norm))
  {
  }

  lemma AppliedIs(rows: seq<Row>, queries: seq<string>, norm: Norm)
    ensures var plan := PlanOf(queries, rows, norm);
      Applied(rows, queries, norm) == Kept(rows, plan.deletes) + Added(plan.inserts, NextId(rows))
  {
  }

  lemma MidwayStarts(before: seq<Row>, inserts: seq<Insert>, deletes: seq<nat>, firstId: nat)
    requires ValidRows(before) && firstId == NextId(before)
    ensures Midway(before, inserts, Kept(before, deletes), firstId, Kept(before, deletes), 0)
  {
    hide ValidRows, Kept, NextId;
    var kept := Kept(before, deletes);
    KeptIsValid(before, deletes);
    NothingAdded(kept, firstId);
    forall k | 0 <= k < |kept| ensures kept[k] in before {
      KeptIsExact(before, deletes, kept[k]);
    }
  }

  lemma MidwayEnds(before: seq<Row>, inserts: seq<Insert>, kept: seq<Row>, firstId: nat, rows: seq<Row>)
    requires Midway(before, inserts, kept, firstId, rows, |inserts|)
    ensures rows == kept + Added(inserts, firstId) && ValidRows(rows) && HasRoom(before, inserts)
  {
    TakeAll(inserts);
  }

  lemma NoRoomLeft(before: seq<Row>, inserts: seq<Insert>, i: nat)
    requires i < |inserts| && FirstFree(before) + i > MAX_INT32
    ensures !HasRoom(before, inserts)
  {
  }

  // ---------------------------------------------------------------- what a saved plan guarantees

  lemma {:induction false} DeletesAre(rows: seq<Row>, want: seq<Insert>, norm: Norm, id: nat)
    ensures id in Deletes(rows, want, norm) <==>
      exists i :: 0 <= i < |rows| && rows[i].id == id && Unwanted(rows[i], want, norm)
  {
    hide Unwanted;
    if rows != [] {
      var front, last := rows[..|rows| - 1], rows[|rows| - 1];
      DeletesAre(front, want, norm, id);
      assert forall i :: 0 <= i < |front| ==> rows[i] == front[i];
    }
  }

  /** Exactly the unwanted generated rows go; everything else stays. */
  lemma KeepsTheRest(rows: seq<Row>, queries: seq<string>, norm: Norm, row: Row)
    requires ValidRows(rows)
    ensures row in Kept(rows, PlanOf(queries, rows, norm).deletes) <==>
      row in rows && !Unwanted(row, Wanted(queries, norm), norm)
  {
    hide Kept, Deletes, Wanted, Keyed, Inserts;
    var want := Wanted(queries, norm);
    var deletes := Deletes(rows, want, norm);
    KeptIsExact(rows, deletes, row);
    DeletesAre(rows, want, norm, row.id);
  }

  lemma AddedIs(rows: seq<Row>, queries: seq<string>, norm: Norm, row: Row)
    ensures row in Applied(rows, queries, norm) <==>
      || row in Kept(rows, PlanOf(queries, rows, norm).deletes)
      || exists i ::
           && 0 <= i < |PlanOf(queries, rows, norm).inserts|
           && row == Stored(PlanOf(queries, rows, norm).inserts[i], NextId(rows) + i)
  {
    hide Kept, PlanOf, Added;
    var plan := PlanOf(queries, rows, norm);
    var added := Added(plan.inserts, NextId(rows));
    if row in added {
      var i :| 0 <= i < |added| && added[i] == row;
      assert row == Stored(plan.inserts[i], NextId(rows) + i);
    }
    if i :| 0 <= i < |plan.inserts| && row == Stored(plan.inserts[i], NextId(rows) + i) {
      assert added[i] == row;
    }
  }

  /** Rows nobody generated are never touched, and no unwanted generated row is left. */
  lemma RefreshIsExact(rows: seq<Row>, queries: seq<string>, norm: Norm, row: Row)
    requires ValidRows(rows)
    ensures row in rows && !row.generated ==> row in Applied(rows, queries, norm)
    ensures row in Applied(rows, queries, norm) ==> !Unwanted(row, Wanted(queries, norm), norm)
    ensures row in Applied(rows, queries, norm) && row !in rows ==> row.generated
  {
    hide Kept, Wanted, Keyed, Present, Inserts, Deletes, Applied;
    KeepsTheRest(rows, queries, norm, row);
    AddedIs(rows, queries, norm, row);
    var inserts := Inserts(Wanted(queries, norm), rows, norm);
    forall i | 0 <= i < |inserts| ensures Keyed(Wanted(queries, norm), inserts[i].normalized) {
      InsertsAre(Wanted(queries, norm), rows, norm, i);
    }
  }

  lemma {:induction false} WantedIsBounded(queries: seq<string>, norm: Norm)
    ensures |Wanted(queries, norm)| <= MAP_QUERY_STARTER_LIMIT
  {
    if queries != [] {
      WantedIsBounded(queries[..|queries| - 1], norm);
    }
  }

  /** A wanted key is either present already or inserted. */
  lemma {:induction false} InsertsCover(want: seq<Insert>, rows: seq<Row>, norm: Norm, key: string)
    requires |want| <= MAP_QUERY_STARTER_LIMIT && Keyed(want, key)
    ensures Present(rows, key, norm) || Keyed(Inserts(want, rows, norm), key)
  {
    hide Present, NextOrdinal, NoMapRows, Wrap32;
    var front, last := want[..|want| - 1], want[|want| - 1];
    assert want == front + [last];
    KeyedSnoc(front, last);
    var before := Inserts(front, rows, norm);
    KeyedSnoc(before, last.(ordinal := Wrap32(NextOrdinal(rows) + |before|), enabled := NoMapRows(rows)));
    if Keyed(front, key) {
      InsertsCover(front, rows, norm, key);
    }
  }

  /** Every wanted key is represented afterwards. */
  lemma EveryWantedKeyIsPresent(rows: seq<Row>, queries: seq<string>, norm: Norm, key: string)
    requires ValidRows(rows) && Keyed(Wanted(queries, norm), key)
    ensures Present(Applied(rows, queries, norm), key, norm)
  {
    hide Kept, Wanted, Keyed, Inserts, Deletes, Applied, ValidRows;
    var want := Wanted(queries, norm);
    var after := Applied(rows, queries, norm);
    WantedIsBounded(queries, norm);
    InsertsCover(want, rows, norm, key);
    if Present(rows, key, norm) {
      var i :| 0 <= i < |rows| && Has(rows[i], key, norm);
      KeepsTheRest(rows, queries, norm, rows[i]);
      AddedIs(rows, queries, norm, rows[i]);
      PresentIn(after, rows[i], key, norm);
    } else {
      var j := KeyedAt(Inserts(want, rows, norm), key);
      var row := Stored(Inserts(want, rows, norm)[j], NextId(rows) + j);
      AddedIs(rows, queries, norm, row);
      PresentIn(after, row, key, norm);
    }
  }

  lemma KeyedAt(items: seq<Insert>, key: string) returns (i: nat)
    requires Keyed(items, key)
    ensures i < |items| && items[i].normalized == key
  {
    i :| 0 <= i < |items| && items[i].normalized == key;
  }

  lemma PresentIn(rows: seq<Row>, row: Row, key: string, norm: Norm)
    requires row in rows && Has(row, key, norm)
    ensures Present(rows, key, norm)
  {
    var i :| 0 <= i < |rows| && rows[i] == row;
    assert Has(rows[i], key, norm);
  }

  /** New rows go above all old ones, strictly increasing, exactly when there is room for them. */
  lemma NewOrdinals(rows: seq<Row>, queries: seq<string>, norm: Norm)
    requires ValidRows(rows)
    ensures var inserts := PlanOf(queries, rows, norm).inserts;
      HasRoom(rows, inserts) <==>
        && (forall i, j :: 0 <= i < j < |inserts| ==> inserts[i].ordinal < inserts[j].ordinal)
        && forall i, k :: 0 <= i < |inserts| && 0 <= k < |rows| ==> rows[k].ordinal < inserts[i].ordinal
    ensures var inserts := PlanOf(queries, rows, norm).inserts;
      HasRoom(rows, inserts) ==> forall i :: 0 <= i < |inserts| ==> inserts[i].ordinal == FirstFree(rows) + i
  {
    hide Wrap32, NextOrdinal, Present, Keyed, Inserts, Wanted, Deletes;
    var inserts := PlanOf(queries, rows, norm).inserts;
    NextIsFree(rows);
    FirstFreeBounds(rows);
    forall i | 0 <= i < |inserts| ensures inserts[i].ordinal == Wrap32(NextOrdinal(rows) + i) {
      InsertsAre(Wanted(queries, norm), rows, norm, i);
    }
    forall i | 0 <= i < |inserts| && FirstFree(rows) + i <= MAX_INT32 + 1
      ensures inserts[i].ordinal == if FirstFree(rows) + i <= MAX_INT32 then FirstFree(rows) + i else -MAX_INT32 - 1
    {
      WrapAgain(FirstFree(rows), i);
    }
    if !HasRoom(rows, inserts) {
      var i := MAX_INT32 + 1 - FirstFree(rows);
      assert inserts[i].ordinal == -MAX_INT32 - 1;
      if rows != [] {
        assert rows[0].ordinal >= inserts[i].ordinal;
      } else {
        WantedIsBounded(queries, norm);
      }
    }
  }

  /** The i-th wanted phrase is the display form of some given one, the first with its key. */
  lemma {:induction false} WantedAre(queries: seq<string>, norm: Norm, i: nat) returns (q: nat)
    requires i < |Wanted(queries, norm)|
    ensures q < |queries| && |Wanted(queries[..q], norm)| == i
    ensures var item := Wanted(queries, norm)[i];
      && item == Insert(norm.display(queries[q]), norm.key(item.text), 0, false) && item.text != ""
      && forall p :: 0 <= p < q && norm.display(queries[p]) != "" ==>
           norm.key(norm.display(queries[p])) != item.normalized
  {
    hide Keyed;
    var n := |queries| - 1;
    if i < |Wanted(queries[..n], norm)| {
      q := WantedAre(queries[..n], norm, i);
      TakeTake(queries, q, n);
      forall p | 0 <= p < q && norm.display(queries[p]) != ""
        ensures norm.key(norm.display(queries[p])) != Wanted(queries, norm)[i].normalized
      {
        assert queries[..n][p] == queries[p];
      }
    } else {
      q := n;
      WantedIsBounded(queries[..n], norm);
      forall p | 0 <= p < n && norm.display(queries[p]) != ""
        ensures norm.key(norm.display(queries[p])) != Wanted(queries, norm)[i].normalized
      {
        WantedCovers(queries[..n], norm, p);
        assert queries[..n][p] == queries[p];
      }
    }
  }

  /** A phrase that has a display form is wanted, unless the limit was reached. */
  lemma {:induction false} WantedCovers(queries: seq<string>, norm: Norm, q: nat)
    requires q < |queries| && norm.display(queries[q]) != ""
    ensures Keyed(Wanted(queries, norm), norm.key(norm.display(queries[q])))
      || |Wanted(queries, norm)| == MAP_QUERY_STARTER_LIMIT
  {
    var n := |queries| - 1;
    var before := Wanted(queries[..n], norm);
    var display := norm.display(queries[n]);
    WantedIsBounded(queries[..n], norm);
    KeyedSnoc(before, Insert(display, norm.key(display), 0, false));
    hide Keyed;
    if q < n {
      WantedCovers(queries[..n], norm, q);
    }
  }

  /** The i-th insert is a wanted phrase that no row represents, and it starts enabled exactly if
      there was no Maps query before. */
  lemma {:induction false} InsertsKeepText(want: seq<Insert>, rows: seq<Row>, norm: Norm, i: nat) returns (j: nat)
    requires i < |Inserts(want, rows, norm)|
    ensures j < |want| && |Inserts(want[..j], rows, norm)| == i
    ensures var item := Inserts(want, rows, norm)[i];
      item.text == want[j].text && item.normalized == want[j].normalized && (item.enabled <==> NoMapRows(rows))
  {
    hide Wrap32, NextOrdinal, Present, NoMapRows, Keyed;
    var n := |want| - 1;
    if i < |Inserts(want[..n], rows, norm)| {
      j := InsertsKeepText(want[..n], rows, norm, i);
      TakeTake(want, j, n);
    } else {
      j := n;
    }
  }

  /** A row the refresh adds. */
  predicate NewRow(row: Row, query: string, ordinal: int, first: bool, norm: Norm) {
    && row.text == norm.display(query) != "" && row.normalized == norm.key(row.text)
    && row.ordinal == ordinal && row.enabled == first && row.isMap && row.generated
  }

  /** What a saved refresh appends: rows for given phrases, in display form under their own key,
      marked as generated Maps queries, enabled only when they are the location's first, at the
      next free ordinals, in the order of the phrases. */
  lemma RefreshAdds(rows: seq<Row>, queries: seq<string>, norm: Norm)
    returns (kept: seq<Row>, added: seq<Row>, origin: seq<nat>)
    requires ValidRows(rows) && HasRoom(rows, PlanOf(queries, rows, norm).inserts)
    ensures Applied(rows, queries, norm) == kept + added && |added| == |origin| <= MAP_QUERY_STARTER_LIMIT
    ensures forall row :: row in kept <==> row in rows && !Unwanted(row, Wanted(queries, norm), norm)
    ensures forall i :: 0 <= i < |added| ==>
      origin[i] < |queries| && NewRow(added[i], queries[origin[i]], FirstFree(rows) + i, rows == [], norm)
    ensures forall i, k :: 0 <= i < |added| && 0 <= k < |rows| ==>
      added[i].id != rows[k].id && added[i].normalized !in {rows[k].normalized, norm.key(rows[k].text)}
    ensures forall i, j :: 0 <= i < j < |added| ==> origin[i] < origin[j] && added[i].id != added[j].id
  {
    hide Wrap32, NextOrdinal, Present, Keyed, Inserts, Wanted, Deletes, Kept, NextId, Unwanted;
    var want, plan := Wanted(queries, norm), PlanOf(queries, rows, norm);
    kept, added := Kept(rows, plan.deletes), Added(plan.inserts, NextId(rows));
    NewOrdinals(rows, queries, norm);
    InsertsAreFew(want, rows, norm);
    forall row ensures row in kept <==> row in rows && !Unwanted(row, want, norm) {
      KeepsTheRest(rows, queries, norm, row);
    }
    origin := Origins(rows, queries, norm, |plan.inserts|);
    forall i | 0 <= i < |added|
      ensures added[i].id == NextId(rows) + i
      ensures forall k :: 0 <= k < |rows| ==>
        added[i].normalized != rows[k].normalized && added[i].normalized != norm.key(rows[k].text)
    {
      InsertsAre(want, rows, norm, i);
      forall k | 0 <= k < |rows|
        ensures added[i].normalized != rows[k].normalized && added[i].normalized != norm.key(rows[k].text)
      {
        NotPresent(rows, plan.inserts[i].normalized, norm, rows[k]);
      }
    }
  }

  lemma {:induction false} InsertsAreFew(want: seq<Insert>, rows: seq<Row>, norm: Norm)
    ensures |Inserts(want, rows, norm)| <= MAP_QUERY_STARTER_LIMIT
  {
    hide Present, NextOrdinal, NoMapRows, Wrap32, Keyed;
    if want != [] {
      InsertsAreFew(want[..|want| - 1], rows, norm);
    }
  }

  /** Which phrase each insert stands for. */
  lemma {:induction false} Origins(rows: seq<Row>, queries: seq<string>, norm: Norm, n: nat) returns (origin: seq<nat>)
    requires ValidRows(rows) && n <= |PlanOf(queries, rows, norm).inserts|
    ensures |origin| == n
    ensures forall i :: 0 <= i < n ==>
      && origin[i] < |queries|
      && StandsFor(PlanOf(queries, rows, norm).inserts[i], queries[origin[i]], rows == [], norm)
    ensures forall i, j :: 0 <= i < j < n ==> origin[i] < origin[j]
  {
    hide Wrap32, NextOrdinal, Present, Keyed, Inserts, Wanted, Deletes;
    origin := [];
    OnlyMaps(rows);
    var want := Wanted(queries, norm);
    ghost var places: seq<nat> := [];
    for k := 0 to n
      invariant |origin| == |places| == k
      invariant forall i :: 0 <= i < k ==>
        && places[i] < |want| && |Inserts(want[..places[i]], rows, norm)| == i
        && origin[i] < |queries| && |Wanted(queries[..origin[i]], norm)| == places[i]
        && StandsFor(PlanOf(queries, rows, norm).inserts[i], queries[origin[i]], rows == [], norm)
      invariant forall i, j :: 0 <= i < j < k ==> origin[i] < origin[j]
    {
      var j := InsertsKeepText(want, rows, norm, k);
      var q := WantedAre(queries, norm, j);
      forall i | 0 <= i < k ensures origin[i] < q {
        if j <= places[i] {
          InsertsGrow(want, rows, norm, j, places[i]);
        }
        if q <= origin[i] {
          WantedGrow(queries, norm, q, origin[i]);
        }
      }
      origin, places := origin + [q], places + [j];
    }
  }

  lemma OnlyMaps(rows: seq<Row>)
    requires ValidRows(rows)
    ensures NoMapRows(rows) <==> rows == []
  {
    if rows != [] {
      assert rows[0].isMap;
    }
  }

  predicate StandsFor(item: Insert, query: string, first: bool, norm: Norm) {
    item.text == norm.display(query) != "" && item.normalized == norm.key(item.text) && item.enabled == first
  }

  lemma {:induction false} InsertsGrow(want: seq<Insert>, rows: seq<Row>, norm: Norm, j: nat, k: nat)
    requires j <= k <= |want|
    ensures |Inserts(want[..j], rows, norm)| <= |Inserts(want[..k], rows, norm)|
  {
    hide Present, NextOrdinal, NoMapRows, Wrap32, Keyed;
    if j < k {
      InsertsGrow(want, rows, norm, j, k - 1);
      TakeSnoc(want, k - 1);
    }
  }

  lemma {:induction false} WantedGrow(queries: seq<string>, norm: Norm, q: nat, p: nat)
    requires q <= p <= |queries|
    ensures |Wanted(queries[..q], norm)| <= |Wanted(queries[..p], norm)|
  {
    hide Keyed;
    if q < p {
      WantedGrow(queries, norm, q, p - 1);
      TakeSnoc(queries, p - 1);
    }
  }

  /** Refreshing again with the same phrases changes nothing. */
  lemma RefreshIsIdempotent(rows: seq<Row>, queries: seq<string>, norm: Norm)
    requires ValidRows(rows)
    ensures var after := Applied(rows, queries, norm);
      PlanOf(queries, after, norm) == Plan([], []) && Applied(after, queries, norm) == after
  {
    hide Kept, Wanted, Keyed, Inserts, Deletes, Applied, ValidRows, Present;
    var want := Wanted(queries, norm);
    var after := Applied(rows, queries, norm);
    forall key | Keyed(want, key) ensures Present(after, key, norm) {
      EveryWantedKeyIsPresent(rows, queries, norm, key);
    }
    NothingToInsert(want, after, norm);
    forall i | 0 <= i < |after| ensures !Unwanted(after[i], want, norm) {
      RefreshIsExact(rows, queries, norm, after[i]);
    }
    NothingToDelete(after, want, norm);
    AppliedIs(after, queries, norm);
    NothingDeleted(after);
    NothingAdded(after, NextId(after));
  }

  lemma {:induction false} NothingToInsert(want: seq<Insert>, rows: seq<Row>, norm: Norm)
    requires forall key :: Keyed(want, key) ==> Present(rows, key, norm)
    ensures Inserts(want, rows, norm) == []
  {
    hide Present, Keyed, NextOrdinal, NoMapRows;
    if want != [] {
      var front, last := want[..|want| - 1], want[|want| - 1];
      assert want == front + [last];
      KeyedSnoc(front, last);
      NothingToInsert(front, rows, norm);
    }
  }

  lemma {:induction false} NothingToDelete(rows: seq<Row>, want: seq<Insert>, norm: Norm)
    requires forall i :: 0 <= i < |rows| ==> !Unwanted(rows[i], want, norm)
    ensures Deletes(rows, want, norm) == []
  {
    hide Unwanted;
    if rows != [] {
      NothingToDelete(rows[..|rows| - 1], want, norm);
    }
  }

  /** An example: a stored row at the largest ordinal leaves no room, so the save fails. */
  lemma LastOrdinalLeavesNoRoom()
    ensures var norm := Norm(text => text, text => text);
      var rows := [Row(0, "a", "a", MAX_INT32, true, true, false)];
      && ValidRows(rows) && PlanOf(["b"], rows, norm).inserts != []
      && !HasRoom(rows, PlanOf(["b"], rows, norm).inserts)
  {
    var norm := Norm(text => text, text => text);
    var rows := [Row(0, "a", "a", MAX_INT32, true, true, false)];
    assert ["b"][..0] == [];
    var want := Wanted(["b"], norm);
    assert want == [Insert("b", "b", 0, false)];
    assert want[..0] == [];
    assert !Present(rows, "b", norm);
  }
}
