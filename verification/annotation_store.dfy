/**
 * The annotation table of convex/annotations.ts: `save` upserts the serialised
 * shape list under a resume id, `load` returns the first row for an id. The
 * table is a sequence of rows in insertion order; `now` stands for `Date.now()`
 * and row ids are drawn from a counter, as the database assigns them.
 */
module AnnotationStore {
  import opened Wrappers

  /** One row: `_id`, `resumeId`, the JSON text of the shapes, and the save time. */
  datatype Row = Row(docId: nat, resumeId: string, shapes: string, timestamp: int)

  /** The first row with the given resume id (the `by_resumeId` index, then `.first()`). */
  function FirstMatch(rows: seq<Row>, resumeId: string): (r: Option<nat>)
    ensures r.Some? ==> r.value < |rows| && rows[r.value].resumeId == resumeId
    ensures r.Some? ==> forall j :: 0 <= j < r.value ==> rows[j].resumeId != resumeId
    ensures r.None? ==> forall j :: 0 <= j < |rows| ==> rows[j].resumeId != resumeId
  {
    if |rows| == 0 then None
    else if rows[0].resumeId == resumeId then Some(0)
    else match FirstMatch(rows[1..], resumeId)
      case Some(i) => Some(i + 1)
      case None => None
  }

  /** `db.patch(docId, {shapes, timestamp})`: rewrites the row with that `_id`. */
  function Patch(rows: seq<Row>, docId: nat, shapes: string, timestamp: int): (r: seq<Row>)
    ensures |r| == |rows|
    ensures forall j :: 0 <= j < |rows| ==>
      r[j] == if rows[j].docId == docId then rows[j].(shapes := shapes, timestamp := timestamp) else rows[j]
  {
    seq(|rows|, j requires 0 <= j < |rows| =>
      if rows[j].docId == docId then rows[j].(shapes := shapes, timestamp := timestamp) else rows[j])
  }

  /** Row ids are distinct and all below the next id to hand out. */
  predicate IdsFresh(rows: seq<Row>, nextId: nat) {
    && (forall j :: 0 <= j < |rows| ==> rows[j].docId < nextId)
    && (forall j, k :: 0 <= j < k < |rows| ==> rows[j].docId != rows[k].docId)
  }

  /** The number of rows holding a resume id. */
  function Count(rows: seq<Row>, resumeId: string): nat
    decreases |rows|
  {
    if |rows| == 0 then 0
    else Count(rows[..|rows| - 1], resumeId) + (if rows[|rows| - 1].resumeId == resumeId then 1 else 0)
  }

  /**
   * The table after `save(resumeId, shapes)` at time `now`. An id without a row
   * gets exactly one new row at the end; an id with a row has that row's
   * shapes and timestamp rewritten, and nothing else changes.
   */
  function Upsert(rows: seq<Row>, nextId: nat, resumeId: string, shapes: string, now: int): (r: seq<Row>)
    requires IdsFresh(rows, nextId)
    ensures FirstMatch(rows, resumeId).None? ==> r == rows + [Row(nextId, resumeId, shapes, now)]
    ensures FirstMatch(rows, resumeId).Some? ==>
      var i := FirstMatch(rows, resumeId).value;
      && |r| == |rows|
      && r[i] == rows[i].(shapes := shapes, timestamp := now)
      && forall j :: 0 <= j < |rows| && j != i ==> r[j] == rows[j]
  {
    match FirstMatch(rows, resumeId)
    case Some(i) => Patch(rows, rows[i].docId, shapes, now)
    case None => rows + [Row(nextId, resumeId, shapes, now)]
  }

  /** The counter after a save: only an insert uses up an id. */
  function NextIdAfter(rows: seq<Row>, nextId: nat, resumeId: string): nat {
    if FirstMatch(rows, resumeId).Some? then nextId else nextId + 1
  }

  /** A save keeps the row ids distinct and below the counter. */
  lemma UpsertKeepsIdsFresh(rows: seq<Row>, nextId: nat, resumeId: string, shapes: string, now: int)
    requires IdsFresh(rows, nextId)
    ensures IdsFresh(Upsert(rows, nextId, resumeId, shapes, now), NextIdAfter(rows, nextId, resumeId))
  {
  }

  /** `load`: the first row for the id, or nothing. */
  function Lookup(rows: seq<Row>, resumeId: string): (r: Option<Row>)
    ensures r.Some? <==> exists j :: 0 <= j < |rows| && rows[j].resumeId == resumeId
    ensures r.Some? ==> r.value.resumeId == resumeId && r.value in rows
    ensures r.Some? ==> exists i :: 0 <= i < |rows| && rows[i] == r.value &&
                                    forall j :: 0 <= j < i ==> rows[j].resumeId != resumeId
  {
    match FirstMatch(rows, resumeId)
    case Some(i) => Some(rows[i])
    case None => None
  }

  /** Round trip: loading right after a save returns the saved shapes and time. */
  lemma LoadAfterSave(rows: seq<Row>, nextId: nat, resumeId: string, shapes: string, now: int)
    requires IdsFresh(rows, nextId)
    ensures
      var loaded := Lookup(Upsert(rows, nextId, resumeId, shapes, now), resumeId);
      loaded.Some? && loaded.value.shapes == shapes && loaded.value.timestamp == now
  {
    var r := Upsert(rows, nextId, resumeId, shapes, now);
    match FirstMatch(rows, resumeId)
    case Some(i) =>
      assert r[i].resumeId == resumeId;
      assert forall j :: 0 <= j < i ==> r[j].resumeId != resumeId;
      assert FirstMatch(r, resumeId) == Some(i);
    case None =>
      assert r[|rows|].resumeId == resumeId;
      assert FirstMatch(r, resumeId) == Some(|rows|);
  }

  lemma {:induction false} CountZero(rows: seq<Row>, resumeId: string)
    requires forall j :: 0 <= j < |rows| ==> rows[j].resumeId != resumeId
    ensures Count(rows, resumeId) == 0
    decreases |rows|
  {
    if |rows| > 0 {
      CountZero(rows[..|rows| - 1], resumeId);
    }
  }

  /** Rewriting rows without touching their resume ids keeps every count. */
  lemma {:induction false} CountSameIds(a: seq<Row>, b: seq<Row>, resumeId: string)
    requires |a| == |b|
    requires forall j :: 0 <= j < |a| ==> a[j].resumeId == b[j].resumeId
    ensures Count(a, resumeId) == Count(b, resumeId)
    decreases |a|
  {
    if |a| > 0 {
      CountSameIds(a[..|a| - 1], b[..|b| - 1], resumeId);
    }
  }

  lemma CountSnoc(rows: seq<Row>, row: Row, resumeId: string)
    ensures Count(rows + [row], resumeId) == Count(rows, resumeId) + (if row.resumeId == resumeId then 1 else 0)
  {
    assert (rows + [row])[..|rows|] == rows;
  }

  /**
   * A save leaves exactly one row for its id when there was at most one
   * before, and the number of rows for every other id is unchanged.
   */
  lemma UpsertCounts(rows: seq<Row>, nextId: nat, resumeId: string, shapes: string, now: int, other: string)
    requires IdsFresh(rows, nextId)
    requires Count(rows, resumeId) <= 1
    requires other != resumeId
    ensures Count(Upsert(rows, nextId, resumeId, shapes, now), resumeId) == 1
    ensures Count(Upsert(rows, nextId, resumeId, shapes, now), other) == Count(rows, other)
  {
    var r := Upsert(rows, nextId, resumeId, shapes, now);
    match FirstMatch(rows, resumeId)
    case Some(i) =>
      CountSameIds(rows, r, resumeId);
      CountSameIds(rows, r, other);
      CountAtLeastOne(rows, i, resumeId);
    case None =>
      CountZero(rows, resumeId);
      CountSnoc(rows, Row(nextId, resumeId, shapes, now), resumeId);
      CountSnoc(rows, Row(nextId, resumeId, shapes, now), other);
  }

  lemma {:induction false} CountAtLeastOne(rows: seq<Row>, i: nat, resumeId: string)
    requires i < |rows| && rows[i].resumeId == resumeId
    ensures Count(rows, resumeId) >= 1
    decreases |rows|
  {
    if i < |rows| - 1 {
      CountAtLeastOne(rows[..|rows| - 1], i, resumeId);
    }
  }

  /**
   * Two saves for the same id leave one row for it, holding the second
   * shapes and time, and add at most one row to the table.
   */
  lemma SaveTwice(rows: seq<Row>, nextId: nat, resumeId: string, s1: string, t1: int, s2: string, t2: int)
    requires IdsFresh(rows, nextId)
    requires Count(rows, resumeId) <= 1
    ensures
      var mid := Upsert(rows, nextId, resumeId, s1, t1);
      var last := Upsert(mid, NextIdAfter(rows, nextId, resumeId), resumeId, s2, t2);
      && Count(last, resumeId) == 1
      && |last| == |mid| <= |rows| + 1
      && Lookup(last, resumeId).Some?
      && Lookup(last, resumeId).value.shapes == s2
      && Lookup(last, resumeId).value.timestamp == t2
  {
    var mid := Upsert(rows, nextId, resumeId, s1, t1);
    var nextId' := NextIdAfter(rows, nextId, resumeId);
    UpsertKeepsIdsFresh(rows, nextId, resumeId, s1, t1);
    UpsertCounts(rows, nextId, resumeId, s1, t1, resumeId + "'");
    LoadAfterSave(rows, nextId, resumeId, s1, t1);
    UpsertCounts(mid, nextId', resumeId, s2, t2, resumeId + "'");
    LoadAfterSave(mid, nextId', resumeId, s2, t2);
  }

  /** The `annotations` table, changed in place by `save`. */
  class AnnotationTable {
    var rows: seq<Row>
    var nextId: nat

    ghost predicate Valid()
      reads this
    {
      IdsFresh(rows, nextId)
    }

    constructor ()
      ensures Valid() && rows == []
    {
      rows := [];
      nextId := 0;
    }

    /** `save`: patch the first row for the id, or insert a new one. */
    method Save(resumeId: string, shapes: string, now: int)
      requires Valid()
      modifies this
      ensures Valid()
      ensures rows == Upsert(old(rows), old(nextId), resumeId, shapes, now)
      ensures nextId == NextIdAfter(old(rows), old(nextId), resumeId)
    {
      UpsertKeepsIdsFresh(rows, nextId, resumeId, shapes, now);
      var existing := FirstMatch(rows, resumeId);
      if existing.Some? {
        rows := Patch(rows, rows[existing.value].docId, shapes, now);
      } else {
        rows := rows + [Row(nextId, resumeId, shapes, now)];
        nextId := nextId + 1;
      }
    }

    /** `load`: the first row for the id, or nothing. */
    function Load(resumeId: string): (r: Option<Row>)
      reads this
      ensures r.Some? ==> r.value.resumeId == resumeId && r.value in rows
      ensures r.Some? ==> exists i :: 0 <= i < |rows| && rows[i] == r.value &&
                                      forall j :: 0 <= j < i ==> rows[j].resumeId != resumeId
      ensures r.None? ==> forall j :: 0 <= j < |rows| ==> rows[j].resumeId != resumeId
    {
      Lookup(rows, resumeId)
    }
  }
}
