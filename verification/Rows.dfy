/** `store/base.py` and the row transitions of `store/sql.py`. */
module Rows {
  import opened Prelude
  import opened Evaluator

  type Id = string

  /** Stored as "ok", "error" and "timeout". */
  datatype PrimaryStatus = Succeeded | Failed | Late

  datatype CandidateStatus = Pending | InProgress | Ok | Error | TimeoutStale | Dropped

  /** The columns written once, when the row is inserted. */
  datatype PrimaryColumns = PrimaryColumns(
    receivedAt: int, route: string, tenant: Option<string>, session: Option<string>, requestHash: string,
    rawKey: Option<string>, primaryModel: string, status: PrimaryStatus, latency: int,
    action: Option<string>, error: Option<string>, candidateModel: string)

  datatype Row = Row(
    primary: PrimaryColumns, status: CandidateStatus, verdict: Verdict, reasons: seq<string>,
    latency: Option<int>, action: Option<string>, error: Option<string>,
    attempts: nat, attemptedAt: Option<int>, evaluatedAt: Option<int>)

  /** `FinalizePatch`: an absent value leaves its column alone. */
  datatype FinalizePatch = FinalizePatch(
    status: CandidateStatus, verdict: Verdict, reasons: seq<string>,
    latency: Option<int>, action: Option<string>, error: Option<string>,
    evaluatedAt: Option<int>, attemptedAt: Option<int>)

  type Table = map<Id, Row>

  function Or<T>(new_: Option<T>, kept: Option<T>): Option<T> { if new_.Some? then new_ else kept }

  function Inserted(p: PrimaryColumns): Row {
    Row(p, Pending, if p.status != Succeeded then PrimaryError else NoVerdict, [], None, None, None, 0, None, None)
  }

  function Marked(r: Row, now: int): Row {
    r.(status := InProgress, attemptedAt := Some(now), attempts := r.attempts + 1)
  }

  function Patched(r: Row, p: FinalizePatch, now: int): Row {
    r.(status := p.status, verdict := p.verdict, reasons := p.reasons, evaluatedAt := Or(p.evaluatedAt, Some(now)),
       latency := Or(p.latency, r.latency), action := Or(p.action, r.action), error := Or(p.error, r.error),
       attemptedAt := Or(p.attemptedAt, r.attemptedAt))
  }

  /** `UPDATE ... WHERE request_id = id`: no row, no change; the status is not part of the filter. */
  function Mark(t: Table, id: Id, now: int): Table {
    if id in t then t[id := Marked(t[id], now)] else t
  }

  function Finalize(t: Table, id: Id, p: FinalizePatch, now: int): Table {
    if id in t then t[id := Patched(t[id], p, now)] else t
  }

  predicate Unfinished(r: Row) { r.status.Pending? || r.status.InProgress? }

  predicate Stale(r: Row, cutoff: int) { Unfinished(r) && r.primary.receivedAt < cutoff }

  function UnfinishedIds(t: Table): set<Id> { set id | id in t && Unfinished(t[id]) }

  function StaleIds(t: Table, cutoff: int): set<Id> { set id | id in t && Stale(t[id], cutoff) }

  function Received(t: Table, id: Id): int { if id in t then t[id].primary.receivedAt else 0 }

  /** What `SELECT ... WHERE stale LIMIT n` may return: the order and the choice are the database's. */
  ghost predicate IsStaleList(t: Table, cutoff: int, limit: nat, ids: seq<Id>) {
    Distinct(ids) && Elements(ids) <= StaleIds(t, cutoff) && |ids| == Min(|StaleIds(t, cutoff)|, limit)
  }

  /** What `find_all_unfinished` may return: the oldest rows, oldest first. */
  ghost predicate IsUnfinishedList(t: Table, limit: nat, ids: seq<Id>) {
    && Distinct(ids) && Elements(ids) <= UnfinishedIds(t) && |ids| == Min(|UnfinishedIds(t)|, limit)
    && (forall i, j :: 0 <= i < j < |ids| ==> Received(t, ids[i]) <= Received(t, ids[j]))
    && (forall i, id :: 0 <= i < |ids| && id in UnfinishedIds(t) && id !in ids
          ==> Received(t, ids[i]) <= Received(t, id))
  }

  /** The sweeper's list in terms of the columns: pending or in progress, received before the cutoff. */
  lemma StaleListMeaning(t: Table, cutoff: int, limit: nat, ids: seq<Id>)
    requires IsStaleList(t, cutoff, limit, ids)
    ensures |ids| == Min(limit, |set id | id in t && t[id].status in {Pending, InProgress}
                                        && t[id].primary.receivedAt < cutoff|)
    ensures forall i :: 0 <= i < |ids| ==>
      ids[i] in t && t[ids[i]].status in {Pending, InProgress} && t[ids[i]].primary.receivedAt < cutoff
  {
    assert StaleIds(t, cutoff) == set id | id in t && t[id].status in {Pending, InProgress}
                                           && t[id].primary.receivedAt < cutoff;
    forall i | 0 <= i < |ids| ensures ids[i] in StaleIds(t, cutoff) { assert ids[i] in Elements(ids); }
  }

  /** The startup list in terms of the columns: pending or in progress, as many as fit, and nothing older left out. */
  lemma UnfinishedListMeaning(t: Table, limit: nat, ids: seq<Id>)
    requires IsUnfinishedList(t, limit, ids)
    ensures |ids| == Min(limit, |set id | id in t && t[id].status in {Pending, InProgress}|)
    ensures forall i :: 0 <= i < |ids| ==> ids[i] in t && t[ids[i]].status in {Pending, InProgress}
    ensures forall i, j :: 0 <= i < j < |ids| ==>
      ids[i] != ids[j] && t[ids[i]].primary.receivedAt <= t[ids[j]].primary.receivedAt
    ensures forall i, id :: 0 <= i < |ids| && id in t && id !in ids && t[id].status in {Pending, InProgress} ==>
      t[ids[i]].primary.receivedAt <= t[id].primary.receivedAt
  {
    assert UnfinishedIds(t) == set id | id in t && t[id].status in {Pending, InProgress};
    forall i | 0 <= i < |ids| ensures ids[i] in UnfinishedIds(t) { assert ids[i] in Elements(ids); }
    assert forall id :: id in t ==> Received(t, id) == t[id].primary.receivedAt;
  }

  /** A list below its limit names every unfinished row. */
  lemma ShortListIsComplete(t: Table, limit: nat, ids: seq<Id>)
    requires IsUnfinishedList(t, limit, ids)
    ensures |ids| < limit || |UnfinishedIds(t)| <= limit ==> Elements(ids) == UnfinishedIds(t)
  {
    DistinctSize(ids);
    SubsetSize(Elements(ids), UnfinishedIds(t));
  }

  /** A list under construction: what is picked and what is left make up the whole, without repetition. */
  ghost predicate Picking(all: set<Id>, ids: seq<Id>, todo: set<Id>) {
    Distinct(ids) && Elements(ids) !! todo && Elements(ids) + todo == all && |ids| + |todo| == |all|
  }

  lemma PickOne(all: set<Id>, ids: seq<Id>, todo: set<Id>, id: Id)
    requires Picking(all, ids, todo) && id in todo
    ensures Picking(all, ids + [id], todo - {id})
  {
  }

  /** The picked ids are in order of age, and none left is older. */
  ghost predicate OldestFirst(t: Table, ids: seq<Id>, todo: set<Id>) {
    && (forall i, j :: 0 <= i < j < |ids| ==> Received(t, ids[i]) <= Received(t, ids[j]))
    && (forall i, id :: 0 <= i < |ids| && id in todo ==> Received(t, ids[i]) <= Received(t, id))
  }

  lemma PickOldest(t: Table, ids: seq<Id>, todo: set<Id>, id: Id)
    requires OldestFirst(t, ids, todo) && id in todo
    requires forall x :: x in todo ==> Received(t, id) <= Received(t, x)
    ensures OldestFirst(t, ids + [id], todo - {id})
  {
  }

  lemma PickedIsList(t: Table, limit: nat, ids: seq<Id>, todo: set<Id>)
    requires Picking(UnfinishedIds(t), ids, todo) && OldestFirst(t, ids, todo)
    requires |ids| <= limit && (todo == {} || |ids| == limit)
    ensures IsUnfinishedList(t, limit, ids)
  {
  }

  lemma {:induction false} OldestOf(t: Table, todo: set<Id>) returns (id: Id)
    requires todo != {}
    ensures id in todo && forall x :: x in todo ==> Received(t, id) <= Received(t, x)
    decreases todo
  {
    id :| id in todo;
    if todo != {id} {
      var other := OldestOf(t, todo - {id});
      if Received(t, other) < Received(t, id) { id := other; }
    }
  }

  /** The startup query always has a result. */
  lemma UnfinishedListExists(t: Table, limit: nat) returns (ids: seq<Id>)
    ensures IsUnfinishedList(t, limit, ids)
  {
    var todo := UnfinishedIds(t);
    ids := [];
    while todo != {} && |ids| < limit
      invariant |ids| <= limit && Picking(UnfinishedIds(t), ids, todo) && OldestFirst(t, ids, todo)
      decreases todo
    {
      var id := OldestOf(t, todo);
      PickOne(UnfinishedIds(t), ids, todo, id);
      PickOldest(t, ids, todo, id);
      ids, todo := ids + [id], todo - {id};
    }
    PickedIsList(t, limit, ids, todo);
  }

  class SqlComparisonStore {
    var rows: Table

    constructor ()
      ensures rows == map[]
    {
      rows := map[];
    }

    /** False when the primary key is taken, where the database raises. */
    method InsertPending(id: Id, p: PrimaryColumns) returns (ok: bool)
      modifies this
      ensures ok <==> id !in old(rows)
      ensures rows == if ok then old(rows)[id := Inserted(p)] else old(rows)
      ensures ok ==> var r := rows[id];
        && r.primary == p && r.status == Pending
        && r.verdict == (if p.status == Succeeded then NoVerdict else PrimaryError)
        && r.reasons == [] && r.latency == None && r.action == None && r.error == None
        && r.attempts == 0 && r.attemptedAt == None && r.evaluatedAt == None
    {
      ok := id !in rows;
      if ok { rows := rows[id := Inserted(p)]; }
    }

    method MarkInProgress(id: Id, now: int)
      modifies this
      ensures rows == Mark(old(rows), id, now)
      ensures id in old(rows) ==> var r := old(rows)[id];
        rows == old(rows)[id := r.(status := InProgress, attemptedAt := Some(now), attempts := r.attempts + 1)]
      ensures id !in old(rows) ==> rows == old(rows)
    {
      if id in rows {
        var r := rows[id];
        rows := rows[id := r.(status := InProgress, attemptedAt := Some(now), attempts := r.attempts + 1)];
      }
    }

    method FinalizeRow(id: Id, p: FinalizePatch, now: int)
      modifies this
      ensures rows == Finalize(old(rows), id, p, now)
      ensures rows.Keys == old(rows).Keys && forall x :: x in rows && x != id ==> rows[x] == old(rows)[x]
      ensures id in rows ==> var r, s := old(rows)[id], rows[id];
        && s.primary == r.primary && s.attempts == r.attempts
        && s.status == p.status && s.verdict == p.verdict && s.reasons == p.reasons
        && s.evaluatedAt == (if p.evaluatedAt == None then Some(now) else p.evaluatedAt)
        && s.latency == (if p.latency == None then r.latency else p.latency)
        && s.action == (if p.action == None then r.action else p.action)
        && s.error == (if p.error == None then r.error else p.error)
        && s.attemptedAt == (if p.attemptedAt == None then r.attemptedAt else p.attemptedAt)
    {
      if id in rows {
        var r := rows[id].(status := p.status, verdict := p.verdict, reasons := p.reasons);
        r := r.(evaluatedAt := if p.evaluatedAt.Some? then p.evaluatedAt else Some(now));
        if p.latency.Some? { r := r.(latency := p.latency); }
        if p.action.Some? { r := r.(action := p.action); }
        if p.error.Some? { r := r.(error := p.error); }
        if p.attemptedAt.Some? { r := r.(attemptedAt := p.attemptedAt); }
        rows := rows[id := r];
      }
    }

    method FindStale(cutoff: int, limit: nat) returns (ids: seq<Id>)
      ensures IsStaleList(rows, cutoff, limit, ids)
    {
      var todo := StaleIds(rows, cutoff);
      ids := [];
      while todo != {} && |ids| < limit
        invariant |ids| <= limit && Picking(StaleIds(rows, cutoff), ids, todo)
        decreases todo
      {
        var id :| id in todo;
        PickOne(StaleIds(rows, cutoff), ids, todo, id);
        ids, todo := ids + [id], todo - {id};
      }
    }

    method FindAllUnfinished(limit: nat) returns (ids: seq<Id>)
      ensures IsUnfinishedList(rows, limit, ids)
    {
      var todo := UnfinishedIds(rows);
      ids := [];
      while todo != {} && |ids| < limit
        invariant |ids| <= limit && Picking(UnfinishedIds(rows), ids, todo) && OldestFirst(rows, ids, todo)
        decreases todo
      {
        var id := Oldest(todo);
        PickOne(UnfinishedIds(rows), ids, todo, id);
        PickOldest(rows, ids, todo, id);
        ids, todo := ids + [id], todo - {id};
      }
      PickedIsList(rows, limit, ids, todo);
    }

    method Oldest(among: set<Id>) returns (id: Id)
      requires among != {} && among <= rows.Keys
      ensures id in among && forall x :: x in among ==> Received(rows, id) <= Received(rows, x)
    {
      id :| id in among;
      var todo := among - {id};
      while todo != {}
        invariant id in among && todo <= among
        invariant forall x :: x in among - todo ==> Received(rows, id) <= Received(rows, x)
        decreases todo
      {
        var x :| x in todo;
        todo := todo - {x};
        if Received(rows, x) < Received(rows, id) { id := x; }
      }
    }
  }
}
