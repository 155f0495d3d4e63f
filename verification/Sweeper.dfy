/** `sweeper.py`: reconciling stale rows, and requeueing unfinished ones at startup. */
module Sweeper {
  import opened Prelude
  import Evaluator
  import opened Rows
  import opened Dispatcher
  import opened Pipeline

  const SWEEP_LIMIT: nat := 1000
  const REQUEUE_LIMIT: nat := 10000

  /** The table after a list of ids has been finalized as stale. */
  function Swept(t: Table, ids: seq<Id>, now: int): Table
    decreases |ids|
  {
    if ids == [] then t else Swept(Finalize(t, ids[0], StalePatch(now), now), ids[1..], now)
  }

  lemma {:induction false} SweptRows(t: Table, ids: seq<Id>, now: int)
    requires Distinct(ids)
    ensures Swept(t, ids, now).Keys == t.Keys
    ensures forall id :: id in t ==>
        Swept(t, ids, now)[id] == if id in ids then Patched(t[id], StalePatch(now), now) else t[id]
    decreases |ids|
  {
    if ids != [] {
      SweptRows(Finalize(t, ids[0], StalePatch(now), now), ids[1..], now);
      assert ids == [ids[0]] + ids[1..];
      assert ids[0] !in ids[1..];
    }
  }

  lemma {:induction false} SweptLast(t: Table, ids: seq<Id>, id: Id, now: int)
    ensures Swept(t, ids + [id], now) == Finalize(Swept(t, ids, now), id, StalePatch(now), now)
    decreases |ids|
  {
    if ids != [] {
      assert (ids + [id])[1..] == ids[1..] + [id];
      SweptLast(Finalize(t, ids[0], StalePatch(now), now), ids[1..], id, now);
    }
  }

  /** A sweep takes its rows out of the stale set and leaves every other row as it was. */
  lemma SweepShrinks(t: Table, cutoff: int, ids: seq<Id>, now: int)
    requires IsStaleList(t, cutoff, SWEEP_LIMIT, ids)
    ensures StaleIds(Swept(t, ids, now), cutoff) == StaleIds(t, cutoff) - Elements(ids)
    ensures |StaleIds(Swept(t, ids, now), cutoff)| == |StaleIds(t, cutoff)| - Min(|StaleIds(t, cutoff)|, SWEEP_LIMIT)
  {
    SweptRows(t, ids, now);
    DistinctSize(ids);
    var after := Swept(t, ids, now);
    forall id | id in t ensures id in StaleIds(after, cutoff) <==> id in StaleIds(t, cutoff) && id !in ids {
      assert id in ids ==> !Unfinished(after[id]);
    }
    assert StaleIds(after, cutoff) == StaleIds(t, cutoff) - Elements(ids);
  }

  function Ceil(n: nat, d: nat): nat
    requires d > 0
  {
    (n + d - 1) / d
  }

  class Sweeper {
    const store: SqlComparisonStore
    const threshold: nat

    constructor (store: SqlComparisonStore, threshold: nat)
      ensures this.store == store && this.threshold == threshold
    {
      this.store, this.threshold := store, threshold;
    }

    /** `run_once`, with workers and requests idle. */
    method RunOnce(now: int) returns (n: nat)
      modifies store
      ensures n == Min(|StaleIds(old(store.rows), now - threshold)|, SWEEP_LIMIT)
      ensures n == Min(1000, |set id | id in old(store.rows) && old(store.rows)[id].status in {Pending, InProgress}
                                       && old(store.rows)[id].primary.receivedAt < now - threshold|)
      ensures |StaleIds(store.rows, now - threshold)| == |StaleIds(old(store.rows), now - threshold)| - n
      ensures store.rows.Keys == old(store.rows).Keys
      ensures forall id :: id in store.rows ==> var r, s := old(store.rows)[id], store.rows[id];
        s == r || (Stale(r, now - threshold) && s == r.(status := TimeoutStale, verdict := Evaluator.CandidateError,
                                                        reasons := ["timeout_stale"], evaluatedAt := Some(now)))
    {
      assert StaleIds(store.rows, now - threshold)
        == set id | id in store.rows && store.rows[id].status in {Pending, InProgress}
                    && store.rows[id].primary.receivedAt < now - threshold;
      var cutoff := now - threshold;
      var ids := store.FindStale(cutoff, SWEEP_LIMIT);
      for i := 0 to |ids|
        invariant store.rows == Swept(old(store.rows), ids[..i], now)
      {
        SweptLast(old(store.rows), ids[..i], ids[i], now);
        assert ids[..i + 1] == ids[..i] + [ids[i]];
        store.FinalizeRow(ids[i], StalePatch(now), now);
      }
      assert ids[..|ids|] == ids;
      SweepShrinks(old(store.rows), cutoff, ids, now);
      SweptRows(old(store.rows), ids, now);
      forall id | id in ids ensures id in StaleIds(old(store.rows), cutoff) { assert id in Elements(ids); }
      return |ids|;
    }

    /** With the clock standing still, ceil(n / 1000) ticks leave no stale row; one tick fewer leaves some. */
    method Converge(now: int, ticks: nat)
      modifies store
      ensures |StaleIds(store.rows, now - threshold)|
        == var n := |StaleIds(old(store.rows), now - threshold)|; n - Min(n, ticks * SWEEP_LIMIT)
      ensures StaleIds(store.rows, now - threshold) == {}
        <==> ticks >= Ceil(|StaleIds(old(store.rows), now - threshold)|, SWEEP_LIMIT)
    {
      ghost var n := |StaleIds(store.rows, now - threshold)|;
      for i := 0 to ticks
        invariant |StaleIds(store.rows, now - threshold)| == n - Min(n, i * SWEEP_LIMIT)
      {
        var _ := RunOnce(now);
      }
      assert StaleIds(store.rows, now - threshold) == {} <==> |StaleIds(store.rows, now - threshold)| == 0;
    }
  }

  /**
   * `requeue_all_unfinished`. No worker runs between the offers, so one end of the list survives. The count
   * returned is the number of rows found, which equals the number of jobs now waiting exactly when all fit.
   */
  method RequeueAllUnfinished(store: SqlComparisonStore, dispatcher: InProcessDispatcher)
    returns (n: nat, ghost ids: seq<Id>)
    requires dispatcher.Valid()
    modifies dispatcher
    ensures dispatcher.Valid()
    ensures IsUnfinishedList(store.rows, REQUEUE_LIMIT, ids) && n == |ids|
    ensures n == Min(10000, |set id | id in store.rows && store.rows[id].status in {Pending, InProgress}|)
    ensures dispatcher.queue == Survivors(dispatcher.policy, dispatcher.capacity, old(dispatcher.queue) + ids)
    ensures old(dispatcher.queue) == [] ==> (|dispatcher.queue| == n <==> n <= dispatcher.capacity)
  {
    var found := store.FindAllUnfinished(REQUEUE_LIMIT);
    ids := found;
    UnfinishedListMeaning(store.rows, REQUEUE_LIMIT, found);
    OfferAllKeepsOneEnd(dispatcher.policy, dispatcher.capacity, dispatcher.queue, found);
    for i := 0 to |found|
      invariant dispatcher.Valid()
      invariant OfferAll(dispatcher.policy, dispatcher.capacity, dispatcher.queue, found[i..])
        == OfferAll(dispatcher.policy, dispatcher.capacity, old(dispatcher.queue), found)
    {
      assert found[i..][1..] == found[i + 1..];
      var _ := dispatcher.Enqueue(found[i]);
    }
    return |found|, found;
  }
}
