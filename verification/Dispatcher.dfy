/** `dispatcher/in_process.py`: a bounded queue with two overflow policies and a pool of workers. */
module Dispatcher {
  import opened Prelude
  import opened Rows

  datatype Policy = DropNew | DropOld

  datatype DispatchStatus = Enqueued | Refused

  // ---------- one offer, and many ----------

  function Answer(policy: Policy, capacity: nat, q: seq<Id>): DispatchStatus {
    if |q| < capacity || (policy == DropOld && q != []) then Enqueued else Refused
  }

  function Offer(policy: Policy, capacity: nat, q: seq<Id>, id: Id): seq<Id> {
    if |q| < capacity then q + [id]
    else if policy == DropOld && q != [] then q[1..] + [id]
    else q
  }

  /** The job an offer pushes out of a full queue, if any. */
  function Evicted(policy: Policy, capacity: nat, q: seq<Id>): Option<Id> {
    if |q| >= capacity && policy == DropOld && q != [] then Some(q[0]) else None
  }

  function OfferAll(policy: Policy, capacity: nat, q: seq<Id>, ids: seq<Id>): seq<Id>
    decreases |ids|
  {
    if ids == [] then q else OfferAll(policy, capacity, Offer(policy, capacity, q, ids[0]), ids[1..])
  }

  /** What a burst of offers leaves: the oldest that fit, or the newest that fit. */
  function Survivors(policy: Policy, capacity: nat, all: seq<Id>): seq<Id> {
    var n := Min(capacity, |all|);
    if policy == DropNew then all[..n] else all[|all| - n..]
  }

  /** One offer does not change which end of the line survives. */
  lemma OfferSurvives(policy: Policy, capacity: nat, q: seq<Id>, id: Id, rest: seq<Id>)
    requires 1 <= capacity && |q| <= capacity
    ensures Survivors(policy, capacity, Offer(policy, capacity, q, id) + rest)
      == Survivors(policy, capacity, q + [id] + rest)
  {
  }

  lemma Rejoin(q: seq<Id>, ids: seq<Id>)
    requires ids != []
    ensures q + [ids[0]] + ids[1..] == q + ids
  {
  }

  /** With no worker running in between, a burst keeps exactly one end of the line. */
  lemma {:induction false} OfferAllKeepsOneEnd(policy: Policy, capacity: nat, q: seq<Id>, ids: seq<Id>)
    requires 1 <= capacity && |q| <= capacity
    ensures OfferAll(policy, capacity, q, ids) == Survivors(policy, capacity, q + ids)
    decreases |ids|
  {
    if ids == [] {
      assert q + ids == q;
    } else {
      Rejoin(q, ids);
      OfferSurvives(policy, capacity, q, ids[0], ids[1..]);
      OfferAllKeepsOneEnd(policy, capacity, Offer(policy, capacity, q, ids[0]), ids[1..]);
    }
  }

  // ---------- the pool ----------

  function Busy(slots: seq<Option<Id>>): nat {
    if slots == [] then 0 else (if slots[0].Some? then 1 else 0) + Busy(slots[1..])
  }

  lemma {:induction false} BusyUpdate(slots: seq<Option<Id>>, w: nat, v: Option<Id>)
    requires w < |slots|
    ensures Busy(slots[w := v]) == Busy(slots) - (if slots[w].Some? then 1 else 0) + (if v.Some? then 1 else 0)
  {
    if w == 0 {
      assert slots[w := v][1..] == slots[1..];
    } else {
      assert slots[w := v][1..] == slots[1..][w - 1 := v];
      BusyUpdate(slots[1..], w - 1, v);
    }
  }

  lemma {:induction false} NobodyBusy(slots: seq<Option<Id>>)
    ensures Busy(slots) == 0 <==> forall w :: 0 <= w < |slots| ==> slots[w].None?
    ensures Busy(slots) <= |slots|
  {
    if slots != [] {
      NobodyBusy(slots[1..]);
      assert forall w :: 0 < w < |slots| ==> slots[w] == slots[1..][w - 1];
    }
  }

  datatype Created = Pool(pool: InProcessDispatcher) | ValueError(msg: string)

  class InProcessDispatcher {
    const capacity: nat
    const policy: Policy
    const workers: nat
    var queue: seq<Id>
    var unfinished: nat           // asyncio's count of tasks put and not yet marked done
    var slots: seq<Option<Id>>    // the job each worker's handler is running on
    var running: bool

    ghost var offers: seq<Id>     // every job offered
    ghost var accepted: seq<Id>   // the offers answered Enqueued
    ghost var left: seq<Id>       // jobs that left the queue, taken or evicted, in order
    ghost var takes: nat
    ghost var evictions: nat
    ghost var handled: nat        // handler runs that returned or raised

    ghost predicate Valid()
      reads this
    {
      && Sound() && unfinished == |queue| + Busy(slots)
    }

    ghost predicate Sound()
      reads this
    {
      && 1 <= capacity && 1 <= workers && |slots| == workers && |queue| <= capacity
      && accepted == left + queue
      && |left| == takes + evictions && takes == handled + Busy(slots)
      && (policy == DropNew ==> evictions == 0)
      && (policy == DropOld ==> accepted == offers)
    }

    constructor (capacity: nat, workers: nat, policy: Policy)
      requires 1 <= capacity && 1 <= workers
      ensures Valid() && this.capacity == capacity && this.workers == workers && this.policy == policy
      ensures queue == [] && offers == [] && accepted == [] && left == [] && handled == 0 && !running
    {
      this.capacity, this.workers, this.policy := capacity, workers, policy;
      queue, unfinished, running := [], 0, false;
      slots := seq(workers, _ => None);
      offers, accepted, left, takes, evictions, handled := [], [], [], 0, 0, 0;
      new;
      NobodyBusy(slots);
    }

    /** `__init__` with its two checks. */
    static method Create(capacity: int, workers: int, policy: Policy) returns (r: Created)
      ensures r.ValueError? <==> capacity < 1 || workers < 1
      ensures r.Pool? ==> fresh(r.pool) && r.pool.Valid() && r.pool.queue == [] && r.pool.capacity == capacity
                          && r.pool.workers == workers && r.pool.policy == policy
    {
      if capacity < 1 { return ValueError("capacity must be >= 1"); }
      if workers < 1 { return ValueError("workers must be >= 1"); }
      var d := new InProcessDispatcher(capacity, workers, policy);
      return Pool(d);
    }

    /** `start`: a second call changes nothing. */
    method Start()
      modifies this`running
      ensures running
    {
      if running { return; }
      running := true;
    }

    /** Under drop_new nothing accepted is lost; under drop_old the queue is the newest part of all offers. */
    lemma Histories()
      requires Sound()
      ensures policy == DropNew ==> accepted == left + queue && |left| == takes
      ensures policy == DropOld ==> |queue| <= |offers| && queue == offers[|offers| - |queue|..]
      ensures |accepted| == handled + Busy(slots) + evictions + |queue|
    {
    }

    /** `enqueue`: never waits. */
    method Enqueue(id: Id) returns (s: DispatchStatus)
      requires Valid()
      modifies this
      ensures Valid()
      ensures |old(queue)| < capacity ==> s == Enqueued && queue == old(queue) + [id] && left == old(left)
      ensures |old(queue)| >= capacity && policy == DropNew ==>
        s == Refused && queue == old(queue) && left == old(left)
      ensures |old(queue)| >= capacity && policy == DropOld ==>
        s == Enqueued && queue == old(queue)[1..] + [id] && left == old(left) + [old(queue)[0]]
      ensures s == Answer(policy, capacity, old(queue)) && queue == Offer(policy, capacity, old(queue), id)
      ensures offers == old(offers) + [id]
      ensures accepted == if s == Enqueued then old(accepted) + [id] else old(accepted)
      ensures evictions == old(evictions) + (if Evicted(policy, capacity, old(queue)).Some? then 1 else 0)
      ensures slots == old(slots) && handled == old(handled) && takes == old(takes) && running == old(running)
    {
      offers := offers + [id];
      if |queue| < capacity {
        queue, unfinished, accepted := queue + [id], unfinished + 1, accepted + [id];
        return Enqueued;
      }
      if policy == DropOld {
        left, evictions := left + [queue[0]], evictions + 1;
        queue, unfinished := queue[1..], unfinished - 1;
        queue, unfinished, accepted := queue + [id], unfinished + 1, accepted + [id];
        return Enqueued;
      }
      return Refused;
    }

    /** A worker's `queue.get()` returns. */
    method Take(w: nat)
      requires Valid() && w < workers && slots[w].None? && queue != []
      modifies this
      ensures Valid()
      ensures queue == old(queue)[1..] && slots == old(slots)[w := Some(old(queue)[0])]
      ensures unfinished == old(unfinished) && left == old(left) + [old(queue)[0]]
      ensures accepted == old(accepted) && offers == old(offers) && handled == old(handled)
      ensures evictions == old(evictions) && running == old(running) && Busy(slots) == Busy(old(slots)) + 1
    {
      BusyUpdate(slots, w, Some(queue[0]));
      left, takes := left + [queue[0]], takes + 1;
      slots, queue := slots[w := Some(queue[0])], queue[1..];
    }

    /** The handler returns, or raises an exception other than cancellation: both end in one `task_done`. */
    method Finish(w: nat)
      requires Valid() && w < workers && slots[w].Some?
      modifies this
      ensures Valid()
      ensures queue == old(queue) && slots == old(slots)[w := None] && unfinished == old(unfinished) - 1
      ensures handled == old(handled) + 1 && accepted == old(accepted) && offers == old(offers) && left == old(left)
      ensures evictions == old(evictions) && running == old(running) && Busy(slots) == Busy(old(slots)) - 1
    {
      BusyUpdate(slots, w, None);
      slots, unfinished, handled := slots[w := None], unfinished - 1, handled + 1;
    }

    /** `queue.task_done()`; false stands for the ValueError it raises when nothing is unfinished. */
    method TaskDone() returns (ok: bool)
      modifies this`unfinished
      ensures ok <==> old(unfinished) > 0
      ensures unfinished == if ok then old(unfinished) - 1 else 0
    {
      ok := unfinished > 0;
      if ok { unfinished := unfinished - 1; }
    }

    /**
     * Cancelling every worker. One that is inside its handler marks its job done twice, once for the
     * cancellation and once in the `finally` clause; the second mark may raise.
     */
    method CancelWorkers() returns (raised: bool)
      requires Valid()
      modifies this`unfinished, this`slots
      ensures raised <==> Busy(old(slots)) > |queue|
      ensures unfinished == if raised then 0 else |queue| - Busy(old(slots))
      ensures slots == seq(workers, _ => None)
    {
      raised := false;
      ghost var k := Busy(slots);
      for w := 0 to workers
        invariant |slots| == workers && (forall v :: 0 <= v < w ==> slots[v].None?)
        invariant forall v :: w <= v < workers ==> slots[v] == old(slots)[v]
        invariant Busy(slots) <= k
        invariant var rest := |queue| + k - 2 * (k - Busy(slots));
          (raised <==> rest < 0) && unfinished == if rest < 0 then 0 else rest
      {
        BusyUpdate(slots, w, None);
        if slots[w].Some? {
          var first := TaskDone();
          var second := TaskDone();
          raised := raised || !first || !second;
          slots := slots[w := None];
        }
      }
      NobodyBusy(slots);
    }

    /**
     * `stop`. With `drain` it waits for `join` while workers, in any order, take and finish jobs; it then
     * returns with every accepted job handled or evicted, and no worker is cancelled inside its handler.
     * Without `drain` it raises exactly when more handlers are running than jobs are waiting.
     */
    method Stop(drain: bool) returns (raised: bool)
      requires Valid()
      modifies this
      ensures !running && accepted == old(accepted) && evictions == old(evictions)
      ensures !old(running) ==> !raised && queue == old(queue) && slots == old(slots) && handled == old(handled)
      ensures old(running) && drain ==> !raised && queue == [] && unfinished == 0 && |accepted| == handled + evictions
      ensures old(running) && !drain
        ==> (raised <==> Busy(old(slots)) > |old(queue)|) && queue == old(queue) && handled == old(handled)
    {
      if !running { return false; }
      running := false;
      if drain {
        while unfinished != 0
          invariant Valid() && !running && accepted == old(accepted) && evictions == old(evictions)
          decreases 2 * |queue| + Busy(slots)
        {
          NobodyBusy(slots);
          var w :| 0 <= w < workers && (slots[w].Some? || queue != []);
          if slots[w].Some? { Finish(w); } else { Take(w); }
        }
        Histories();
      }
      raised := CancelWorkers();
    }
  }
}
