/** A crash at any step, a restart, and a drain: what comes back, and that the drain comes to an end. */
module Recovery {
  import opened Prelude
  import opened Rows
  import opened Dispatcher
  import opened Pipeline
  import opened Sweeper
  import opened Protocol
  import opened Accounting

  /** Steps of a restart and drain: startup, workers whose handler does not raise, and the sweeper. */
  ghost predicate Calm(c: Config, s: State, l: Label) {
    match l
    case Boot => true
    case Query(_) => true
    case Requeue => true
    case Work(w, e) => w < |s.workers| && (s.workers[w].Idle? || !Raises(c.setup, s.workers[w], e))
    case Scan(_, _) => true
    case Sweep(_, _) => true
    case _ => false
  }

  ghost predicate CalmRun(c: Config, s: State, ls: seq<Label>, t: State)
    decreases |ls|
  {
    if ls == [] then s == t
    else Enabled(c, s, ls[0]) && Calm(c, s, ls[0]) && CalmRun(c, Apply(c, s, ls[0]), ls[1..], t)
  }

  ghost predicate Quiescent(s: State) {
    s.queue == [] && forall w :: 0 <= w < |s.workers| ==> s.workers[w].Idle?
  }

  // ---------- nothing is left behind ----------

  /** On the way up every unfinished row is still to be requeued; afterwards it is queued or in a worker's hands. */
  ghost predicate Recovering(c: Config, s: State) {
    && Shaped(c, s) && s.chats == map[]
    && match s.phase
       case Down => |UnfinishedIds(s.sh.rows)| <= Min(c.capacity, REQUEUE_LIMIT)
       case Starting => |UnfinishedIds(s.sh.rows)| <= Min(c.capacity, REQUEUE_LIMIT)
       case Requeueing(ids) => |ids| <= c.capacity && forall id :: id in UnfinishedIds(s.sh.rows) ==> id in ids
       case Serving => forall id :: id in UnfinishedIds(s.sh.rows) ==> id in s.queue || WorkerHolds(s, id)
  }

  lemma FinalizeShrinks(t: Table, id: Id, p: FinalizePatch, now: int)
    requires !p.status.Pending? && !p.status.InProgress?
    ensures UnfinishedIds(Finalize(t, id, p, now)) == UnfinishedIds(t) - {id}
  {
  }

  lemma SweepRecovering(c: Config, s: State, ok: bool, now: int, t: State)
    requires Recovering(c, s) && Step(c, s, Sweep(ok, now), t)
    ensures Recovering(c, t)
  {
    if ok {
      FinalizeShrinks(s.sh.rows, s.sweep[0], StalePatch(now), now);
      SubsetSize(UnfinishedIds(t.sh.rows), UnfinishedIds(s.sh.rows));
    }
    SameHands(s, t);
  }

  lemma WorkRecovering(c: Config, s: State, w: nat, e: Env, t: State)
    requires Recovering(c, s) && Step(c, s, Work(w, e), t) && Calm(c, s, Work(w, e)) && Proper(c)
    ensures Recovering(c, t)
  {
    StepShaped(c, s, Work(w, e), t);
    if s.workers[w].Idle? {
      forall id | id in UnfinishedIds(t.sh.rows) ensures id in t.queue || WorkerHolds(t, id) {
        assert Live(s, id);
        TakeLive(s, w, id);
      }
    } else {
      MoveReleases(c.setup, s.sh, s.workers[w], e);
      forall id | id in UnfinishedIds(t.sh.rows) ensures id in t.queue || WorkerHolds(t, id) {
        if Holding(s.workers[w]) == Some(id) {
          assert Holding(t.workers[w]) == Some(id);
        } else {
          assert id in UnfinishedIds(s.sh.rows);
          assert Live(s, id);
          KeepLive(s, t, w, id);
        }
      }
    }
  }

  lemma StepRecovering(c: Config, s: State, l: Label, t: State)
    requires Proper(c) && Recovering(c, s) && Step(c, s, l, t) && Calm(c, s, l)
    ensures Recovering(c, t)
  {
    match l
    case Work(w, e) => WorkRecovering(c, s, w, e, t);
    case Sweep(ok, now) => SweepRecovering(c, s, ok, now, t);
    case Scan(_, _) => SameHands(s, t);
    case Boot =>
    case Query(ids) =>
      ShortListIsComplete(s.sh.rows, REQUEUE_LIMIT, ids);
      forall id | id in UnfinishedIds(s.sh.rows) ensures id in ids { assert id in Elements(ids); }
    case Requeue =>
      BurstFits(c, s.phase.ids);
      assert s.phase.ids[..|s.phase.ids|] == s.phase.ids && s.phase.ids[0..] == s.phase.ids;
  }

  lemma {:induction false} RunRecovering(c: Config, s: State, ls: seq<Label>, t: State)
    requires Proper(c) && Recovering(c, s) && CalmRun(c, s, ls, t)
    ensures Recovering(c, t)
    decreases |ls|
  {
    if ls != [] {
      StepRecovering(c, s, ls[0], Apply(c, s, ls[0]));
      RunRecovering(c, Apply(c, s, ls[0]), ls[1..], t);
    }
  }

  /**
   * Crash recovery. After a crash at any point, if the unfinished rows fit the queue and the query limit,
   * every restart and drain that reaches rest leaves no row pending or in progress, whatever the candidate
   * model answers and however the sweeper interleaves.
   */
  lemma CrashRecovery(c: Config, before: State, crashed: State, ls: seq<Label>, t: State)
    requires Proper(c) && Reachable(c, before) && Step(c, before, Crash, crashed)
    requires |UnfinishedIds(before.sh.rows)| <= Min(c.capacity, REQUEUE_LIMIT)
    requires CalmRun(c, crashed, ls, t) && t.phase.Serving? && Quiescent(t)
    ensures UnfinishedIds(t.sh.rows) == {}
  {
    ReachableAccounted(c, before);
    StepShaped(c, before, Crash, crashed);
    RunRecovering(c, crashed, ls, t);
  }

  // ---------- several crashes ----------

  /** Nothing but the given ids is unfinished or on its way to a worker, and no request is open. */
  ghost predicate Within(u: set<Id>, s: State) {
    && s.chats == map[] && UnfinishedIds(s.sh.rows) <= u
    && (forall id :: id in s.queue ==> id in u)
    && (forall w :: 0 <= w < |s.workers| && Holding(s.workers[w]).Some? ==> s.workers[w].id in u)
    && (s.phase.Requeueing? ==> forall id :: id in s.phase.ids ==> id in u)
  }

  lemma WorkWithin(c: Config, u: set<Id>, s: State, w: nat, e: Env)
    requires Within(u, s) && w < |s.workers| && !s.workers[w].Idle?
    ensures Within(u, WorkStep(c, s, w, e))
  {
    var t, here := WorkStep(c, s, w, e), s.workers[w];
    MoveReleases(c.setup, s.sh, here, e);
    forall v | 0 <= v < |t.workers| && Holding(t.workers[v]).Some? ensures t.workers[v].id in u {
      if v == w { assert Holding(here).Some?; } else { assert t.workers[v] == s.workers[v]; }
    }
    forall id | id in UnfinishedIds(t.sh.rows) ensures id in u {
      if id != here.id { assert id in UnfinishedIds(s.sh.rows); }
      if id == here.id && Holding(here).None? { assert id in UnfinishedIds(s.sh.rows); }
    }
  }

  lemma StepWithin(c: Config, u: set<Id>, s: State, l: Label, t: State)
    requires Proper(c) && Shaped(c, s) && Within(u, s) && Step(c, s, l, t) && !l.Arrive?
    ensures Within(u, t)
  {
    match l
    case Work(w, e) =>
      if s.workers[w].Idle? {
        assert s.queue[0] in s.queue;
        assert forall v :: 0 <= v < |t.workers| && v != w ==> t.workers[v] == s.workers[v];
      } else {
        WorkWithin(c, u, s, w, e);
      }
    case Sweep(ok, now) => if ok { FinalizeShrinks(s.sh.rows, s.sweep[0], StalePatch(now), now); }
    case Query(ids) => forall id | id in ids ensures id in u { assert id in Elements(ids); }
    case Requeue => BurstFits(c, s.phase.ids);
    case _ =>
  }

  /** Whatever workers, sweeper, crashes and restarts do, nothing outside the set becomes unfinished. */
  lemma {:induction false} RunWithin(c: Config, u: set<Id>, s: State, ls: seq<Label>, t: State)
    requires Proper(c) && Shaped(c, s) && Within(u, s) && Run(c, s, ls, t)
    requires forall i :: 0 <= i < |ls| ==> !ls[i].Arrive?
    ensures Within(u, t)
    decreases |ls|
  {
    if ls != [] {
      var next := Apply(c, s, ls[0]);
      StepShaped(c, s, ls[0], next);
      StepWithin(c, u, s, ls[0], next);
      RunWithin(c, u, next, ls[1..], t);
    }
  }

  /** After a crash nothing becomes unfinished that was not, until a new request arrives. */
  lemma CrashBoundsUnfinished(c: Config, before: State, crashed: State, between: seq<Label>, again: State)
    requires Proper(c) && Reachable(c, before) && Step(c, before, Crash, crashed)
    requires Run(c, crashed, between, again) && forall i :: 0 <= i < |between| ==> !between[i].Arrive?
    ensures Reachable(c, again) && UnfinishedIds(again.sh.rows) <= UnfinishedIds(before.sh.rows)
  {
    ReachableAccounted(c, before);
    StepShaped(c, before, Crash, crashed);
    RunWithin(c, UnfinishedIds(before.sh.rows), crashed, between, again);
    ReachableStep(c, before, Crash, crashed);
    ReachableThrough(c, crashed, between, again);
  }

  /**
   * Recovery through repeated crashes. Between the first crash and the last anything may happen except new
   * requests: further crashes and restarts, drains cut short, raising handlers. If the rows unfinished at the
   * first crash fit both limits, the restart after the last one leaves none.
   */
  lemma RepeatedCrashRecovery(c: Config, before: State, crashed: State, between: seq<Label>, again: State,
                              last: State, ls: seq<Label>, t: State)
    requires Proper(c) && Reachable(c, before) && Step(c, before, Crash, crashed)
    requires |UnfinishedIds(before.sh.rows)| <= Min(c.capacity, REQUEUE_LIMIT)
    requires Run(c, crashed, between, again) && forall i :: 0 <= i < |between| ==> !between[i].Arrive?
    requires Step(c, again, Crash, last)
    requires CalmRun(c, last, ls, t) && t.phase.Serving? && Quiescent(t)
    ensures UnfinishedIds(t.sh.rows) == {}
  {
    CrashBoundsUnfinished(c, before, crashed, between, again);
    SubsetSize(UnfinishedIds(again.sh.rows), UnfinishedIds(before.sh.rows));
    CrashRecovery(c, again, last, ls, t);
  }

  /** At rest, after any run, the rows still unfinished are rows forgotten for a recorded cause. */
  lemma RestLeavesOnlyLost(c: Config, s: State)
    requires Proper(c) && Reachable(c, s) && s.phase.Serving? && s.chats == map[] && Quiescent(s)
    ensures UnfinishedIds(s.sh.rows) <= s.history.lost.Keys
  {
    ReachableAccounted(c, s);
    forall id | id in UnfinishedIds(s.sh.rows) ensures id in s.history.lost {
      assert !WorkerHolds(s, id) && !AtSomeGate(s, id);
    }
  }

  /** A list taken from a set, cut to the queue's size, still names the whole set exactly when the set fits. */
  lemma SurvivorsCoverIff(c: Config, t: Table, ids: seq<Id>)
    requires IsUnfinishedList(t, REQUEUE_LIMIT, ids)
    ensures UnfinishedIds(t) <= Elements(Survivors(c.policy, c.capacity, ids))
      <==> |UnfinishedIds(t)| <= Min(c.capacity, REQUEUE_LIMIT)
  {
    var u, q := UnfinishedIds(t), Survivors(c.policy, c.capacity, ids);
    if |u| <= Min(c.capacity, REQUEUE_LIMIT) {
      ShortListIsComplete(t, REQUEUE_LIMIT, ids);
      assert ids[..|ids|] == ids && ids[0..] == ids;
    }
    if u <= Elements(q) {
      SurvivorsDistinct(c.policy, c.capacity, ids);
      DistinctSize(q);
      SubsetSize(u, Elements(q));
    }
  }

  /** The startup list reaches the queue whole exactly when the unfinished rows fit both limits. */
  lemma StartupKeepsAllIff(c: Config, s: State, ids: seq<Id>, listed: State, t: State)
    requires Proper(c) && Shaped(c, s) && Step(c, s, Query(ids), listed) && Step(c, listed, Requeue, t)
    ensures UnfinishedIds(t.sh.rows) <= Elements(t.queue)
      <==> |UnfinishedIds(s.sh.rows)| <= Min(c.capacity, REQUEUE_LIMIT)
  {
    StartupRequeues(c, s, ids, listed, t);
    SurvivorsCoverIff(c, s.sh.rows, ids);
  }

  lemma StartupRequeues(c: Config, s: State, ids: seq<Id>, listed: State, t: State)
    requires Proper(c) && Shaped(c, s) && Step(c, s, Query(ids), listed) && Step(c, listed, Requeue, t)
    ensures IsUnfinishedList(s.sh.rows, REQUEUE_LIMIT, ids)
    ensures t.sh.rows == s.sh.rows && t.queue == Survivors(c.policy, c.capacity, ids)
  {
    BurstFits(c, ids);
  }

  // ---------- the drain terminates ----------

  function TotalSteps(ws: seq<Worker>): nat {
    if ws == [] then 0 else Steps(ws[0]) + TotalSteps(ws[1..])
  }

  lemma {:induction false} TotalStepsUpdate(ws: seq<Worker>, i: nat, w: Worker)
    requires i < |ws|
    ensures TotalSteps(ws[i := w]) == TotalSteps(ws) - Steps(ws[i]) + Steps(w)
  {
    if i == 0 {
      assert ws[i := w][1..] == ws[1..];
    } else {
      assert ws[i := w][1..] == ws[1..][i - 1 := w];
      TotalStepsUpdate(ws[1..], i - 1, w);
    }
  }

  /** Work still to be done, in stretches of handler code: nine at most for a queued job. */
  function Remaining(s: State): nat { 9 * |s.queue| + TotalSteps(s.workers) }

  lemma CalmStepRemaining(c: Config, s: State, l: Label, t: State)
    requires Step(c, s, l, t) && Calm(c, s, l) && s.phase.Serving?
    ensures t.phase.Serving?
    ensures Remaining(t) <= Remaining(s) - (if l.Work? then 1 else 0)
  {
    if l.Work? { TotalStepsUpdate(s.workers, l.w, t.workers[l.w]); }
  }

  function WorkLabels(ls: seq<Label>): nat {
    if ls == [] then 0 else (if ls[0].Work? then 1 else 0) + WorkLabels(ls[1..])
  }

  /** No drain contains more worker steps than there is work, so workers cannot run forever. */
  lemma {:induction false} DrainBounded(c: Config, s: State, ls: seq<Label>, t: State)
    requires s.phase.Serving? && CalmRun(c, s, ls, t)
    ensures WorkLabels(ls) + Remaining(t) <= Remaining(s)
    decreases |ls|
  {
    if ls != [] {
      CalmStepRemaining(c, s, ls[0], Apply(c, s, ls[0]));
      DrainBounded(c, Apply(c, s, ls[0]), ls[1..], t);
    }
  }

  /** Until rest is reached some worker can always move, whatever it will be told. */
  lemma SomeWorkerMoves(c: Config, s: State) returns (w: nat)
    requires Proper(c) && Shaped(c, s) && s.phase.Serving? && !Quiescent(s)
    ensures forall e :: Enabled(c, s, Work(w, e))
  {
    if v: nat :| v < |s.workers| && !s.workers[v].Idle? {
      w := v;
    } else {
      w := 0;
    }
  }

  /** Away from rest a worker can move, so where none can, the drain is at rest. */
  lemma MovesUnlessAtRest(c: Config, s: State)
    requires Proper(c) && Shaped(c, s) && s.phase.Serving?
    ensures Quiescent(s) || exists w: nat, e :: Enabled(c, s, Work(w, e))
  {
    if !Quiescent(s) {
      var w := SomeWorkerMoves(c, s);
      var today: RawStore.Date := RawStore.Calendar(2026, 1, 1);
      assert Enabled(c, s, Work(w, Env(true, true, true, Llm.PostTimeout, true, true, true, today, 0, 0)));
    }
  }

  /**
   * Recovery and termination together, for finite drains: once the process is up again a drain has no more
   * worker steps than there was work, and one that cannot go on has left no row pending or in progress.
   */
  lemma RecoveryCompletes(c: Config, before: State, crashed: State, up: seq<Label>, s: State, ls: seq<Label>, t: State)
    requires Proper(c) && Reachable(c, before) && Step(c, before, Crash, crashed)
    requires |UnfinishedIds(before.sh.rows)| <= Min(c.capacity, REQUEUE_LIMIT)
    requires CalmRun(c, crashed, up, s) && s.phase.Serving? && CalmRun(c, s, ls, t)
    ensures WorkLabels(ls) + Remaining(t) <= Remaining(s)
    ensures (forall w: nat, e :: !Enabled(c, t, Work(w, e))) ==> Quiescent(t) && UnfinishedIds(t.sh.rows) == {}
  {
    ReachableAccounted(c, before);
    StepShaped(c, before, Crash, crashed);
    RunRecovering(c, crashed, up, s);
    RunRecovering(c, s, ls, t);
    DrainBounded(c, s, ls, t);
    DrainStaysOpen(c, s, ls, t);
    MovesUnlessAtRest(c, t);
  }

  lemma {:induction false} DrainStaysOpen(c: Config, s: State, ls: seq<Label>, t: State)
    requires s.phase.Serving? && CalmRun(c, s, ls, t)
    ensures t.phase.Serving?
    decreases |ls|
  {
    if ls != [] {
      CalmStepRemaining(c, s, ls[0], Apply(c, s, ls[0]));
      DrainStaysOpen(c, Apply(c, s, ls[0]), ls[1..], t);
    }
  }

  /** Rest is always within reach: here with a candidate model that times out on every call. */
  lemma {:induction false} DrainCompletes(c: Config, s: State) returns (ls: seq<Label>, t: State)
    requires Proper(c) && Shaped(c, s) && s.phase.Serving?
    ensures CalmRun(c, s, ls, t) && Quiescent(t) && t.phase.Serving? && t.chats == s.chats && Shaped(c, t)
    ensures t.sweep == s.sweep && forall i :: 0 <= i < |ls| ==> ls[i].Work?
    decreases Remaining(s)
  {
    if Quiescent(s) {
      ls, t := [], s;
    } else {
      var w := SomeWorkerMoves(c, s);
      var today: RawStore.Date := RawStore.Calendar(2026, 1, 1);
      var e := Env(true, true, true, Llm.PostTimeout, true, true, true, today, 0, 0);
      var l := Work(w, e);
      assert Enabled(c, s, l);
      var next := Apply(c, s, l);
      CalmStepRemaining(c, s, l, next);
      StepShaped(c, s, l, next);
      var rest;
      rest, t := DrainCompletes(c, next);
      ls := [l] + rest;
      assert ls[1..] == rest;
    }
  }
}
