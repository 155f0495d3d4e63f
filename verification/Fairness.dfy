/**
 * Recoveries that go on forever. If startup and workers are not held up for good, every one of them reaches a
 * state at rest in which no row is unfinished; and there are such recoveries.
 */
module Fairness {
  import opened Prelude
  import opened Rows
  import opened Sweeper
  import opened Protocol
  import opened Accounting
  import opened Recovery

  /** Steps of a restart and drain, forever. */
  ghost predicate CalmForever(c: Config, at: nat -> State, move: nat -> Label) {
    Endless(c, at, move) && forall n: nat {:trigger move(n)} :: Calm(c, at(n), move(n))
  }

  ghost predicate Recovered(s: State) { s.phase.Serving? && Quiescent(s) }

  /** A step of the startup or of a worker, as opposed to one of the sweeper. */
  predicate Advances(l: Label) { l.Boot? || l.Query? || l.Requeue? || l.Work? }

  ghost predicate AdvancesLater(move: nat -> Label, n: nat) { exists m: nat :: n <= m && Advances(move(m)) }

  /** The sweeper does not keep startup and workers from running: as long as they are not done they step again. */
  ghost predicate FairToWorkers(at: nat -> State, move: nat -> Label) {
    forall n: nat {:trigger AdvancesLater(move, n)} :: !Recovered(at(n)) ==> AdvancesLater(move, n)
  }

  /** Startup steps still to come. */
  function Ahead(p: Phase): nat {
    match p case Down => 3 case Starting => 2 case Requeueing(_) => 1 case Serving => 0
  }

  lemma AdvanceShrinks(c: Config, s: State, l: Label, t: State)
    requires Step(c, s, l, t) && Calm(c, s, l) && Shaped(c, s)
    ensures Ahead(t.phase) <= Ahead(s.phase)
    ensures Ahead(t.phase) == Ahead(s.phase) ==> Remaining(t) <= Remaining(s) - One(Advances(l))
  {
    if l.Work? { TotalStepsUpdate(s.workers, l.w, t.workers[l.w]); }
  }

  /** From one state of the execution to a later one. */
  lemma {:induction false} RecoveringOn(c: Config, at: nat -> State, move: nat -> Label, n: nat, m: nat)
    requires Proper(c) && CalmForever(c, at, move) && Recovering(c, at(n)) && n <= m
    ensures Recovering(c, at(m)) && Ahead(at(m).phase) <= Ahead(at(n).phase)
    ensures Ahead(at(m).phase) == Ahead(at(n).phase) ==> Remaining(at(m)) <= Remaining(at(n))
    decreases m - n
  {
    if n < m {
      var l := move(n);
      StepRecovering(c, at(n), l, at(n + 1));
      AdvanceShrinks(c, at(n), l, at(n + 1));
      RecoveringOn(c, at, move, n + 1, m);
    }
  }

  /** Up to the next step of startup or a worker, that step included, something has been achieved. */
  lemma AdvanceComes(c: Config, at: nat -> State, move: nat -> Label, n: nat, m: nat)
    requires Proper(c) && CalmForever(c, at, move) && Recovering(c, at(n)) && n <= m && Advances(move(m))
    ensures Recovering(c, at(m + 1)) && Ahead(at(m + 1).phase) <= Ahead(at(n).phase)
    ensures Ahead(at(m + 1).phase) == Ahead(at(n).phase) ==> Remaining(at(m + 1)) < Remaining(at(n))
  {
    var l := move(m);
    RecoveringOn(c, at, move, n, m);
    StepRecovering(c, at(m), l, at(m + 1));
    AdvanceShrinks(c, at(m), l, at(m + 1));
  }

  lemma {:induction false} FairlyRecovered(c: Config, at: nat -> State, move: nat -> Label, n: nat) returns (k: nat)
    requires Proper(c) && CalmForever(c, at, move) && FairToWorkers(at, move) && Recovering(c, at(n))
    ensures Recovered(at(k)) && UnfinishedIds(at(k).sh.rows) == {}
    decreases Ahead(at(n).phase), Remaining(at(n))
  {
    if Recovered(at(n)) {
      k := n;
      RestIsRecovered(c, at(n));
    } else {
      assert AdvancesLater(move, n);
      var m: nat :| n <= m && Advances(move(m));
      AdvanceComes(c, at, move, n, m);
      k := FairlyRecovered(c, at, move, m + 1);
    }
  }

  lemma RestIsRecovered(c: Config, s: State)
    requires Recovering(c, s) && Recovered(s)
    ensures UnfinishedIds(s.sh.rows) == {}
  {
  }

  /**
   * Every fair recovery completes: from the crash on, if startup and workers are not held up forever, a state
   * comes in which the process is open, at rest, and no row is pending or in progress.
   */
  lemma FairRecovery(c: Config, before: State, at: nat -> State, move: nat -> Label) returns (k: nat)
    requires Proper(c) && Reachable(c, before) && Step(c, before, Crash, at(0))
    requires |UnfinishedIds(before.sh.rows)| <= Min(c.capacity, REQUEUE_LIMIT)
    requires CalmForever(c, at, move) && FairToWorkers(at, move)
    ensures Recovered(at(k)) && UnfinishedIds(at(k).sh.rows) == {}
  {
    ReachableAccounted(c, before);
    StepShaped(c, before, Crash, at(0));
    k := FairlyRecovered(c, at, move, 0);
  }

  // ---------- there are fair recoveries ----------

  /** Where nothing is unfinished, the sweeper may look in vain again and again. */
  lemma IdleScan(c: Config, s: State)
    requires UnfinishedIds(s.sh.rows) == {} && s.sweep == [] && !s.phase.Down?
    ensures Step(c, s, Scan(0, []), s)
  {
    assert StaleIds(s.sh.rows, 0) <= UnfinishedIds(s.sh.rows);
    assert IsStaleList(s.sh.rows, 0, SWEEP_LIMIT, []);
  }

  lemma CalmFirst(c: Config, s: State, l: Label, next: State, ls: seq<Label>, t: State)
    requires Step(c, s, l, next) && Calm(c, s, l) && CalmRun(c, next, ls, t)
    ensures CalmRun(c, s, [l] + ls, t)
  {
    assert ([l] + ls)[1..] == ls;
  }

  /** A restart and a drain, step by step. */
  lemma RestartExists(c: Config, s: State) returns (ls: seq<Label>, t: State)
    requires Proper(c) && Recovering(c, s) && s.phase.Down?
    ensures CalmRun(c, s, ls, t) && Recovered(t) && t.sweep == []
    ensures forall i :: 0 <= i < |ls| ==> Advances(ls[i])
  {
    var up := Apply(c, s, Boot);
    var ids := UnfinishedListExists(up.sh.rows, REQUEUE_LIMIT);
    var listed := Apply(c, up, Query(ids));
    var open := Apply(c, listed, Requeue);
    StepShaped(c, s, Boot, up);
    StepShaped(c, up, Query(ids), listed);
    StepShaped(c, listed, Requeue, open);
    ls, t := DrainCompletes(c, open);
    CalmFirst(c, listed, Requeue, open, ls, t);
    CalmFirst(c, up, Query(ids), listed, [Requeue] + ls, t);
    CalmFirst(c, s, Boot, up, [Query(ids)] + ([Requeue] + ls), t);
    ls := [Boot] + ([Query(ids)] + ([Requeue] + ls));
  }

  lemma {:induction false} CalmOn(c: Config, s: State, ls: seq<Label>, t: State, n: nat)
    requires CalmRun(c, s, ls, t) && n < |ls|
    ensures Calm(c, After(c, s, ls, n), ls[n])
    decreases n
  {
    if n > 0 { CalmOn(c, Apply(c, s, ls[0]), ls[1..], t, n - 1); }
  }

  lemma {:induction false} CalmIsRun(c: Config, s: State, ls: seq<Label>, t: State)
    requires CalmRun(c, s, ls, t)
    ensures Run(c, s, ls, t)
    decreases |ls|
  {
    if ls != [] { CalmIsRun(c, Apply(c, s, ls[0]), ls[1..], t); }
  }

  /** There is a fair recovery from every crash after which the unfinished rows fit. */
  lemma FairRecoveryExists(c: Config, before: State) returns (at: nat -> State, move: nat -> Label)
    requires Proper(c) && Reachable(c, before) && !before.phase.Down?
    requires |UnfinishedIds(before.sh.rows)| <= Min(c.capacity, REQUEUE_LIMIT)
    ensures Step(c, before, Crash, at(0)) && CalmForever(c, at, move) && FairToWorkers(at, move)
  {
    var s := Apply(c, before, Crash);
    ReachableAccounted(c, before);
    StepShaped(c, before, Crash, s);
    var ls, t := RestartExists(c, s);
    RunRecovering(c, s, ls, t);
    RestIsRecovered(c, t);
    IdleScan(c, t);
    CalmIsRun(c, s, ls, t);
    at, move := Onwards(c, s, ls, t, Scan(0, []));
    forall n: nat ensures Calm(c, at(n), move(n)) && (!Recovered(at(n)) ==> Advances(move(n))) {
      if n < |ls| { CalmOn(c, s, ls, t, n); }
    }
  }
}
