/**
 * Without new requests everything comes to an end, whatever the queue's capacity and whatever handlers raise:
 * requests and workers run out of work, and the sweeper then finishes every row they have left behind.
 */
module Convergence {
  import opened Prelude
  import opened Rows
  import opened Pipeline
  import opened Chat
  import opened Sweeper
  import opened Protocol
  import opened Accounting
  import opened Recovery
  import Fairness
  import Scenes

  /** Any step of a running process but a new request or a crash. */
  predicate Winding(l: Label) { l.Work? || l.Serve? || l.Scan? || l.Sweep? }

  ghost predicate WindingRun(c: Config, s: State, ls: seq<Label>, t: State) {
    Run(c, s, ls, t) && forall i :: 0 <= i < |ls| ==> Winding(ls[i])
  }

  // ---------- requests and workers run out of work ----------

  ghost function Pick(chats: map<nat, ChatState>): (g: nat)
    requires chats != map[]
    ensures g in chats
  {
    assert chats.Keys != {};
    var g :| g in chats.Keys; g
  }

  /** What an open request can still cause: its own stretches, and those of a job. */
  ghost function ChatWork(chats: map<nat, ChatState>): nat
    decreases |chats|
  {
    if chats == map[] then 0
    else var g := Pick(chats); assert |chats - {g}| < |chats|; Left(chats[g]) + 9 + ChatWork(chats - {g})
  }

  lemma {:induction false} ChatWorkAt(chats: map<nat, ChatState>, g: nat)
    requires g in chats
    ensures ChatWork(chats) == Left(chats[g]) + 9 + ChatWork(chats - {g})
    decreases |chats|
  {
    var h := Pick(chats);
    if h != g {
      assert |chats - {h}| < |chats| && |chats - {g}| < |chats|;
      ChatWorkAt(chats - {h}, g);
      ChatWorkAt(chats - {g}, h);
      assert chats - {h} - {g} == chats - {g} - {h};
    }
  }

  ghost function Load(s: State): nat { Remaining(s) + ChatWork(s.chats) }

  lemma ServeLoad(c: Config, s: State, tag: nat, e: ChatEnv)
    requires tag in s.chats && Open(s.chats[tag])
    ensures Load(ServeStep(c, s, tag, e)) < Load(s)
  {
    var t := ServeStep(c, s, tag, e);
    ChatWorkAt(s.chats, tag);
    if tag in t.chats {
      ChatWorkAt(t.chats, tag);
      assert t.chats - {tag} == s.chats - {tag};
    } else {
      assert t.chats == s.chats - {tag};
    }
  }

  /** A step of a request or a worker. */
  predicate Busy(l: Label) { l.Work? || l.Serve? }

  lemma StepLoad(c: Config, s: State, l: Label, t: State)
    requires Step(c, s, l, t) && s.phase.Serving? && Winding(l)
    ensures t.phase.Serving? && Load(t) + One(Busy(l)) <= Load(s)
  {
    match l
    case Work(w, e) => TotalStepsUpdate(s.workers, w, t.workers[w]);
    case Serve(tag, e) => ServeLoad(c, s, tag, e);
    case _ =>
  }

  function BusySteps(ls: seq<Label>): nat {
    if ls == [] then 0 else One(Busy(ls[0])) + BusySteps(ls[1..])
  }

  lemma {:induction false} RunLoad(c: Config, s: State, ls: seq<Label>, t: State)
    requires Proper(c) && Shaped(c, s) && s.phase.Serving? && WindingRun(c, s, ls, t)
    ensures Shaped(c, t) && t.phase.Serving? && BusySteps(ls) + Load(t) <= Load(s)
    decreases |ls|
  {
    if ls != [] {
      var next := Apply(c, s, ls[0]);
      StepLoad(c, s, ls[0], next);
      StepShaped(c, s, ls[0], next);
      RunLoad(c, next, ls[1..], t);
    }
  }

  ghost predicate AtRest(s: State) { Quiescent(s) && s.chats == map[] }

  // ---------- the sweeper finishes what is left ----------

  /** The sweeper's list names distinct unfinished rows, as every list does that was read at rest. */
  ghost predicate Fresh(s: State) {
    Distinct(s.sweep) && forall id :: id in s.sweep ==> id in UnfinishedIds(s.sh.rows)
  }

  /** Sweeps that may still be needed, an old list counted in full. */
  ghost function Slack(s: State): nat { |UnfinishedIds(s.sh.rows)| + if Fresh(s) then 0 else |s.sweep| }

  lemma SweepSlack(c: Config, s: State, now: int, t: State)
    requires Step(c, s, Sweep(true, now), t)
    ensures Slack(t) < Slack(s)
  {
    var id := s.sweep[0];
    FinalizeShrinks(s.sh.rows, id, StalePatch(now), now);
    assert s.sweep == [id] + s.sweep[1..];
    if Fresh(s) {
      assert id in s.sweep;
      assert forall x :: x in t.sweep ==> x in s.sweep && x != id;
      assert Fresh(t);
    } else {
      SubsetSize(UnfinishedIds(t.sh.rows), UnfinishedIds(s.sh.rows));
    }
  }

  lemma RestSlack(c: Config, s: State, l: Label, t: State)
    requires AtRest(s) && Step(c, s, l, t) && Winding(l)
    ensures AtRest(t) && Slack(t) + One(l.Sweep? && l.ok) <= Slack(s)
    ensures UnfinishedIds(t.sh.rows) <= UnfinishedIds(s.sh.rows)
    ensures !(l.Sweep? && l.ok) ==> t.sh.rows == s.sh.rows
  {
    match l
    case Scan(cutoff, ids) =>
      forall id | id in ids ensures id in UnfinishedIds(s.sh.rows) {
        assert id in Elements(ids);
        assert id in StaleIds(s.sh.rows, cutoff);
      }
      assert Fresh(t);
    case Sweep(ok, now) =>
      if ok {
        SweepSlack(c, s, now, t);
        FinalizeShrinks(s.sh.rows, s.sweep[0], StalePatch(now), now);
      } else {
        assert Fresh(t);
      }
    case _ =>
  }

  function AnsweredSweeps(ls: seq<Label>): nat {
    if ls == [] then 0 else One(ls[0].Sweep? && ls[0].ok) + AnsweredSweeps(ls[1..])
  }

  lemma {:induction false} RunSlack(c: Config, s: State, ls: seq<Label>, t: State)
    requires AtRest(s) && WindingRun(c, s, ls, t)
    ensures AtRest(t) && AnsweredSweeps(ls) + Slack(t) <= Slack(s)
    decreases |ls|
  {
    if ls != [] {
      RestSlack(c, s, ls[0], Apply(c, s, ls[0]));
      RunSlack(c, Apply(c, s, ls[0]), ls[1..], t);
    }
  }

  // ---------- one tick of the sweeper, step by step ----------

  /**
   * Undisturbed, the steps of a tick leave the table that `run_once` leaves: after n answered writes the first n
   * rows of the list are finalized; a write that fails ends the tick there.
   */
  lemma {:induction false} TickIsRunOnce(c: Config, s: State, now: int, n: nat)
    requires !s.phase.Down? && n <= |s.sweep|
    ensures var t := s.(sh := s.sh.(rows := Swept(s.sh.rows, s.sweep[..n], now)), sweep := s.sweep[n..]);
      && Run(c, s, seq(n, _ => Sweep(true, now)), t)
      && (n < |s.sweep| ==> Step(c, t, Sweep(false, now), t.(sweep := [])))
    decreases n
  {
    if n > 0 {
      var next := Apply(c, s, Sweep(true, now));
      TickIsRunOnce(c, next, now, n - 1);
      assert seq(n, _ => Sweep(true, now))[1..] == seq(n - 1, _ => Sweep(true, now));
      assert s.sweep[..n][1..] == next.sweep[..n - 1] && s.sweep[n..] == next.sweep[n - 1..];
    }
  }

  // ---------- every fair execution ends with a clean table ----------

  /** Steps of a running process without new requests and crashes, forever. */
  ghost predicate WindingForever(c: Config, at: nat -> State, move: nat -> Label) {
    Endless(c, at, move) && forall n: nat {:trigger move(n)} :: Winding(move(n))
  }

  ghost predicate Clean(s: State) { AtRest(s) && UnfinishedIds(s.sh.rows) == {} }

  predicate Answered(l: Label) { l.Sweep? && l.ok }

  ghost predicate BusyLater(move: nat -> Label, n: nat) { exists m: nat :: n <= m && Busy(move(m)) }

  ghost predicate AnsweredLater(move: nat -> Label, n: nat) { exists m: nat :: n <= m && Answered(move(m)) }

  /**
   * Nobody is held up forever: requests and workers step again as long as they have work, and at rest an
   * answered sweep comes again as long as there are unfinished rows.
   */
  ghost predicate Fair(at: nat -> State, move: nat -> Label) {
    && (forall n: nat {:trigger BusyLater(move, n)} :: !AtRest(at(n)) ==> BusyLater(move, n))
    && (forall n: nat {:trigger AnsweredLater(move, n)} ::
          AtRest(at(n)) && !Clean(at(n)) ==> AnsweredLater(move, n))
  }

  lemma {:induction false} LoadOn(c: Config, at: nat -> State, move: nat -> Label, n: nat, m: nat)
    requires Proper(c) && WindingForever(c, at, move) && Shaped(c, at(n)) && at(n).phase.Serving? && n <= m
    ensures Shaped(c, at(m)) && at(m).phase.Serving? && Load(at(m)) <= Load(at(n))
    decreases m - n
  {
    if n < m {
      var l := move(n);
      StepLoad(c, at(n), l, at(n + 1));
      StepShaped(c, at(n), l, at(n + 1));
      LoadOn(c, at, move, n + 1, m);
    }
  }

  lemma {:induction false} SlackOn(c: Config, at: nat -> State, move: nat -> Label, n: nat, m: nat)
    requires WindingForever(c, at, move) && AtRest(at(n)) && n <= m
    ensures AtRest(at(m)) && Slack(at(m)) <= Slack(at(n)) && (Clean(at(n)) ==> Clean(at(m)))
    decreases m - n
  {
    if n < m {
      var l := move(n);
      RestSlack(c, at(n), l, at(n + 1));
      SlackOn(c, at, move, n + 1, m);
    }
  }

  /** Up to the next busy step, that step included, the load has fallen. */
  lemma BusyShrinks(c: Config, at: nat -> State, move: nat -> Label, n: nat, m: nat)
    requires Proper(c) && WindingForever(c, at, move) && Shaped(c, at(n)) && at(n).phase.Serving? && n <= m
    requires Busy(move(m))
    ensures Shaped(c, at(m + 1)) && at(m + 1).phase.Serving? && Load(at(m + 1)) < Load(at(n))
  {
    var l := move(m);
    LoadOn(c, at, move, n, m);
    StepLoad(c, at(m), l, at(m + 1));
    StepShaped(c, at(m), l, at(m + 1));
  }

  lemma {:induction false} ComesToRest(c: Config, at: nat -> State, move: nat -> Label, n: nat) returns (k: nat)
    requires Proper(c) && WindingForever(c, at, move) && Fair(at, move) && Shaped(c, at(n)) && at(n).phase.Serving?
    ensures AtRest(at(k))
    decreases Load(at(n))
  {
    if AtRest(at(n)) {
      k := n;
    } else {
      assert BusyLater(move, n);
      var m: nat :| n <= m && Busy(move(m));
      BusyShrinks(c, at, move, n, m);
      k := ComesToRest(c, at, move, m + 1);
    }
  }

  lemma {:induction false} ComesClean(c: Config, at: nat -> State, move: nat -> Label, n: nat) returns (k: nat)
    requires WindingForever(c, at, move) && Fair(at, move) && AtRest(at(n))
    ensures Clean(at(k))
    decreases Slack(at(n))
  {
    if Clean(at(n)) {
      k := n;
    } else {
      assert AnsweredLater(move, n);
      var m: nat :| n <= m && Answered(move(m));
      SlackOn(c, at, move, n, m);
      RestSlack(c, at(m), move(m), at(m + 1));
      k := ComesClean(c, at, move, m + 1);
    }
  }

  /**
   * Convergence of the whole process. Every fair execution without new requests and crashes, from any
   * reachable serving state, comes to rest with no row pending or in progress, and stays so.
   */
  lemma SweeperFinishes(c: Config, at: nat -> State, move: nat -> Label) returns (k: nat)
    requires Proper(c) && Reachable(c, at(0)) && at(0).phase.Serving? && WindingForever(c, at, move) && Fair(at, move)
    ensures forall m: nat :: k <= m ==> Clean(at(m))
  {
    ReachableAccounted(c, at(0));
    var rest := ComesToRest(c, at, move, 0);
    k := ComesClean(c, at, move, rest);
    forall m: nat | k <= m ensures Clean(at(m)) { SlackOn(c, at, move, k, m); }
  }

  // ---------- such runs exist ----------

  lemma StepFirst(c: Config, s: State, l: Label, next: State, ls: seq<Label>, t: State)
    requires Step(c, s, l, next) && Winding(l) && WindingRun(c, next, ls, t)
    ensures WindingRun(c, s, [l] + ls, t)
  {
    assert ([l] + ls)[1..] == ls;
  }

  /** Rest is always within reach. */
  lemma {:induction false} RestExists(c: Config, s: State) returns (ls: seq<Label>, t: State)
    requires Proper(c) && Shaped(c, s) && s.phase.Serving?
    ensures WindingRun(c, s, ls, t) && AtRest(t) && t.phase.Serving?
    ensures forall i :: 0 <= i < |ls| ==> Busy(ls[i])
    decreases Load(s)
  {
    if AtRest(s) {
      ls, t := [], s;
    } else {
      var l;
      if s.chats != map[] {
        l := Serve(Pick(s.chats), Scenes.Answers("", true));
      } else {
        var w := SomeWorkerMoves(c, s);
        l := Work(w, Scenes.Works("", true, true));
      }
      var next := Apply(c, s, l);
      StepLoad(c, s, l, next);
      StepShaped(c, s, l, next);
      ls, t := RestExists(c, next);
      StepFirst(c, s, l, next, ls, t);
      ls := [l] + ls;
    }
  }

  lemma {:induction false} Latest(t: Table, ids: set<Id>) returns (cutoff: int)
    ensures forall id :: id in ids ==> Received(t, id) < cutoff
    decreases ids
  {
    cutoff := 0;
    if ids != {} {
      var id :| id in ids;
      cutoff := Latest(t, ids - {id});
      assert ids == (ids - {id}) + {id};
      if cutoff <= Received(t, id) { cutoff := Received(t, id) + 1; }
    }
  }

  lemma StaleListExists(t: Table) returns (cutoff: int, ids: seq<Id>)
    requires UnfinishedIds(t) != {}
    ensures IsStaleList(t, cutoff, SWEEP_LIMIT, ids) && ids != []
  {
    cutoff := Latest(t, UnfinishedIds(t));
    assert StaleIds(t, cutoff) == UnfinishedIds(t);
    var todo := StaleIds(t, cutoff);
    ids := [];
    while todo != {} && |ids| < SWEEP_LIMIT
      invariant |ids| <= SWEEP_LIMIT && Picking(StaleIds(t, cutoff), ids, todo)
      decreases todo
    {
      var id :| id in todo;
      PickOne(StaleIds(t, cutoff), ids, todo, id);
      ids, todo := ids + [id], todo - {id};
    }
  }

  /** From rest the sweeper can always finish every row, and its list. */
  lemma {:induction false} SweepsExist(c: Config, s: State) returns (ls: seq<Label>, t: State)
    requires AtRest(s) && s.phase.Serving?
    ensures WindingRun(c, s, ls, t) && Clean(t) && t.sweep == [] && t.phase.Serving?
    decreases Slack(s), s.sweep == []
  {
    if Clean(s) && s.sweep == [] {
      ls, t := [], s;
    } else {
      var l := Sweep(!Clean(s), 0);
      if s.sweep != [] {
        assert Clean(s) ==> s.sweep[0] in s.sweep && !Fresh(s);
      } else {
        var cutoff, ids := StaleListExists(s.sh.rows);
        l := Scan(cutoff, ids);
      }
      var next := Apply(c, s, l);
      RestSlack(c, s, l, next);
      ls, t := SweepsExist(c, next);
      StepFirst(c, s, l, next, ls, t);
      ls := [l] + ls;
    }
  }

  lemma JoinRuns(c: Config, s: State, ls: seq<Label>, t: State, more: seq<Label>, u: State)
    requires WindingRun(c, s, ls, t) && WindingRun(c, t, more, u)
    ensures WindingRun(c, s, ls + more, u)
  {
    RunAppend(c, s, ls, t, more, u);
  }

  /** Between a state at rest with unfinished rows and a clean one, a sweep has been answered. */
  lemma {:induction false} SweepComes(c: Config, at: nat -> State, move: nat -> Label, n: nat, end: nat)
    requires WindingForever(c, at, move) && AtRest(at(n)) && !Clean(at(n)) && Clean(at(end)) && n <= end
    ensures AnsweredLater(move, n)
    decreases end - n
  {
    if !Answered(move(n)) {
      RestSlack(c, at(n), move(n), at(n + 1));
      SweepComes(c, at, move, n + 1, end);
    }
  }

  lemma FairAtLast(c: Config, at: nat -> State, move: nat -> Label, rest: nat, end: nat)
    requires WindingForever(c, at, move) && AtRest(at(rest)) && forall n: nat :: n >= end ==> Clean(at(n))
    requires forall n: nat :: n < rest ==> Busy(move(n))
    ensures Fair(at, move)
  {
    forall n: nat ensures if n < rest then !AtRest(at(n)) else AtRest(at(n)) {
      if n < rest { assert Step(c, at(n), move(n), at(n + 1)); } else { SlackOn(c, at, move, rest, n); }
    }
    forall n: nat | !AtRest(at(n)) ensures BusyLater(move, n) { assert Busy(move(n)); }
    forall n: nat | AtRest(at(n)) && !Clean(at(n)) ensures AnsweredLater(move, n) {
      SweepComes(c, at, move, n, end);
    }
  }

  /** There is a fair execution from every reachable serving state. */
  lemma FinishExists(c: Config, s: State) returns (at: nat -> State, move: nat -> Label)
    requires Proper(c) && Reachable(c, s) && s.phase.Serving?
    ensures at(0) == s && WindingForever(c, at, move) && Fair(at, move)
  {
    ReachableAccounted(c, s);
    var first, rest := RestExists(c, s);
    var more, t := SweepsExist(c, rest);
    JoinRuns(c, s, first, rest, more, t);
    Fairness.IdleScan(c, t);
    at, move := Onwards(c, s, first + more, t, Scan(0, []));
    AfterFirst(c, s, first, rest, more);
    FairAtLast(c, at, move, |first|, |first + more|);
  }
}
