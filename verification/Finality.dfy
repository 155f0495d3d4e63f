/**
 * When a finished row is final. Updates filter on nothing but the id, so a finished row may change again; here
 * is exactly when no run can change it.
 */
module Finality {
  import opened Prelude
  import opened Llm
  import opened Rows
  import opened Dispatcher
  import opened Pipeline
  import opened Chat
  import opened Sweeper
  import opened Protocol
  import opened Accounting
  import Coherence
  import opened Recovery
  import Fairness
  import Scenes
  import Witnesses

  // ---------- nobody will look at the row again ----------

  /** No id can be brought to a second job: each is `Sole` in every reachable state. */
  predicate Guarded(c: Config) { c.freshIds || c.setup.failClosed }

  /** Finished, and on no way back to a worker. */
  ghost predicate Released(c: Config, s: State, id: Id) {
    && id in s.sh.rows && !Unfinished(s.sh.rows[id])
    && id !in s.queue && !WorkerHolds(s, id)
    && (forall g :: g in s.chats && s.chats[g].r.id == id && s.chats[g].AtGate? ==> s.chats[g].out.status != Succeeded)
    && (s.phase.Requeueing? ==> id !in Survivors(c.policy, c.capacity, s.phase.ids))
  }

  lemma ListsAvoid(t: Table, id: Id, ids: seq<Id>)
    requires id in t && !Unfinished(t[id])
    ensures forall cutoff, n :: IsStaleList(t, cutoff, n, ids) ==> id !in ids
    ensures forall n :: IsUnfinishedList(t, n, ids) ==> id !in ids
  {
    assert id in ids ==> id in Elements(ids);
  }

  lemma ServeReleased(c: Config, s: State, tag: nat, e: ChatEnv, id: Id)
    requires Sole(c, s, id) && OneJob(c, s, id) && Released(c, s, id) && tag in s.chats && Open(s.chats[tag])
    requires s.phase.Serving?
    ensures Released(c, ServeStep(c, s, tag, e), id)
  {
    var t := ServeStep(c, s, tag, e);
    SameWorkers(s, t);
    assert forall g :: g in t.chats && g != tag ==> g in s.chats && t.chats[g] == s.chats[g];
  }

  lemma WorkReleased(c: Config, s: State, w: nat, e: Env, id: Id)
    requires Released(c, s, id) && w < |s.workers| && !s.workers[w].Idle? && !s.phase.Requeueing?
    ensures var t := WorkStep(c, s, w, e); Released(c, t, id) && t.sh.rows[id] == s.sh.rows[id]
  {
    var t, here := WorkStep(c, s, w, e), s.workers[w];
    MoveReleases(c.setup, s.sh, here, e);
    assert Holding(here) != Some(id);
    forall v | 0 <= v < |t.workers| ensures Holding(t.workers[v]) != Some(id) {
      assert v != w ==> t.workers[v] == s.workers[v];
    }
  }

  lemma TakeReleased(c: Config, s: State, w: nat, id: Id)
    requires Released(c, s, id) && w < |s.workers| && s.workers[w].Idle? && s.queue != [] && !s.phase.Requeueing?
    ensures Released(c, TakeStep(s, w), id)
  {
    var t := TakeStep(s, w);
    forall v | 0 <= v < |t.workers| ensures Holding(t.workers[v]) != Some(id) {
      assert v != w ==> t.workers[v] == s.workers[v];
    }
  }

  /** A released row stays released, and only the sweeper can still write to it. */
  lemma StepReleased(c: Config, s: State, l: Label, t: State, id: Id)
    requires Proper(c) && Accounted(c, s) && Sole(c, s, id) && Released(c, s, id) && Step(c, s, l, t)
    ensures Released(c, t, id)
    ensures t.sh.rows[id] != s.sh.rows[id] ==> l.Sweep? && l.ok && s.sweep[0] == id
  {
    match l
    case Arrive(_, _) => SameWorkers(s, t);
    case Serve(tag, e) => ServeReleased(c, s, tag, e, id);
    case Work(w, e) => if s.workers[w].Idle? { TakeReleased(c, s, w, id); } else { WorkReleased(c, s, w, e, id); }
    case Scan(_, _) => SameHands(s, t);
    case Sweep(_, _) => SameHands(s, t);
    case Crash =>
    case Boot => SameHands(s, t);
    case Query(ids) =>
      SameHands(s, t);
      ListsAvoid(s.sh.rows, id, ids);
    case Requeue =>
      SameWorkers(s, t);
      BurstFits(c, s.phase.ids);
  }

  /**
   * The exact condition under which a finished row is final: it is released, not on an old list of the sweeper,
   * and clients do not repeat ids, or `fail_closed` turns repeated ids away.
   */
  ghost predicate Settled(c: Config, s: State, id: Id) {
    Released(c, s, id) && id !in s.sweep && Guarded(c)
  }

  lemma StepSettled(c: Config, s: State, l: Label, t: State, id: Id)
    requires Proper(c) && Accounted(c, s) && Settled(c, s, id) && Step(c, s, l, t)
    ensures Settled(c, t, id) && t.sh.rows[id] == s.sh.rows[id]
  {
    StepReleased(c, s, l, t, id);
    if l.Scan? { ListsAvoid(s.sh.rows, id, l.stale); }
    if l.Sweep? { assert s.sweep[0] in s.sweep; }
  }

  /** A settled row never changes again, through any number of sweeps, crashes and restarts. */
  lemma {:induction false} SettledForever(c: Config, s: State, id: Id, ls: seq<Label>, t: State)
    requires Proper(c) && Settled(c, s, id) && Reachable(c, s) && Run(c, s, ls, t)
    ensures id in t.sh.rows && t.sh.rows[id] == s.sh.rows[id]
    ensures Settled(c, t, id)
    decreases |ls|
  {
    if ls != [] {
      var next := Apply(c, s, ls[0]);
      ReachableAccounted(c, s);
      StepSettled(c, s, ls[0], next, id);
      ReachableStep(c, s, ls[0], next);
      SettledForever(c, next, id, ls[1..], t);
    }
  }

  // ---------- every other finished row can be made to change ----------

  /** No run from here changes the row. */
  ghost predicate Final(c: Config, s: State, id: Id)
    requires id in s.sh.rows
  {
    forall ls, t :: Run(c, s, ls, t) ==> id in t.sh.rows && t.sh.rows[id] == s.sh.rows[id]
  }

  /** A run may be put in front of one that changes the row. */
  lemma ChangesAfter(c: Config, s: State, ls: seq<Label>, t: State, id: Id)
    requires id in s.sh.rows && Run(c, s, ls, t)
    requires id in t.sh.rows && (t.sh.rows[id] == s.sh.rows[id] ==> !Final(c, t, id))
    ensures !Final(c, s, id)
  {
    if t.sh.rows[id] == s.sh.rows[id] {
      var more, u :| Run(c, t, more, u) && !(id in u.sh.rows && u.sh.rows[id] == t.sh.rows[id]);
      RunAppend(c, s, ls, t, more, u);
    }
  }

  lemma ChangesNext(c: Config, s: State, l: Label, t: State, id: Id)
    requires id in s.sh.rows && Step(c, s, l, t)
    requires id in t.sh.rows && (t.sh.rows[id] == s.sh.rows[id] ==> !Final(c, t, id))
    ensures !Final(c, s, id)
  {
    assert Run(c, t, [], t);
    assert Run(c, s, [l], t);
    ChangesAfter(c, s, [l], t, id);
  }

  /** A time at which a row has not been evaluated. */
  function Later(r: Row): int {
    if r.evaluatedAt == Some(0) then 1 else 0
  }

  /** The sweeper works its list down to the row. */
  lemma {:induction false} SweepChanges(c: Config, s: State, id: Id)
    requires id in s.sh.rows && id in s.sweep && !s.phase.Down?
    ensures !Final(c, s, id)
    decreases |s.sweep|
  {
    var l := Sweep(true, Later(s.sh.rows[id]));
    var t := Apply(c, s, l);
    if t.sh.rows[id] == s.sh.rows[id] { SweepChanges(c, t, id); }
    ChangesNext(c, s, l, t, id);
  }

  /** Everything is answered, and the candidate model times out. */
  function TimesOut(now: int): Env {
    Env(true, true, true, PostTimeout, true, true, true, Scenes.TODAY, now, 0)
  }

  /** A handler that comes to its end has written to its row. */
  lemma TouchesBeforeEnd(c: Setup, sh: Shared, w: Worker, now: int, id: Id)
    requires !w.Idle? && id in sh.rows && sh.rows[id].evaluatedAt != Some(now)
    ensures !Raises(c, w, TimesOut(now))
    ensures var r := Move(c, sh, w, TimesOut(now));
      && id in r.0.rows
      && (Holding(w) == Some(id) && r.0.rows[id] == sh.rows[id] ==> Holding(r.1) == Some(id))
  {
  }

  /** Workers work the queue down to the row. */
  lemma {:induction false} BusyChanges(c: Config, s: State, id: Id)
    requires Proper(c) && Shaped(c, s) && s.phase.Serving? && id in s.sh.rows && (id in s.queue || WorkerHolds(s, id))
    ensures !Final(c, s, id)
    decreases Remaining(s)
  {
    var now := Later(s.sh.rows[id]);
    var w := SomeWorkerMoves(c, s);
    var l := Work(w, TimesOut(now));
    assert Enabled(c, s, l);
    var t := Apply(c, s, l);
    StepShaped(c, s, l, t);
    if s.workers[w].Idle? {
      assert Live(s, id);
      TakeHeld(s, w, id);
    } else {
      TouchesBeforeEnd(c.setup, s.sh, s.workers[w], now, id);
      if t.sh.rows[id] == s.sh.rows[id] { StillHeld(s, t, w, id); }
    }
    CalmStepRemaining(c, s, l, t);
    if t.sh.rows[id] == s.sh.rows[id] { BusyChanges(c, t, id); }
    ChangesNext(c, s, l, t, id);
  }

  lemma TakeHeld(s: State, w: nat, id: Id)
    requires w < |s.workers| && s.workers[w].Idle? && s.queue != [] && (id in s.queue || WorkerHolds(s, id))
    ensures var t := TakeStep(s, w); id in t.queue || WorkerHolds(t, id)
  {
    var t := TakeStep(s, w);
    assert Holding(t.workers[w]) == Some(s.queue[0]);
    if WorkerHolds(s, id) {
      var v :| 0 <= v < |s.workers| && Holding(s.workers[v]) == Some(id);
      assert Holding(t.workers[v]) == Some(id);
    }
  }

  lemma StillHeld(s: State, t: State, w: nat, id: Id)
    requires w < |s.workers| == |t.workers| && t.workers == s.workers[w := t.workers[w]] && t.queue == s.queue
    requires id in s.queue || WorkerHolds(s, id)
    requires Holding(s.workers[w]) == Some(id) ==> Holding(t.workers[w]) == Some(id)
    ensures id in t.queue || WorkerHolds(t, id)
  {
    if WorkerHolds(s, id) {
      var v :| 0 <= v < |s.workers| && Holding(s.workers[v]) == Some(id);
      assert Holding(t.workers[v]) == Some(id);
    }
  }

  /** The queue is emptied first, so that a full queue cannot turn the job away. */
  lemma GateChanges(c: Config, s: State, tag: nat, id: Id)
    requires Proper(c) && Shaped(c, s) && s.phase.Serving? && id in s.sh.rows
    requires tag in s.chats && s.chats[tag].AtGate? && s.chats[tag].r.id == id && s.chats[tag].out.status == Succeeded
    ensures !Final(c, s, id)
  {
    var ls, t := DrainCompletes(c, s);
    Fairness.CalmIsRun(c, s, ls, t);
    Coherence.RunGrows(c, s, ls, t);
    var l := Serve(tag, Scenes.Answers("", true));
    var u := Apply(c, t, l);
    assert u.queue == [id];
    StepShaped(c, t, l, u);
    BusyChanges(c, u, id);
    ChangesNext(c, t, l, u, id);
    ChangesAfter(c, s, ls, t, id);
  }

  /** A startup list that holds the row. */
  lemma RequeueChanges(c: Config, s: State, id: Id)
    requires Proper(c) && Shaped(c, s) && id in s.sh.rows
    requires s.phase.Requeueing? && id in Survivors(c.policy, c.capacity, s.phase.ids)
    ensures !Final(c, s, id)
  {
    var t := Apply(c, s, Requeue);
    BurstFits(c, s.phase.ids);
    StepShaped(c, s, Requeue, t);
    BusyChanges(c, t, id);
    ChangesNext(c, s, Requeue, t, id);
  }

  // ---------- where ids may be repeated ----------

  lemma {:induction false} Unused(used: set<nat>) returns (n: nat)
    ensures forall m :: m in used ==> m < n
    decreases used
  {
    n := 0;
    if used != {} {
      var m :| m in used;
      n := Unused(used - {m});
      assert used == (used - {m}) + {m};
      if n <= m { n := m + 1; }
    }
  }

  lemma InsertChanges(c: Config, s: State, tag: nat, id: Id)
    requires Proper(c) && Shaped(c, s) && !c.setup.failClosed && s.phase.Serving? && id in s.sh.rows
    requires tag in s.chats && s.chats[tag].AtInsert? && s.chats[tag].r.id == id
    requires s.chats[tag].out.status == Succeeded
    ensures !Final(c, s, id)
  {
    var l := Serve(tag, Scenes.Answers("", false));
    var t := Apply(c, s, l);
    StepShaped(c, s, l, t);
    GateChanges(c, t, tag, id);
    ChangesNext(c, s, l, t, id);
  }

  lemma ArchiveChanges(c: Config, s: State, tag: nat, id: Id)
    requires Proper(c) && Shaped(c, s) && !c.setup.failClosed && s.phase.Serving? && id in s.sh.rows
    requires tag in s.chats && s.chats[tag].AtArchive? && s.chats[tag].r.id == id
    requires s.chats[tag].out.status == Succeeded
    ensures !Final(c, s, id)
  {
    var l := Serve(tag, Scenes.Answers("", false));
    var t := Apply(c, s, l);
    StepShaped(c, s, l, t);
    InsertChanges(c, t, tag, id);
    ChangesNext(c, s, l, t, id);
  }

  /** A repeated id goes through the failing insert of `fail_open` and reaches the gate. */
  lemma RepeatChanges(c: Config, s: State, id: Id)
    requires Proper(c) && Shaped(c, s) && !Guarded(c) && s.phase.Serving? && id in s.sh.rows
    requires c.slashFree ==> '/' !in id
    ensures !Final(c, s, id)
  {
    var tag := Unused(s.chats.Keys + s.history.answered.Keys + s.history.stored.Keys + s.history.arrivals.Keys);
    assert tag !in s.chats && tag !in s.history.answered;
    assert tag !in s.history.stored && tag !in s.history.arrivals;
    Scenes.SayIsRead(c.setup.intLike, "");
    var arrive, answer := Arrive(tag, Scenes.Ask(id)), Serve(tag, Scenes.Answers("", true));
    var s1 := Apply(c, s, arrive);
    StepShaped(c, s, arrive, s1);
    var s2 := Apply(c, s1, answer);
    StepShaped(c, s1, answer, s2);
    assert s2.chats[tag] == AtArchive(Scenes.Ask(id), Scenes.Out(""));
    ArchiveChanges(c, s2, tag, id);
    ChangesNext(c, s1, answer, s2, id);
    ChangesNext(c, s, arrive, s1, id);
  }

  /** Wherever the process is, it can come up and meet a repeated id. */
  lemma UnguardedChanges(c: Config, s: State, id: Id)
    requires Proper(c) && Shaped(c, s) && !Guarded(c) && id in s.sh.rows
    requires c.slashFree ==> '/' !in id
    ensures !Final(c, s, id)
    decreases match s.phase case Down => 3 case Starting => 2 case Requeueing(_) => 1 case Serving => 0
  {
    if s.phase.Serving? {
      RepeatChanges(c, s, id);
    } else {
      var l := Boot;
      if s.phase.Starting? {
        var ids := UnfinishedListExists(s.sh.rows, REQUEUE_LIMIT);
        l := Query(ids);
      } else if s.phase.Requeueing? {
        l := Requeue;
      }
      var t := Apply(c, s, l);
      StepShaped(c, s, l, t);
      UnguardedChanges(c, t, id);
      ChangesNext(c, s, l, t, id);
    }
  }

  /** A finished row that is not settled can still change. */
  lemma UnsettledChanges(c: Config, s: State, id: Id)
    requires Proper(c) && Accounted(c, s) && id in s.sh.rows && !Unfinished(s.sh.rows[id])
    requires !Settled(c, s, id)
    ensures !Final(c, s, id)
  {
    if !Guarded(c) {
      UnguardedChanges(c, s, id);
    } else if id in s.sweep {
      SweepChanges(c, s, id);
    } else if id in s.queue || WorkerHolds(s, id) {
      BusyChanges(c, s, id);
    } else if s.phase.Requeueing? && id in Survivors(c.policy, c.capacity, s.phase.ids) {
      RequeueChanges(c, s, id);
    } else {
      var g :| g in s.chats && s.chats[g].r.id == id && s.chats[g].AtGate? && s.chats[g].out.status == Succeeded;
      GateChanges(c, s, g, id);
    }
  }

  /** A finished row is final exactly if it is settled: no other finished row is safe from every run. */
  lemma FinalIff(c: Config, s: State, id: Id)
    requires Proper(c) && Reachable(c, s) && id in s.sh.rows && !Unfinished(s.sh.rows[id])
    ensures Final(c, s, id) <==> Settled(c, s, id)
  {
    ReachableAccounted(c, s);
    if Settled(c, s, id) {
      forall ls, t | Run(c, s, ls, t) ensures id in t.sh.rows && t.sh.rows[id] == s.sh.rows[id] {
        SettledForever(c, s, id, ls, t);
      }
    } else {
      UnsettledChanges(c, s, id);
    }
  }

  // ---------- one pair of hands ----------

  lemma GuardedIsSole(c: Config, s: State, id: Id)
    requires Proper(c) && Reachable(c, s) && Guarded(c)
    ensures Sole(c, s, id)
  {
    ReachableAccounted(c, s);
  }

  ghost predicate AlwaysOneHand(c: Config) {
    forall s, id ::
      Reachable(c, s) && id in s.sh.rows && Unfinished(s.sh.rows[id]) && id !in s.history.lost ==> Hands(s, id) == 1
  }

  /** Unfinished rows that are not lost are in one pair of hands in every run exactly if repeats are guarded against. */
  lemma OneHandIff(c: Config)
    requires Proper(c)
    ensures AlwaysOneHand(c) <==> Guarded(c)
  {
    if Guarded(c) {
      forall s, id | Reachable(c, s) && id in s.sh.rows && Unfinished(s.sh.rows[id]) && id !in s.history.lost
        ensures Hands(s, id) == 1
      {
        GuardedIsSole(c, s, id);
        HeldByExactlyOne(c, s, id);
      }
    } else {
      var s := Witnesses.TwoHands(c);
    }
  }
}
