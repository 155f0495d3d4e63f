/** Who works on an unfinished row, why one may be forgotten, and when a finished one is final. */
module Accounting {
  import opened Prelude
  import Evaluator
  import opened Rows
  import opened Dispatcher
  import opened Pipeline
  import opened Chat
  import opened Protocol

  // ---------- shape ----------

  ghost predicate Shaped(c: Config, s: State) {
    && |s.workers| == c.workers && |s.queue| <= c.capacity
    && (forall tag :: tag in s.chats ==> Open(s.chats[tag]))
    && (!s.phase.Serving? ==>
          s.chats == map[] && s.queue == [] && forall w :: 0 <= w < |s.workers| ==> s.workers[w].Idle?)
    && (s.phase.Down? ==> s.sweep == [])
  }

  lemma BurstFits(c: Config, ids: seq<Id>)
    requires Proper(c)
    ensures OfferAll(c.policy, c.capacity, [], ids) == Survivors(c.policy, c.capacity, ids)
    ensures |Survivors(c.policy, c.capacity, ids)| <= c.capacity
  {
    OfferAllKeepsOneEnd(c.policy, c.capacity, [], ids);
    assert [] + ids == ids;
  }

  lemma StepShaped(c: Config, s: State, l: Label, t: State)
    requires Proper(c) && Shaped(c, s) && Step(c, s, l, t)
    ensures Shaped(c, t)
  {
    if l.Requeue? { BurstFits(c, s.phase.ids); }
  }

  // ---------- no unfinished row is unaccounted for ----------

  ghost predicate Covered(s: State) {
    forall id :: id in s.sh.rows && Unfinished(s.sh.rows[id]) ==> Live(s, id) || id in s.history.lost
  }

  /** A handler that lets go of its job without raising leaves the row finished, and touches no other row. */
  lemma MoveReleases(c: Setup, sh: Shared, w: Worker, e: Env)
    requires !w.Idle?
    ensures var r := Move(c, sh, w, e);
      && (forall id :: id in r.0.rows <==> id in sh.rows)
      && (forall id :: id in sh.rows && id != w.id ==> r.0.rows[id] == sh.rows[id])
      && (!r.1.Idle? ==> r.1.id == w.id)
      && (Holding(w).Some? && Holding(r.1).None? && !Raises(c, w, e) && w.id in r.0.rows ==>
            !Unfinished(r.0.rows[w.id]))
      && (Holding(w).None? ==> r.0.rows == sh.rows)
  {
  }

  lemma WorkCovered(c: Config, s: State, w: nat, e: Env)
    requires Covered(s) && w < |s.workers| && !s.workers[w].Idle?
    ensures Covered(WorkStep(c, s, w, e))
  {
    var t := WorkStep(c, s, w, e);
    MoveReleases(c.setup, s.sh, s.workers[w], e);
    forall id | id in t.sh.rows && Unfinished(t.sh.rows[id]) ensures Live(t, id) || id in t.history.lost {
      if id !in s.history.lost && id != s.workers[w].id {
        assert Unfinished(s.sh.rows[id]);
        KeepLive(s, t, w, id);
      } else if id !in t.history.lost && Holding(s.workers[w]).Some? {
        assert Holding(t.workers[w]) == Some(id);
      } else if id !in t.history.lost {
        assert Unfinished(s.sh.rows[id]);
        KeepLive(s, t, w, id);
      }
    }
  }

  /** Changing one worker's job keeps every other id live. */
  lemma KeepLive(s: State, t: State, w: nat, id: Id)
    requires w < |s.workers| == |t.workers| && t.workers == s.workers[w := t.workers[w]]
    requires t.queue == s.queue && t.chats == s.chats && t.phase == s.phase
    requires Live(s, id) && Holding(s.workers[w]) != Some(id)
    ensures Live(t, id)
  {
    if WorkerHolds(s, id) {
      var v :| 0 <= v < |s.workers| && Holding(s.workers[v]) == Some(id);
      assert Holding(t.workers[v]) == Some(id);
    }
  }

  lemma TakeLive(s: State, w: nat, id: Id)
    requires w < |s.workers| && s.workers[w].Idle? && s.queue != [] && Live(s, id)
    ensures Live(TakeStep(s, w), id)
  {
    var t := TakeStep(s, w);
    assert Holding(t.workers[w]) == Some(s.queue[0]);
    if WorkerHolds(s, id) {
      var v :| 0 <= v < |s.workers| && Holding(s.workers[v]) == Some(id);
      assert Holding(t.workers[v]) == Some(id);
    } else if id in s.queue {
      assert s.queue == [s.queue[0]] + s.queue[1..];
    }
  }

  lemma OfferKeeps(policy: Policy, capacity: nat, q: seq<Id>, id: Id, x: Id)
    requires x in q || (x == id && Answer(policy, capacity, q).Enqueued?)
    ensures x in Dispatcher.Offer(policy, capacity, q, id) || Evicted(policy, capacity, q) == Some(x)
  {
  }

  lemma OtherGatesStay(s: State, t: State, tag: nat, id: Id)
    requires forall g :: g in s.chats && g != tag ==> g in t.chats && t.chats[g] == s.chats[g]
    ensures AtSomeGate(s, id)
      ==> AtSomeGate(t, id) || (tag in s.chats && s.chats[tag].AtGate? && s.chats[tag].r.id == id)
  {
  }

  lemma ServeCovered(c: Config, s: State, tag: nat, e: ChatEnv)
    requires Covered(s) && tag in s.chats && Open(s.chats[tag])
    ensures Covered(ServeStep(c, s, tag, e))
  {
    var t := ServeStep(c, s, tag, e);
    var here := s.chats[tag];
    forall id | id in t.sh.rows && Unfinished(t.sh.rows[id]) && id !in t.history.lost ensures Live(t, id) {
      if id !in s.sh.rows {
        assert t.chats[tag].AtGate? && t.chats[tag].r.id == id;
      } else {
        assert Live(s, id) || id in s.history.lost;
        SameWorkers(s, t);
        OtherGatesStay(s, t, tag, id);
        if here.AtGate? && (id in s.queue || here.r.id == id) {
          if id in s.queue || Sent(LineOf(c, s), e.sampled) {
            OfferKeeps(c.policy, c.capacity, s.queue, here.r.id, id);
          }
        }
      }
    }
  }

  lemma StepCovered(c: Config, s: State, l: Label, t: State)
    requires Covered(s) && Shaped(c, s) && Step(c, s, l, t)
    ensures Covered(t)
  {
    match l
    case Serve(tag, e) => ServeCovered(c, s, tag, e);
    case Work(w, e) =>
      if s.workers[w].Idle? {
        forall id | Live(s, id) ensures Live(t, id) { TakeLive(s, w, id); }
      } else {
        WorkCovered(c, s, w, e);
      }
    case Arrive(tag, r) =>
      forall id | Live(s, id) ensures Live(t, id) {
        SameWorkers(s, t);
        OtherGatesStay(s, t, tag, id);
      }
    case Sweep(_, _) => SameHands(s, t);
    case Scan(_, _) => SameHands(s, t);
    case Boot => SameHands(s, t);
    case Query(ids) => SameHands(s, t);
    case Requeue =>
      forall id | id in t.sh.rows && Unfinished(t.sh.rows[id]) && id !in t.history.lost ensures Live(t, id) {
        assert Live(s, id) || id in s.history.lost;
        assert !WorkerHolds(s, id);
        assert id in s.queue || id in s.phase.ids;
        assert id in Elements(s.queue + s.phase.ids);
      }
    case Crash =>
  }

  lemma SameWorkers(s: State, t: State)
    requires s.workers == t.workers
    ensures forall id :: WorkerHolds(s, id) == WorkerHolds(t, id)
  {
  }

  lemma SameHands(s: State, t: State)
    requires s.queue == t.queue && s.workers == t.workers && s.chats == t.chats
    ensures forall id :: WorkerHolds(s, id) == WorkerHolds(t, id) && AtSomeGate(s, id) == AtSomeGate(t, id)
  {
  }

  // ---------- why a row is forgotten ----------

  /** The step is one of the five kinds that let go of an unfinished row, for the given reason. */
  ghost predicate LosesBy(c: Config, s: State, l: Label, id: Id, cause: Cause) {
    match cause
    case Crashed => l.Crash?
    case HandlerRaised =>
      l.Work? && l.w < |s.workers| && Holding(s.workers[l.w]) == Some(id) && Raises(c.setup, s.workers[l.w], l.env)
    case PrimaryFailed =>
      && l.Serve? && l.tag in s.chats && s.chats[l.tag].AtGate? && s.chats[l.tag].r.id == id
      && s.chats[l.tag].out.status != Succeeded
    case SampledOut =>
      && l.Serve? && l.tag in s.chats && s.chats[l.tag].AtGate? && s.chats[l.tag].r.id == id
      && s.chats[l.tag].out.status == Succeeded && !l.chatEnv.sampled
    case Overflow =>
      || (l.Requeue? && s.phase.Requeueing? && id in s.queue + s.phase.ids
          && id !in OfferAll(c.policy, c.capacity, s.queue, s.phase.ids))
      || (l.Serve? && l.tag in s.chats && s.chats[l.tag].AtGate? && l.chatEnv.sampled && |s.queue| >= c.capacity
          && if c.policy == DropNew then s.chats[l.tag].r.id == id else s.queue != [] && s.queue[0] == id)
  }

  /** A live, unfinished row goes out of everybody's hands only for a recorded cause. */
  lemma LossHasCause(c: Config, s: State, l: Label, t: State, id: Id)
    requires Proper(c) && Shaped(c, s) && Step(c, s, l, t)
    requires id in t.sh.rows && Unfinished(t.sh.rows[id]) && Live(s, id) && !Live(t, id)
    ensures id in t.history.lost && LosesBy(c, s, l, id, t.history.lost[id])
  {
    match l
    case Work(w, e) =>
      if s.workers[w].Idle? {
        TakeLive(s, w, id);
      } else {
        MoveReleases(c.setup, s.sh, s.workers[w], e);
        if Holding(s.workers[w]) != Some(id) { KeepLive(s, t, w, id); }
        assert Holding(t.workers[w]) != Some(id);
      }
    case Serve(tag, e) =>
      var here := s.chats[tag];
      SameWorkers(s, t);
      OtherGatesStay(s, t, tag, id);
      if here.AtGate? && (id in s.queue || Sent(LineOf(c, s), e.sampled)) {
        OfferKeeps(c.policy, c.capacity, s.queue, here.r.id, id);
      }
    case Arrive(tag, r) =>
      SameWorkers(s, t);
      OtherGatesStay(s, t, tag, id);
    case Crash => assert id in UnfinishedIds(s.sh.rows);
    case Requeue =>
      SameWorkers(s, t);
      assert id in Elements(s.queue + s.phase.ids);
    case _ => SameHands(s, t);
  }

  /** The record of forgotten rows grows in no other way, and an entry goes only when startup lists the row again. */
  lemma LostOnlyBy(c: Config, s: State, l: Label, t: State, id: Id)
    requires Proper(c) && Step(c, s, l, t)
    ensures id in t.history.lost && (id in s.history.lost ==> t.history.lost[id] != s.history.lost[id])
      ==> LosesBy(c, s, l, id, t.history.lost[id])
    ensures id in s.history.lost && id !in t.history.lost ==> l.Query? && id in l.unfinished
    ensures l.Query? && id in l.unfinished ==> id !in t.history.lost
  {
    match l
    case Requeue =>
      if id in Elements(s.queue + s.phase.ids) { assert id in s.queue + s.phase.ids; }
    case _ =>
  }

  // ---------- ids that have arrived ----------

  ghost predicate Known(c: Config, s: State) {
    && (forall g :: g in s.chats ==> g in s.history.arrivals && s.history.arrivals[g] == s.chats[g].r)
    && (forall id :: id in s.queue || id in s.sh.rows ==> Arrived(s, id))
    && (forall w :: 0 <= w < |s.workers| && !s.workers[w].Idle? ==> Arrived(s, s.workers[w].id))
    && (s.phase.Requeueing? ==> Distinct(s.phase.ids) && forall id :: id in s.phase.ids ==> id in s.sh.rows)
    && (c.slashFree ==> forall g :: g in s.history.arrivals ==> '/' !in s.history.arrivals[g].id)
    && (c.freshIds ==> forall id :: ArrivedOnce(s, id))
  }

  ghost predicate ArrivedOnce(s: State, id: Id) { forall g, h :: Carries(s, g, id) && Carries(s, h, id) ==> g == h }

  lemma SurvivorsDistinct(policy: Policy, capacity: nat, ids: seq<Id>)
    requires Distinct(ids)
    ensures Distinct(Survivors(policy, capacity, ids))
    ensures forall id :: id in Survivors(policy, capacity, ids) ==> id in ids
  {
  }

  lemma SameArrivals(s: State, t: State)
    requires t.history.arrivals == s.history.arrivals
    ensures forall g, id :: Carries(s, g, id) == Carries(t, g, id)
    ensures forall id :: Arrived(s, id) == Arrived(t, id) && ArrivedOnce(s, id) == ArrivedOnce(t, id)
  {
    assert forall g, id :: Carries(s, g, id) == Carries(t, g, id);
    forall id ensures Arrived(s, id) == Arrived(t, id) && ArrivedOnce(s, id) == ArrivedOnce(t, id) {}
  }

  lemma OneMoreArrival(c: Config, s: State, tag: nat, r: Request, t: State)
    requires Step(c, s, Arrive(tag, r), t)
    ensures forall g, id :: Carries(t, g, id) <==> Carries(s, g, id) || (g == tag && id == r.id)
    ensures forall id :: Arrived(t, id) <==> Arrived(s, id) || id == r.id
    ensures forall id :: ArrivedOnce(t, id) <==> ArrivedOnce(s, id) && (id == r.id ==> !Arrived(s, id))
  {
    assert forall g, id :: Carries(t, g, id) <==> Carries(s, g, id) || (g == tag && id == r.id);
    forall id ensures Arrived(t, id) <==> Arrived(s, id) || id == r.id {
      assert id == r.id ==> Carries(t, tag, id);
      if Arrived(s, id) {
        var g :| Carries(s, g, id);
        assert Carries(t, g, id);
      }
    }
    forall id ensures ArrivedOnce(t, id) <==> ArrivedOnce(s, id) && (id == r.id ==> !Arrived(s, id)) {
      if ArrivedOnce(t, id) { assert forall g :: Carries(s, g, id) ==> Carries(t, g, id) && g != tag; }
      if ArrivedOnce(t, id) && id == r.id { assert Carries(t, tag, id); }
    }
  }

  /** Arrivals only accumulate. */
  lemma StepArrivals(c: Config, s: State, l: Label, t: State)
    requires Step(c, s, l, t)
    ensures !l.Arrive? ==> t.history.arrivals == s.history.arrivals
    ensures forall g, id :: Carries(s, g, id) ==> Carries(t, g, id)
    ensures forall id :: Arrived(s, id) ==> Arrived(t, id)
    ensures forall id :: ArrivedOnce(t, id) ==> ArrivedOnce(s, id)
  {
    if l.Arrive? { OneMoreArrival(c, s, l.tag, l.r, t); } else { SameArrivals(s, t); }
  }

  lemma ArriveKnown(c: Config, s: State, tag: nat, r: Request, t: State)
    requires Known(c, s) && Step(c, s, Arrive(tag, r), t)
    ensures Known(c, t)
  {
    OneMoreArrival(c, s, tag, r, t);
  }

  lemma ServeKnown(c: Config, s: State, tag: nat, e: ChatEnv)
    requires Known(c, s) && tag in s.chats && Open(s.chats[tag])
    ensures Known(c, ServeStep(c, s, tag, e))
  {
    var t := ServeStep(c, s, tag, e);
    SameArrivals(s, t);
    var id := s.chats[tag].r.id;
    assert Carries(s, tag, id);
    assert forall g :: g in t.chats ==> g in s.chats && t.chats[g].r == s.chats[g].r;
    assert forall x :: x in t.queue ==> x in s.queue || x == id;
  }

  lemma WorkKnown(c: Config, s: State, w: nat, e: Env)
    requires Known(c, s) && w < |s.workers| && !s.workers[w].Idle?
    ensures Known(c, WorkStep(c, s, w, e))
  {
    var t := WorkStep(c, s, w, e);
    SameArrivals(s, t);
    MoveReleases(c.setup, s.sh, s.workers[w], e);
    forall v | 0 <= v < |t.workers| && !t.workers[v].Idle? ensures Arrived(t, t.workers[v].id) {
      assert !s.workers[v].Idle? && t.workers[v].id == s.workers[v].id;
    }
  }

  lemma TakeKnown(c: Config, s: State, w: nat)
    requires Known(c, s) && w < |s.workers| && s.workers[w].Idle? && s.queue != []
    ensures Known(c, TakeStep(s, w))
  {
    var t := TakeStep(s, w);
    SameArrivals(s, t);
    assert s.queue[0] in s.queue;
    assert forall id :: id in t.queue ==> id in s.queue;
  }

  lemma QuietKnown(c: Config, s: State, l: Label, t: State)
    requires Proper(c) && Shaped(c, s) && Known(c, s) && Step(c, s, l, t) && !l.Arrive? && !l.Serve? && !l.Work?
    ensures Known(c, t)
  {
    SameArrivals(s, t);
    match l
    case Query(ids) => forall id | id in ids ensures id in s.sh.rows { assert id in Elements(ids); }
    case Requeue =>
      BurstFits(c, s.phase.ids);
      SurvivorsDistinct(c.policy, c.capacity, s.phase.ids);
    case _ =>
  }

  lemma StepKnown(c: Config, s: State, l: Label, t: State)
    requires Proper(c) && Shaped(c, s) && Known(c, s) && Step(c, s, l, t)
    ensures Known(c, t)
  {
    match l
    case Arrive(tag, r) => ArriveKnown(c, s, tag, r, t);
    case Serve(tag, e) => ServeKnown(c, s, tag, e);
    case Work(w, e) => if s.workers[w].Idle? { TakeKnown(c, s, w); } else { WorkKnown(c, s, w, e); }
    case _ => QuietKnown(c, s, l, t);
  }

  // ---------- at most one live job per id ----------

  ghost predicate Job(w: Worker, id: Id) { !w.Idle? && w.id == id }

  predicate BeforeGate(st: ChatState) { st.AtPrimary? || st.AtArchive? || st.AtInsert? }

  predicate Gate(s: State, g: nat, id: Id) { g in s.chats && s.chats[g].AtGate? && s.chats[g].r.id == id }

  /** Nobody can bring a second job for this id: clients have sent it once at most, or repeats are turned away. */
  ghost predicate Sole(c: Config, s: State, id: Id) { c.setup.failClosed || ArrivedOnce(s, id) }

  ghost predicate InNobodysHands(s: State, id: Id) {
    && id !in s.queue && (forall w :: 0 <= w < |s.workers| ==> !Job(s.workers[w], id))
    && (forall g :: !Gate(s, g, id))
  }

  /** The places where an id has a job exclude each other, and what could bring a second job comes too early. */
  ghost predicate OneJob(c: Config, s: State, id: Id) {
    && (forall i, j :: 0 <= i < j < |s.queue| ==> s.queue[i] != id || s.queue[j] != id)
    && (forall w, v :: 0 <= w < v < |s.workers| ==> !Job(s.workers[w], id) || !Job(s.workers[v], id))
    && (id in s.queue ==> forall w :: 0 <= w < |s.workers| ==> !Job(s.workers[w], id))
    && (forall g, h :: Gate(s, g, id) && Gate(s, h, id) ==> g == h)
    && (forall g :: Gate(s, g, id) ==>
          id !in s.queue && forall w :: 0 <= w < |s.workers| ==> !Job(s.workers[w], id))
    && (c.setup.failClosed ==> id in s.sh.rows || InNobodysHands(s, id))
    && (ArrivedOnce(s, id) ==>
          forall g :: g in s.chats && BeforeGate(s.chats[g]) && s.chats[g].r.id == id ==>
            id !in s.sh.rows && InNobodysHands(s, id))
  }

  lemma WorkOneJob(c: Config, s: State, w: nat, e: Env, id: Id)
    requires OneJob(c, s, id) && w < |s.workers| && !s.workers[w].Idle?
    ensures OneJob(c, WorkStep(c, s, w, e), id)
  {
    MoveReleases(c.setup, s.sh, s.workers[w], e);
    var t := WorkStep(c, s, w, e);
    SameArrivals(s, t);
    assert forall v :: 0 <= v < |t.workers| && Job(t.workers[v], id) ==> Job(s.workers[v], id);
    assert forall g :: Gate(t, g, id) == Gate(s, g, id);
  }

  lemma TakeOneJob(c: Config, s: State, w: nat, id: Id)
    requires OneJob(c, s, id) && w < |s.workers| && s.workers[w].Idle? && s.queue != []
    ensures OneJob(c, TakeStep(s, w), id)
  {
    var t := TakeStep(s, w);
    SameArrivals(s, t);
    assert s.queue[0] in s.queue;
    assert forall x :: x in t.queue ==> x in s.queue;
    assert s.queue[0] == id ==> id !in t.queue;
    assert forall v :: 0 <= v < |t.workers| && v != w ==> t.workers[v] == s.workers[v];
    assert forall g :: Gate(t, g, id) == Gate(s, g, id);
  }

  lemma PassFrame(c: Config, s: State, tag: nat, e: ChatEnv)
    requires tag in s.chats && BeforeGate(s.chats[tag])
    ensures var t, here := ServeStep(c, s, tag, e), s.chats[tag];
      && t.queue == s.queue && t.workers == s.workers && t.history.arrivals == s.history.arrivals
      && (forall g :: g != tag ==> (g in t.chats <==> g in s.chats) && (g in s.chats ==> t.chats[g] == s.chats[g]))
      && (tag in t.chats ==> t.chats[tag].r == here.r && (here.AtInsert? ==> t.chats[tag].AtGate?))
      && (tag in t.chats && t.chats[tag].AtGate? ==>
            here.AtInsert? && (Inserts(s.sh.rows, here.r.id, e) || !c.setup.failClosed))
      && (if here.AtInsert? && Inserts(s.sh.rows, here.r.id, e) then t.sh.rows.Keys == s.sh.rows.Keys + {here.r.id}
          else t.sh.rows == s.sh.rows)
  {
  }

  /** A request on its way to its gate: the last step is taken only where nobody has the id. */
  lemma PassOneJob(c: Config, s: State, tag: nat, e: ChatEnv, id: Id)
    requires Known(c, s) && OneJob(c, s, id) && Sole(c, s, id) && tag in s.chats && BeforeGate(s.chats[tag])
    ensures OneJob(c, ServeStep(c, s, tag, e), id)
  {
    PassFrame(c, s, tag, e);
    var t := ServeStep(c, s, tag, e);
    if s.chats[tag].r.id == id { PassOwnJob(c, s, tag, e, t, id); } else { PassOtherJob(c, s, tag, e, t, id); }
  }

  /** A request before its gate has gone on, and nothing else has. */
  ghost predicate WentOn(c: Config, s: State, tag: nat, e: ChatEnv, t: State)
    requires tag in s.chats
  {
    var here := s.chats[tag];
    && t.queue == s.queue && t.workers == s.workers && t.history.arrivals == s.history.arrivals
    && (forall g :: g != tag ==> (g in t.chats <==> g in s.chats) && (g in s.chats ==> t.chats[g] == s.chats[g]))
    && (tag in t.chats ==> t.chats[tag].r == here.r && (here.AtInsert? ==> t.chats[tag].AtGate?))
    && (tag in t.chats && t.chats[tag].AtGate? ==>
          here.AtInsert? && (Inserts(s.sh.rows, here.r.id, e) || !c.setup.failClosed))
    && (if here.AtInsert? && Inserts(s.sh.rows, here.r.id, e) then t.sh.rows.Keys == s.sh.rows.Keys + {here.r.id}
        else t.sh.rows == s.sh.rows)
  }

  lemma PassOtherJob(c: Config, s: State, tag: nat, e: ChatEnv, t: State, id: Id)
    requires OneJob(c, s, id) && tag in s.chats && BeforeGate(s.chats[tag]) && WentOn(c, s, tag, e, t)
    requires s.chats[tag].r.id != id
    ensures OneJob(c, t, id)
  {
    assert forall g :: Gate(t, g, id) == Gate(s, g, id);
    SameArrivals(s, t);
  }

  lemma PassOwnJob(c: Config, s: State, tag: nat, e: ChatEnv, t: State, id: Id)
    requires Known(c, s) && OneJob(c, s, id) && Sole(c, s, id)
    requires tag in s.chats && BeforeGate(s.chats[tag]) && WentOn(c, s, tag, e, t) && s.chats[tag].r.id == id
    ensures OneJob(c, t, id)
  {
    assert forall g :: g != tag ==> Gate(t, g, id) == Gate(s, g, id);
    SameArrivals(s, t);
    if ArrivedOnce(s, id) {
      assert Carries(s, tag, id);
      forall g | g in s.chats && s.chats[g].r.id == id ensures g == tag { assert Carries(s, g, id); }
    }
  }

  lemma LeaveOneJob(c: Config, s: State, tag: nat, e: ChatEnv, id: Id)
    requires OneJob(c, s, id) && tag in s.chats && s.chats[tag].AtGate?
    ensures OneJob(c, ServeStep(c, s, tag, e), id)
  {
    var t := ServeStep(c, s, tag, e);
    SameArrivals(s, t);
    var here := s.chats[tag].r.id;
    assert forall g :: Gate(t, g, id) ==> g != tag && Gate(s, g, id);
    assert here == id ==> Gate(s, tag, id);
    assert forall x :: x in t.queue ==> x in s.queue || x == here;
  }

  lemma ArriveOneJob(c: Config, s: State, tag: nat, r: Request, t: State, id: Id)
    requires Known(c, s) && OneJob(c, s, id) && Step(c, s, Arrive(tag, r), t) && Sole(c, t, id)
    ensures OneJob(c, t, id)
  {
    assert forall g :: Gate(t, g, id) == Gate(s, g, id);
    OneMoreArrival(c, s, tag, r, t);
    if r.id == id && ArrivedOnce(t, id) {
      assert forall g :: g in s.chats ==> !Carries(s, g, id);
    }
  }

  /** Where queue, workers and requests are as before, only the row can have come into being. */
  lemma SameOneJob(c: Config, s: State, t: State, id: Id)
    requires OneJob(c, s, id) && t.queue == s.queue && t.workers == s.workers && t.chats == s.chats
    requires t.sh.rows.Keys == s.sh.rows.Keys && t.history.arrivals == s.history.arrivals
    ensures OneJob(c, t, id)
  {
    SameArrivals(s, t);
    assert forall g :: Gate(t, g, id) == Gate(s, g, id);
  }

  lemma RequeueFrame(c: Config, s: State, t: State)
    requires Proper(c) && Shaped(c, s) && Known(c, s) && Step(c, s, Requeue, t)
    ensures Distinct(t.queue) && forall id :: id in t.queue ==> id in t.sh.rows
    ensures t.chats == map[] && forall w :: 0 <= w < |t.workers| ==> t.workers[w].Idle?
  {
    BurstFits(c, s.phase.ids);
    SurvivorsDistinct(c.policy, c.capacity, s.phase.ids);
    assert t.queue == Survivors(c.policy, c.capacity, s.phase.ids);
  }

  lemma FilledOneJob(c: Config, t: State, id: Id)
    requires Distinct(t.queue) && forall x :: x in t.queue ==> x in t.sh.rows
    requires t.chats == map[] && forall w :: 0 <= w < |t.workers| ==> t.workers[w].Idle?
    ensures OneJob(c, t, id)
  {
    assert forall g :: !Gate(t, g, id);
  }

  lemma RequeueOneJob(c: Config, s: State, t: State, id: Id)
    requires Proper(c) && Shaped(c, s) && Known(c, s) && Step(c, s, Requeue, t)
    ensures OneJob(c, t, id)
  {
    RequeueFrame(c, s, t);
    FilledOneJob(c, t, id);
  }

  lemma CrashOneJob(c: Config, s: State, t: State, id: Id)
    requires Step(c, s, Crash, t)
    ensures OneJob(c, t, id)
  {
    assert forall g :: !Gate(t, g, id);
  }

  lemma QuietOneJob(c: Config, s: State, l: Label, t: State, id: Id)
    requires Proper(c) && Shaped(c, s) && Known(c, s) && Step(c, s, l, t) && !l.Arrive? && !l.Serve? && !l.Work?
    requires OneJob(c, s, id)
    ensures OneJob(c, t, id)
  {
    match l
    case Requeue => RequeueOneJob(c, s, t, id);
    case Crash => CrashOneJob(c, s, t, id);
    case _ => SameOneJob(c, s, t, id);
  }

  lemma StepOneJob(c: Config, s: State, l: Label, t: State, id: Id)
    requires Proper(c) && Shaped(c, s) && Known(c, s) && Step(c, s, l, t)
    requires OneJob(c, s, id) && Sole(c, s, id) && Sole(c, t, id)
    ensures OneJob(c, t, id)
  {
    match l
    case Arrive(tag, r) => ArriveOneJob(c, s, tag, r, t, id);
    case Serve(tag, e) =>
      if s.chats[tag].AtGate? { LeaveOneJob(c, s, tag, e, id); } else { PassOneJob(c, s, tag, e, id); }
    case Work(w, e) => if s.workers[w].Idle? { TakeOneJob(c, s, w, id); } else { WorkOneJob(c, s, w, e, id); }
    case _ => QuietOneJob(c, s, l, t, id);
  }

  // ---------- all of it, over every run ----------

  ghost predicate Accounted(c: Config, s: State) {
    Shaped(c, s) && Known(c, s) && Covered(s) && forall id :: Sole(c, s, id) ==> OneJob(c, s, id)
  }

  lemma StepAccounted(c: Config, s: State, l: Label, t: State)
    requires Proper(c) && Accounted(c, s) && Step(c, s, l, t)
    ensures Accounted(c, t)
  {
    StepShaped(c, s, l, t);
    StepKnown(c, s, l, t);
    StepCovered(c, s, l, t);
    StepArrivals(c, s, l, t);
    forall id | Sole(c, t, id) ensures OneJob(c, t, id) {
      assert Sole(c, s, id);
      StepOneJob(c, s, l, t, id);
    }
  }

  /** No unfinished row is unaccounted for; an id that cannot come back to life has one job at most. */
  lemma ReachableAccounted(c: Config, s: State)
    requires Proper(c) && Reachable(c, s)
    ensures Accounted(c, s)
  {
    var inv := u => Accounted(c, u);
    forall u, l, t | Step(c, u, l, t) && inv(u) ensures inv(t) { StepAccounted(c, u, l, t); }
    Always(c, s, inv);
  }

  /** How many of the four places have the id. */
  ghost function Hands(s: State, id: Id): nat {
    One(id in s.queue) + One(WorkerHolds(s, id)) + One(AtSomeGate(s, id))
    + One(s.phase.Requeueing? && id in s.phase.ids)
  }

  /**
   * Under `fail_closed`, or for an id that arrived once: an unfinished row that was not lost is in exactly one
   * pair of hands.
   */
  lemma HeldByExactlyOne(c: Config, s: State, id: Id)
    requires Proper(c) && Reachable(c, s) && Sole(c, s, id)
    requires id in s.sh.rows && Unfinished(s.sh.rows[id]) && id !in s.history.lost
    ensures Hands(s, id) == 1 && multiset(s.queue)[id] <= 1
    ensures forall w, v ::
        0 <= w < |s.workers| && 0 <= v < |s.workers| && Job(s.workers[w], id) && Job(s.workers[v], id) ==> w == v
    ensures forall g, h :: Gate(s, g, id) && Gate(s, h, id) ==> g == h
    ensures ArrivedOnce(s, id) ==>
      forall g, h :: g in s.chats && h in s.chats && s.chats[g].r.id == id && s.chats[h].r.id == id ==> g == h
  {
    ReachableAccounted(c, s);
    assert forall g :: g in s.chats && s.chats[g].r.id == id ==> Carries(s, g, id);
    assert OneJob(c, s, id);
    assert Live(s, id);
    OnceCount(s.queue, id);
    if WorkerHolds(s, id) {
      var w :| 0 <= w < |s.workers| && Holding(s.workers[w]) == Some(id);
      assert Job(s.workers[w], id);
    }
    if AtSomeGate(s, id) {
      var g :| g in s.chats && s.chats[g].AtGate? && s.chats[g].r.id == id;
      assert Gate(s, g, id);
    }
  }

  lemma {:induction false} OnceCount(q: seq<Id>, id: Id)
    requires forall i, j :: 0 <= i < j < |q| ==> q[i] != id || q[j] != id
    ensures multiset(q)[id] == One(id in q)
  {
    if q != [] {
      assert q[0] == id ==> id !in q[1..];
      OnceCount(q[1..], id);
      assert q == [q[0]] + q[1..];
    }
  }

  // ---------- what becomes of the queue ----------

  /** A request that offers its job: the primary call succeeded, and the draw was for it. */
  predicate Offers(s: State, l: Label) {
    && l.Serve? && l.tag in s.chats && s.chats[l.tag].AtGate?
    && s.chats[l.tag].out.status == Succeeded && l.chatEnv.sampled
  }

  /** First in, first out; an offer to a full queue is refused or pushes the oldest job out; startup fills it anew. */
  lemma QueueAfter(c: Config, s: State, l: Label, t: State)
    requires Proper(c) && Shaped(c, s) && Step(c, s, l, t)
    ensures l.Work? && s.workers[l.w].Idle? ==>
      s.queue == [s.queue[0]] + t.queue && t.workers == s.workers[l.w := Reading(s.queue[0])]
    ensures Offers(s, l) && |s.queue| < c.capacity ==> t.queue == s.queue + [s.chats[l.tag].r.id]
    ensures Offers(s, l) && |s.queue| == c.capacity && c.policy == DropNew ==> t.queue == s.queue
    ensures Offers(s, l) && |s.queue| == c.capacity && c.policy == DropOld ==>
      t.queue == s.queue[1..] + [s.chats[l.tag].r.id]
    ensures l.Crash? ==> t.queue == [] && t.chats == map[] && t.sweep == [] && forall w :: w in t.workers ==> w == Idle
    ensures l.Requeue? ==> var n := |s.phase.ids|;
      t.queue == if n <= c.capacity then s.phase.ids
                 else if c.policy == DropNew then s.phase.ids[..c.capacity] else s.phase.ids[n - c.capacity..]
    ensures !(l.Work? && s.workers[l.w].Idle?) && !Offers(s, l) && !l.Crash? && !l.Requeue? ==> t.queue == s.queue
  {
    if l.Requeue? { BurstFits(c, s.phase.ids); }
  }

  // ---------- who changes a row ----------

  /** Only a worker at one of its four writes, or the sweeper at this id, changes an existing row. */
  lemma RowWriters(c: Config, s: State, l: Label, t: State, id: Id)
    requires Step(c, s, l, t) && id in s.sh.rows
    ensures id in t.sh.rows
    ensures t.sh.rows[id] != s.sh.rows[id] ==>
      || (l.Sweep? && l.ok && s.sweep[0] == id)
      || (l.Work? && Job(s.workers[l.w], id)
          && (s.workers[l.w].Dropping? || s.workers[l.w].Marking?
              || s.workers[l.w].Failing? || s.workers[l.w].Closing?))
  {
  }

  /** What a worker's stretch makes of the row in its hands. */
  ghost predicate Writes(w: Worker, e: Env, r: Row, u: Row)
    requires !w.Idle?
  {
    match w
    case Marking(_, _) =>
      u == if e.markOk then r.(status := InProgress, attemptedAt := Some(e.now), attempts := r.attempts + 1) else r
    case Dropping(_) =>
      u == if e.finalizeOk
           then r.(status := Dropped, verdict := Evaluator.PrimaryError, reasons := ["primary_error_no_shadow"],
                   evaluatedAt := Some(e.now))
           else r
    case Failing(_, answer, latency) =>
      answer.TimedOut? || answer.CallError? ==>
        u == if e.finalizeOk
             then r.(status := Error, verdict := Evaluator.CandidateError, latency := Some(latency),
                     evaluatedAt := Some(e.now),
                     reasons := [if answer.TimedOut? then "candidate_timeout" else "candidate_error"],
                     error := Some(First1000(if answer.TimedOut? then "timeout: " + answer.msg else answer.msg)))
             else r
    case Closing(_, _, d) =>
      u == if e.finalizeOk
           then r.(status := Ok, verdict := d.result.verdict, reasons := d.result.reasons, latency := Some(d.latency),
                   action := if d.result.candidateAction == None then r.action else d.result.candidateAction,
                   evaluatedAt := Some(e.now))
           else r
    case _ => u == r
  }

  /** Every existing row after every step, column by column. */
  lemma RowAfter(c: Config, s: State, l: Label, t: State, id: Id)
    requires Step(c, s, l, t) && id in s.sh.rows
    ensures id in t.sh.rows
    ensures l.Work? && Job(s.workers[l.w], id) ==> Writes(s.workers[l.w], l.env, s.sh.rows[id], t.sh.rows[id])
    ensures l.Sweep? && l.ok && s.sweep[0] == id ==>
      t.sh.rows[id] == s.sh.rows[id].(status := TimeoutStale, verdict := Evaluator.CandidateError,
                                      reasons := ["timeout_stale"], evaluatedAt := Some(l.now))
    ensures !(l.Work? && Job(s.workers[l.w], id)) && !(l.Sweep? && l.ok && s.sweep[0] == id) ==>
      t.sh.rows[id] == s.sh.rows[id]
  {
    RowWriters(c, s, l, t, id);
    if l.Work? && s.workers[l.w].Failing? { SliceIsFirst(Complaint(s.workers[l.w].answer)); }
  }

  /** A finished row is reopened exactly by a worker that has read it before and marks it now. */
  lemma ReopenedIff(c: Config, s: State, l: Label, t: State, id: Id)
    requires Step(c, s, l, t) && id in s.sh.rows && !Unfinished(s.sh.rows[id])
    ensures id in t.sh.rows
    ensures Unfinished(t.sh.rows[id])
      <==> l.Work? && s.workers[l.w].Marking? && s.workers[l.w].id == id && l.env.markOk
  {
    RowWriters(c, s, l, t, id);
  }
}
