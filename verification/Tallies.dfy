/** Ledgers that balance at every step, and counters that bound the table. */
module Tallies {
  import opened Prelude
  import opened Evaluator
  import opened Llm
  import opened Rows
  import opened Dispatcher
  import opened Pipeline
  import opened Chat
  import opened Protocol
  import opened Coherence

  // ---------- counting workers ----------

  function CountIf(ws: seq<Worker>, p: Worker -> bool): nat {
    if ws == [] then 0 else (if p(ws[0]) then 1 else 0) + CountIf(ws[1..], p)
  }

  lemma {:induction false} CountIfUpdate(ws: seq<Worker>, i: nat, w: Worker, p: Worker -> bool)
    requires i < |ws|
    ensures CountIf(ws[i := w], p) == CountIf(ws, p) - (if p(ws[i]) then 1 else 0) + (if p(w) then 1 else 0)
  {
    if i == 0 {
      assert ws[i := w][1..] == ws[1..];
    } else {
      assert ws[i := w][1..] == ws[1..][i - 1 := w];
      CountIfUpdate(ws[1..], i - 1, w, p);
    }
  }

  lemma {:induction false} CountIfNone(ws: seq<Worker>, p: Worker -> bool)
    requires forall i :: 0 <= i < |ws| ==> !p(ws[i])
    ensures CountIf(ws, p) == 0
  {
    if ws != [] { CountIfNone(ws[1..], p); }
  }

  predicate InFlight(w: Worker) { !w.Idle? }

  /** Committed with verdict `v`, not yet counted. */
  function Uncounted(v: Verdict): Worker -> bool { (w: Worker) => w.Counting? && w.done.result.verdict == v }

  predicate AnyUncounted(w: Worker) { w.Counting? }

  // ---------- the process ledger ----------

  ghost predicate Balanced(s: State) {
    && s.sh.counters.total == s.sh.counters.success
    && s.sh.counters.success == s.sh.counters.enqueued + s.sh.counters.sampledOut + s.ledger.refused
    && s.sh.counters.enqueued + s.ledger.requeued
       == s.ledger.handled + CountIf(s.workers, InFlight) + s.ledger.evicted + |s.queue|
    && s.sh.counters.timeouts <= s.sh.counters.errors
    && |s.ledger.commits|
       == s.sh.counters.matches + s.sh.counters.mismatches + s.sh.counters.invalid + CountIf(s.workers, AnyUncounted)
    && |s.sh.tape| == s.sh.counters.mismatches + s.sh.counters.invalid
  }

  lemma {:induction false} BurstBalances(policy: Policy, capacity: nat, q: seq<Id>, ids: seq<Id>)
    ensures |OfferAll(policy, capacity, q, ids)| + EvictedBy(policy, capacity, q, ids)
      == |q| + AcceptedBy(policy, capacity, q, ids)
    decreases |ids|
  {
    if ids != [] { BurstBalances(policy, capacity, Dispatcher.Offer(policy, capacity, q, ids[0]), ids[1..]); }
  }

  lemma MoveBalances(c: Setup, sh: Shared, w: Worker, e: Env)
    requires !w.Idle? && WorkerOk(sh.rows, w)
    ensures var r := Move(c, sh, w, e);
      && r.0.counters.total == sh.counters.total && r.0.counters.success == sh.counters.success
      && r.0.counters.enqueued == sh.counters.enqueued && r.0.counters.sampledOut == sh.counters.sampledOut
      && r.0.counters.timeouts + sh.counters.errors <= r.0.counters.errors + sh.counters.timeouts
      && r.0.counters.matches + r.0.counters.mismatches + r.0.counters.invalid
         == sh.counters.matches + sh.counters.mismatches + sh.counters.invalid + (if w.Counting? then 1 else 0)
      && |r.0.tape| + sh.counters.mismatches + sh.counters.invalid
        == |sh.tape| + r.0.counters.mismatches + r.0.counters.invalid
      && (r.1.Counting? ==> w.Closing?)
  {
  }

  lemma WorkBalanced(c: Config, s: State, w: nat, e: Env)
    requires Balanced(s) && Coherent(s) && w < |s.workers| && !s.workers[w].Idle?
    ensures Balanced(WorkStep(c, s, w, e))
  {
    var t := WorkStep(c, s, w, e);
    CountIfUpdate(s.workers, w, t.workers[w], InFlight);
    CountIfUpdate(s.workers, w, t.workers[w], AnyUncounted);
    MoveBalances(c.setup, s.sh, s.workers[w], e);
  }

  lemma TakeBalanced(s: State, w: nat)
    requires Balanced(s) && w < |s.workers| && s.workers[w].Idle? && s.queue != []
    ensures Balanced(TakeStep(s, w))
  {
    CountIfUpdate(s.workers, w, Reading(s.queue[0]), InFlight);
    CountIfUpdate(s.workers, w, Reading(s.queue[0]), AnyUncounted);
  }

  /** One offer: what goes in is the queue's growth plus what it pushed out. */
  lemma OfferBalances(policy: Policy, capacity: nat, q: seq<Id>, id: Id)
    ensures |Dispatcher.Offer(policy, capacity, q, id)| + One(Evicted(policy, capacity, q).Some?)
      == |q| + One(Answer(policy, capacity, q).Enqueued?)
  {
  }

  lemma ServeBalanced(c: Config, s: State, tag: nat, e: ChatEnv)
    requires Balanced(s) && tag in s.chats && Open(s.chats[tag])
    ensures Balanced(ServeStep(c, s, tag, e))
  {
    OfferBalances(c.policy, c.capacity, s.queue, s.chats[tag].r.id);
  }

  lemma StepBalanced(c: Config, s: State, l: Label, t: State)
    requires Balanced(s) && Coherent(s) && Step(c, s, l, t)
    ensures Balanced(t)
  {
    match l
    case Work(w, e) => if s.workers[w].Idle? { TakeBalanced(s, w); } else { WorkBalanced(c, s, w, e); }
    case Serve(tag, e) => ServeBalanced(c, s, tag, e);
    case Requeue => BurstBalances(c.policy, c.capacity, s.queue, s.phase.ids);
    case Crash =>
      CountIfNone(t.workers, InFlight);
      CountIfNone(t.workers, AnyUncounted);
    case _ =>
  }

  // ---------- the counters dominate the table ----------

  predicate Judging(v: Verdict) { v in {Match, Mismatch, InvalidJson} }

  function RowsWith(t: Table, v: Verdict): set<Id> { set id | id in t && t[id].verdict == v }

  function CounterOf(k: Counters, v: Verdict): nat {
    match v case Match => k.matches case Mismatch => k.mismatches case InvalidJson => k.invalid case _ => 0
  }

  /** Rows with a verdict: at most those inherited from before the boot, those counted, and those about to be. */
  ghost predicate Dominated(s: State, v: Verdict) {
    |RowsWith(s.sh.rows, v)|
      <= |RowsWith(s.history.boot, v)| + CounterOf(s.sh.counters, v) + CountIf(s.workers, Uncounted(v))
  }

  lemma FinalizeVerdicts(t: Table, id: Id, p: FinalizePatch, now: int, v: Verdict)
    ensures |RowsWith(Finalize(t, id, p, now), v)| <= |RowsWith(t, v)| + (if p.verdict == v then 1 else 0)
  {
    var u := Finalize(t, id, p, now);
    if p.verdict == v {
      assert RowsWith(u, v) <= RowsWith(t, v) + {id};
      SubsetSize(RowsWith(u, v), RowsWith(t, v) + {id});
    } else {
      assert RowsWith(u, v) <= RowsWith(t, v);
      SubsetSize(RowsWith(u, v), RowsWith(t, v));
    }
  }

  lemma MoveDominated(c: Setup, sh: Shared, w: Worker, e: Env, v: Verdict)
    requires !w.Idle? && Judging(v)
    ensures var r := Move(c, sh, w, e);
      |RowsWith(r.0.rows, v)| + CounterOf(sh.counters, v) + One(Uncounted(v)(w))
        <= |RowsWith(sh.rows, v)| + CounterOf(r.0.counters, v) + One(Uncounted(v)(r.1))
  {
    match w
    case Dropping(id) => FinalizeVerdicts(sh.rows, id, DroppedPatch(e.now), e.now, v);
    case Failing(id, answer, latency) =>
      FinalizeVerdicts(sh.rows, id, ErrorPatch(Complaint(answer), answer.TimedOut?, latency, e.now), e.now, v);
    case Closing(id, _, done) => FinalizeVerdicts(sh.rows, id, OkPatch(done, e.now), e.now, v);
    case Marking(id, _) => assert RowsWith(Mark(sh.rows, id, e.now), v) == RowsWith(sh.rows, v);
    case _ =>
  }

  lemma WorkDominated(c: Config, s: State, w: nat, e: Env, v: Verdict)
    requires Dominated(s, v) && Judging(v) && w < |s.workers| && !s.workers[w].Idle?
    ensures Dominated(WorkStep(c, s, w, e), v)
  {
    CountIfUpdate(s.workers, w, WorkStep(c, s, w, e).workers[w], Uncounted(v));
    MoveDominated(c.setup, s.sh, s.workers[w], e, v);
  }

  lemma ServeDominated(c: Config, s: State, tag: nat, e: ChatEnv, v: Verdict)
    requires Dominated(s, v) && Judging(v) && tag in s.chats && Open(s.chats[tag])
    ensures Dominated(ServeStep(c, s, tag, e), v)
  {
    assert RowsWith(ServeStep(c, s, tag, e).sh.rows, v) == RowsWith(s.sh.rows, v);
  }

  lemma StepDominated(c: Config, s: State, l: Label, t: State, v: Verdict)
    requires Dominated(s, v) && Judging(v) && Step(c, s, l, t)
    ensures Dominated(t, v)
  {
    match l
    case Work(w, e) =>
      if s.workers[w].Idle? {
        CountIfUpdate(s.workers, w, t.workers[w], Uncounted(v));
      } else {
        WorkDominated(c, s, w, e, v);
      }
    case Sweep(ok, now) => if ok { FinalizeVerdicts(s.sh.rows, s.sweep[0], StalePatch(now), now, v); }
    case Serve(tag, e) => ServeDominated(c, s, tag, e, v);
    case Crash => CountIfNone(t.workers, Uncounted(v));
    case _ =>
  }

  // ---------- commits, verdict by verdict ----------

  /** Since the boot, commits with a verdict are those counted and those about to be. */
  ghost predicate Tallied(s: State, v: Verdict) {
    s.ledger.commits[v] == CounterOf(s.sh.counters, v) + CountIf(s.workers, Uncounted(v))
  }

  lemma MoveTallied(c: Setup, sh: Shared, w: Worker, e: Env, v: Verdict)
    requires !w.Idle? && Judging(v)
    ensures var r := Move(c, sh, w, e);
      CounterOf(r.0.counters, v) + One(Uncounted(v)(r.1))
      == CounterOf(sh.counters, v) + One(Uncounted(v)(w)) + One(r.1.Counting? && r.1.done.result.verdict == v)
  {
  }

  lemma WorkTallied(c: Config, s: State, w: nat, e: Env, v: Verdict)
    requires Tallied(s, v) && Judging(v) && w < |s.workers| && !s.workers[w].Idle?
    ensures Tallied(WorkStep(c, s, w, e), v)
  {
    CountIfUpdate(s.workers, w, WorkStep(c, s, w, e).workers[w], Uncounted(v));
    MoveTallied(c.setup, s.sh, s.workers[w], e, v);
  }

  lemma StepTallied(c: Config, s: State, l: Label, t: State, v: Verdict)
    requires Tallied(s, v) && Judging(v) && Step(c, s, l, t)
    ensures Tallied(t, v)
  {
    match l
    case Work(w, e) =>
      if s.workers[w].Idle? {
        CountIfUpdate(s.workers, w, t.workers[w], Uncounted(v));
      } else {
        WorkTallied(c, s, w, e, v);
      }
    case Crash => CountIfNone(t.workers, Uncounted(v));
    case _ =>
  }

  ghost predicate AllTallies(s: State) {
    Balanced(s) && forall v :: Judging(v) ==> Dominated(s, v) && Tallied(s, v)
  }

  lemma StepTallies(c: Config, s: State, l: Label, t: State)
    requires AllTallies(s) && Coherent(s) && Step(c, s, l, t)
    ensures AllTallies(t)
  {
    StepBalanced(c, s, l, t);
    forall v | Judging(v) ensures Dominated(t, v) && Tallied(t, v) {
      StepDominated(c, s, l, t, v);
      StepTallied(c, s, l, t, v);
    }
  }

  /** In every reachable state the ledgers balance, counters tally with commits, and they bound the table. */
  lemma ReachableTallies(c: Config, s: State)
    requires Reachable(c, s)
    ensures Balanced(s) && forall v :: Judging(v) ==> Dominated(s, v) && Tallied(s, v)
  {
    var i := Init(c);
    CountIfNone(i.workers, InFlight);
    CountIfNone(i.workers, AnyUncounted);
    forall v | Judging(v) ensures Dominated(i, v) && Tallied(i, v) { CountIfNone(i.workers, Uncounted(v)); }
    forall u, l, t | Step(c, u, l, t) && Reachable(c, u) && AllTallies(u) ensures AllTallies(t) {
      ReachableCoherent(c, u);
      StepTallies(c, u, l, t);
    }
    Always(c, s, AllTallies);
  }

  /** Runs without a crash start from the empty table, so nothing is inherited. */
  lemma {:induction false} NoCrashInheritsNothing(c: Config, s: State, ls: seq<Label>, t: State)
    requires Run(c, s, ls, t) && s.history.boot == map[] && forall i :: 0 <= i < |ls| ==> !ls[i].Crash?
    ensures t.history.boot == map[]
    decreases |ls|
  {
    if ls != [] { NoCrashInheritsNothing(c, Apply(c, s, ls[0]), ls[1..], t); }
  }

  /** Without a crash no verdict occurs in more rows than the process has counted or is about to count. */
  lemma CountersDominateTable(c: Config, ls: seq<Label>, s: State, v: Verdict)
    requires Run(c, Init(c), ls, s) && (forall i :: 0 <= i < |ls| ==> !ls[i].Crash?) && Judging(v)
    ensures |RowsWith(s.sh.rows, v)| <= CounterOf(s.sh.counters, v) + CountIf(s.workers, Uncounted(v))
  {
    NoCrashInheritsNothing(c, Init(c), ls, s);
    ReachableTallies(c, s);
    assert RowsWith(s.history.boot, v) == {};
  }

  // ---------- what each counter counts ----------

  /** The nine counters. */
  datatype Gauge =
    | Requests | Successes | ShadowEnqueued | ShadowSampledOut | ShadowErrors | ShadowTimeouts | Reported(v: Verdict)

  function Shows(k: Counters, g: Gauge): nat {
    match g
    case Requests => k.total
    case Successes => k.success
    case ShadowEnqueued => k.enqueued
    case ShadowSampledOut => k.sampledOut
    case ShadowErrors => k.errors
    case ShadowTimeouts => k.timeouts
    case Reported(v) => CounterOf(k, v)
  }

  /** A request whose primary call succeeded passes the gate. */
  predicate Passes(s: State, l: Label) {
    l.Serve? && l.tag in s.chats && s.chats[l.tag].AtGate? && s.chats[l.tag].out.status == Succeeded
  }

  /** The candidate has been asked. */
  predicate Asks(s: State, l: Label) { l.Work? && l.w < |s.workers| && s.workers[l.w].Calling? }

  /** The kind of step a counter is for. */
  predicate Counts(c: Config, s: State, l: Label, g: Gauge) {
    match g
    case Requests => Passes(s, l)
    case Successes => Passes(s, l)
    case ShadowEnqueued =>
      Passes(s, l) && l.chatEnv.sampled && (|s.queue| < c.capacity || (c.policy == DropOld && s.queue != []))
    case ShadowSampledOut => Passes(s, l) && !l.chatEnv.sampled
    case ShadowErrors =>
      Asks(s, l) && var r := Interpret(c.setup.intLike, l.env.llm); r.TimedOut? || r.CallError?
    case ShadowTimeouts => Asks(s, l) && Interpret(c.setup.intLike, l.env.llm).TimedOut?
    case Reported(v) =>
      l.Work? && l.w < |s.workers| && s.workers[l.w].Counting? && s.workers[l.w].done.result.verdict == v && Judging(v)
  }

  /** How many steps of a run, since its last crash, were of that kind; `n` stands for those before the run. */
  ghost function Since(c: Config, s: State, ls: seq<Label>, g: Gauge, n: nat): nat
    decreases |ls|
  {
    if ls == [] || !Enabled(c, s, ls[0]) then n
    else Since(c, Apply(c, s, ls[0]), ls[1..], g, if ls[0].Crash? then 0 else n + One(Counts(c, s, ls[0], g)))
  }

  lemma CallCounts(c: Setup, sh: Shared, w: Worker, e: Env)
    requires w.Calling?
    ensures var r := Interpret(c.intLike, e.llm);
      Move(c, sh, w, e).0.counters
      == sh.counters.(errors := sh.counters.errors + One(r.TimedOut? || r.CallError?),
                      timeouts := sh.counters.timeouts + One(r.TimedOut?))
  {
  }

  lemma VerdictCounts(c: Setup, sh: Shared, w: Worker, e: Env, v: Verdict)
    requires w.Counting?
    ensures var k := Move(c, sh, w, e).0.counters;
      && k == sh.counters.(matches := k.matches, mismatches := k.mismatches, invalid := k.invalid)
      && CounterOf(k, v) == CounterOf(sh.counters, v) + One(w.done.result.verdict == v && Judging(v))
  {
  }

  lemma QuietCounts(c: Setup, sh: Shared, w: Worker, e: Env)
    requires !w.Idle? && !w.Calling? && !w.Counting?
    ensures Move(c, sh, w, e).0.counters == sh.counters
  {
  }

  lemma WorkCounts(c: Config, s: State, w: nat, e: Env, g: Gauge)
    requires w < |s.workers| && !s.workers[w].Idle?
    ensures Shows(WorkStep(c, s, w, e).sh.counters, g) == Shows(s.sh.counters, g) + One(Counts(c, s, Work(w, e), g))
  {
    var here := s.workers[w];
    if here.Calling? {
      CallCounts(c.setup, s.sh, here, e);
    } else if here.Counting? {
      VerdictCounts(c.setup, s.sh, here, e, if g.Reported? then g.v else Match);
    } else {
      QuietCounts(c.setup, s.sh, here, e);
    }
  }

  lemma ServeCounts(c: Config, s: State, tag: nat, e: ChatEnv, g: Gauge)
    requires tag in s.chats && Open(s.chats[tag])
    ensures Shows(ServeStep(c, s, tag, e).sh.counters, g)
      == Shows(s.sh.counters, g) + One(Counts(c, s, Serve(tag, e), g))
  {
  }

  lemma StepCounts(c: Config, s: State, l: Label, t: State, g: Gauge)
    requires Step(c, s, l, t)
    ensures Shows(t.sh.counters, g) == if l.Crash? then 0 else Shows(s.sh.counters, g) + One(Counts(c, s, l, g))
  {
    match l
    case Work(w, e) => if !s.workers[w].Idle? { WorkCounts(c, s, w, e, g); }
    case Serve(tag, e) => ServeCounts(c, s, tag, e, g);
    case _ =>
  }

  /** Over any run, each counter shows the number of steps of its kind since the process last started. */
  lemma {:induction false} RunCounts(c: Config, s: State, ls: seq<Label>, t: State, g: Gauge)
    requires Run(c, s, ls, t)
    ensures Shows(t.sh.counters, g) == Since(c, s, ls, g, Shows(s.sh.counters, g))
    decreases |ls|
  {
    if ls != [] {
      var next := Apply(c, s, ls[0]);
      StepCounts(c, s, ls[0], next, g);
      RunCounts(c, next, ls[1..], t, g);
    }
  }
}
