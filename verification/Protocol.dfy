/**
 * The proxy process as a labelled step system: chat requests, workers, the sweeper, crash and restart share
 * one table, one archive and one bounded queue. A step is one stretch of code between two `await` points.
 * Labels carry what the environment decides; everything else follows.
 */
module Protocol {
  import opened Prelude
  import opened Llm
  import opened Rows
  import opened Dispatcher
  import opened Pipeline
  import opened Chat
  import opened Sweeper

  /**
   * The last two fields are promises of the environment, not of the process: clients never reuse an
   * `X-Request-ID`, and never put a slash into one.
   */
  datatype Config = Config(
    setup: Setup, policy: Policy, capacity: nat, workers: nat, freshIds: bool, slashFree: bool)

  predicate Proper(c: Config) { 1 <= c.capacity && 1 <= c.workers }

  /** The application: not running, or starting up in two awaited steps, or open for requests. */
  datatype Phase = Down | Starting | Requeueing(ids: seq<Id>) | Serving

  /** Per-process tallies with no counterpart in the code. */
  datatype Ledger = Ledger(
    requeued: nat, handled: nat, evicted: nat, refused: nat, commits: multiset<Evaluator.Verdict>)

  const BLANK := Ledger(0, 0, 0, 0, multiset{})

  /** Why an unfinished row may have nobody working on it. */
  datatype Cause = PrimaryFailed | SampledOut | Overflow | HandlerRaised | Crashed

  datatype Origin = Origin(r: Request, out: PrimaryOutcome)

  /** A row as its request wrote it. */
  datatype Written = Written(id: Id, columns: PrimaryColumns, origin: Origin)

  function WrittenOf(c: Config, r: Request, out: PrimaryOutcome, key: Option<string>): Written {
    Written(r.id, ColumnsOf(c.setup, r, out, key), Origin(r, out))
  }

  /** What came of asking the candidate model about a row, and how long it took. */
  datatype Heard = Heard(id: Id, answer: ClientResult, latency: int)

  /** What happened so far; no step depends on it, except for the promise that ids are fresh. */
  datatype History = History(
    arrivals: map<nat, Request>,        // requests that arrived
    origin: map<Id, Origin>,            // the latest request and primary outcome behind an id
    answered: map<nat, ChatState>,      // how requests ended
    stored: map<nat, Written>,          // requests whose insert succeeded
    lost: map<Id, Cause>,               // rows nobody works on, and why
    evidence: map<Id, Done>,            // what the last successful finalize of an id rested on
    failures: map<Id, Heard>,           // what the last finalize of an id as an error rested on
    heard: set<Heard>,                  // what came of asking the candidate model
    boot: Table)                        // the table when the counters were last at zero

  datatype State = State(
    phase: Phase, sh: Shared, chats: map<nat, ChatState>, queue: seq<Id>, workers: seq<Worker>, sweep: seq<Id>,
    ledger: Ledger, history: History)

  datatype Label =
    | Arrive(tag: nat, r: Request)
    | Serve(tag: nat, chatEnv: ChatEnv)
    | Work(w: nat, env: Env)
    | Scan(cutoff: int, stale: seq<Id>)
    | Sweep(ok: bool, now: int)
    | Crash
    | Boot
    | Query(unfinished: seq<Id>)
    | Requeue

  function Init(c: Config): State {
    State(Down, Shared(map[], map[], ZERO, []), map[], [], seq(c.workers, _ => Idle), [],
          BLANK, History(map[], map[], map[], map[], map[], map[], map[], {}, map[]))
  }

  /** A request of the run had this id. */
  predicate Carries(s: State, tag: nat, id: Id) { tag in s.history.arrivals && s.history.arrivals[tag].id == id }

  ghost predicate Arrived(s: State, id: Id) { exists tag :: Carries(s, tag, id) }

  ghost predicate Enabled(c: Config, s: State, l: Label) {
    match l
    case Arrive(tag, r) =>
      && s.phase.Serving? && tag !in s.chats && tag !in s.history.answered && tag !in s.history.stored
      && tag !in s.history.arrivals && (c.freshIds ==> !Arrived(s, r.id)) && (c.slashFree ==> '/' !in r.id)
    case Serve(tag, _) => s.phase.Serving? && tag in s.chats && Open(s.chats[tag])
    case Work(w, _) => !s.phase.Down? && w < |s.workers| && (!s.workers[w].Idle? || s.queue != [])
    case Scan(cutoff, ids) => !s.phase.Down? && s.sweep == [] && IsStaleList(s.sh.rows, cutoff, SWEEP_LIMIT, ids)
    case Sweep(_, _) => !s.phase.Down? && s.sweep != []
    case Crash => !s.phase.Down?
    case Boot => s.phase.Down?
    case Query(ids) => s.phase.Starting? && IsUnfinishedList(s.sh.rows, REQUEUE_LIMIT, ids)
    case Requeue => s.phase.Requeueing?
  }

  function Apply(c: Config, s: State, l: Label): State
    requires Enabled(c, s, l)
  {
    match l
    case Arrive(tag, r) =>
      s.(chats := s.chats[tag := AtPrimary(r)],
         history := s.history.(arrivals := s.history.arrivals[tag := r]))
    case Serve(tag, e) => ServeStep(c, s, tag, e)
    case Work(w, e) => if s.workers[w].Idle? then TakeStep(s, w) else WorkStep(c, s, w, e)
    case Scan(_, ids) => s.(sweep := ids)
    case Sweep(ok, now) =>
      if ok then s.(sh := s.sh.(rows := Finalize(s.sh.rows, s.sweep[0], StalePatch(now), now)), sweep := s.sweep[1..])
      else s.(sweep := [])
    case Crash =>
      State(Down, s.sh.(counters := ZERO, tape := []), map[], [], seq(|s.workers|, _ => Idle), [], BLANK,
            s.history.(boot := s.sh.rows,
                       lost := s.history.lost + map id | id in UnfinishedIds(s.sh.rows) :: Crashed))
    case Boot => s.(phase := Starting)
    case Query(ids) => s.(phase := Requeueing(ids), history := s.history.(lost := s.history.lost - Elements(ids)))
    case Requeue => RequeueStep(c, s)
  }

  // ---------- requests ----------

  function LineOf(c: Config, s: State): Line { Line(c.policy, c.capacity, s.queue) }

  /** The rows a gate leaves without a job. */
  function LostAtGate(c: Config, s: State, g: ChatState, e: ChatEnv): map<Id, Cause>
    requires g.AtGate?
  {
    if g.out.status != Succeeded then map[g.r.id := PrimaryFailed]
    else if !e.sampled then map[g.r.id := SampledOut]
    else if Answer(c.policy, c.capacity, s.queue).Refused? then map[g.r.id := Overflow]
    else match Evicted(c.policy, c.capacity, s.queue) case Some(id) => map[id := Overflow] case None => map[]
  }

  function ServeStep(c: Config, s: State, tag: nat, e: ChatEnv): State
    requires tag in s.chats && Open(s.chats[tag])
  {
    var here := s.chats[tag];
    var (sh, line, next) := ChatMove(c.setup, s.sh, LineOf(c, s), here, e);
    var offers := here.AtGate? && here.out.status == Succeeded && e.sampled;
    var h := s.history.(
      origin := if here.AtPrimary? && next.AtArchive? then s.history.origin[here.r.id := Origin(here.r, next.out)]
                else s.history.origin,
      stored := if here.AtInsert? && Inserts(s.sh.rows, here.r.id, e)
                then s.history.stored[tag := WrittenOf(c, here.r, here.out, here.key)]
                else s.history.stored,
      answered := if Open(next) then s.history.answered else s.history.answered[tag := next],
      lost := if here.AtGate? then s.history.lost + LostAtGate(c, s, here, e) else s.history.lost);
    s.(sh := sh, queue := line.queue, history := h,
       chats := if Open(next) then s.chats[tag := next] else s.chats - {tag},
       ledger := s.ledger.(
         refused := s.ledger.refused + (if offers && Answer(c.policy, c.capacity, s.queue).Refused? then 1 else 0),
         evicted := s.ledger.evicted + (if offers && Evicted(c.policy, c.capacity, s.queue).Some? then 1 else 0)))
  }

  // ---------- workers ----------

  function TakeStep(s: State, w: nat): State
    requires w < |s.workers| && s.queue != []
  {
    s.(queue := s.queue[1..], workers := s.workers[w := Reading(s.queue[0])])
  }

  /** The answer a worker receives in this stretch, if any. */
  function AnswerTo(c: Config, w: Worker, e: Env): set<Heard> {
    if w.Calling? then {Heard(w.id, Interpret(c.setup.intLike, e.llm), e.latency)} else {}
  }

  function WorkStep(c: Config, s: State, w: nat, e: Env): State
    requires w < |s.workers| && !s.workers[w].Idle?
  {
    var here := s.workers[w];
    var (sh, next) := Move(c.setup, s.sh, here, e);
    s.(sh := sh, workers := s.workers[w := next],
       ledger := s.ledger.(handled := s.ledger.handled + (if next.Idle? then 1 else 0),
                           commits := s.ledger.commits
                             + (if next.Counting? then multiset{next.done.result.verdict} else multiset{})),
       history := s.history.(
         lost := if Raises(c.setup, here, e) then s.history.lost[here.id := HandlerRaised] else s.history.lost,
         evidence := if next.Counting? then s.history.evidence[next.id := next.done] else s.history.evidence,
         failures := if here.Failing? && e.finalizeOk
                     then s.history.failures[here.id := Heard(here.id, here.answer, here.latency)]
                     else s.history.failures,
         heard := s.history.heard + AnswerTo(c, here, e)))
  }

  // ---------- startup ----------

  /** How many offers of a burst are accepted, and how many jobs it evicts. */
  function AcceptedBy(policy: Policy, capacity: nat, q: seq<Id>, ids: seq<Id>): nat
    decreases |ids|
  {
    if ids == [] then 0
    else (if Answer(policy, capacity, q).Enqueued? then 1 else 0)
         + AcceptedBy(policy, capacity, Dispatcher.Offer(policy, capacity, q, ids[0]), ids[1..])
  }

  function EvictedBy(policy: Policy, capacity: nat, q: seq<Id>, ids: seq<Id>): nat
    decreases |ids|
  {
    if ids == [] then 0
    else (if Evicted(policy, capacity, q).Some? then 1 else 0)
         + EvictedBy(policy, capacity, Dispatcher.Offer(policy, capacity, q, ids[0]), ids[1..])
  }

  function RequeueStep(c: Config, s: State): State
    requires s.phase.Requeueing?
  {
    var ids := s.phase.ids;
    var q := OfferAll(c.policy, c.capacity, s.queue, ids);
    s.(phase := Serving, queue := q,
       ledger := s.ledger.(requeued := s.ledger.requeued + AcceptedBy(c.policy, c.capacity, s.queue, ids),
                           evicted := s.ledger.evicted + EvictedBy(c.policy, c.capacity, s.queue, ids)),
       history := s.history.(lost := s.history.lost + map id | id in Elements(s.queue + ids) - Elements(q) :: Overflow))
  }

  // ---------- runs ----------

  ghost predicate Step(c: Config, s: State, l: Label, t: State) { Enabled(c, s, l) && t == Apply(c, s, l) }

  ghost predicate Run(c: Config, s: State, ls: seq<Label>, t: State)
    decreases |ls|
  {
    if ls == [] then s == t else Enabled(c, s, ls[0]) && Run(c, Apply(c, s, ls[0]), ls[1..], t)
  }

  ghost predicate Reachable(c: Config, s: State) { exists ls :: Run(c, Init(c), ls, s) }

  lemma {:induction false} RunAppend(c: Config, s: State, ls: seq<Label>, t: State, more: seq<Label>, u: State)
    requires Run(c, s, ls, t) && Run(c, t, more, u)
    ensures Run(c, s, ls + more, u)
    decreases |ls|
  {
    if ls == [] {
      assert ls + more == more;
    } else {
      var next, both := Apply(c, s, ls[0]), ls + more;
      RunAppend(c, next, ls[1..], t, more, u);
      assert both[0] == ls[0] && both[1..] == ls[1..] + more;
    }
  }

  lemma ReachableThrough(c: Config, s: State, ls: seq<Label>, t: State)
    requires Reachable(c, s) && Run(c, s, ls, t)
    ensures Reachable(c, t)
  {
    var before :| Run(c, Init(c), before, s);
    RunAppend(c, Init(c), before, s, ls, t);
  }

  lemma ReachableStep(c: Config, s: State, l: Label, t: State)
    requires Reachable(c, s) && Step(c, s, l, t)
    ensures Reachable(c, t)
  {
    assert Run(c, t, [], t);
    assert Run(c, s, [l], t);
    ReachableThrough(c, s, [l], t);
  }

  /** Every step out of a reachable state keeps the property. */
  ghost predicate Inductive(c: Config, inv: State -> bool) {
    forall s, l, t :: Step(c, s, l, t) && Reachable(c, s) && inv(s) ==> inv(t)
  }

  lemma {:induction false} RunKeeps(c: Config, s: State, ls: seq<Label>, t: State, inv: State -> bool)
    requires Inductive(c, inv) && Reachable(c, s) && inv(s) && Run(c, s, ls, t)
    ensures inv(t)
    decreases |ls|
  {
    if ls != [] {
      var next := Apply(c, s, ls[0]);
      assert Step(c, s, ls[0], next);
      ReachableStep(c, s, ls[0], next);
      RunKeeps(c, next, ls[1..], t, inv);
    }
  }

  /** An inductive property that holds at first holds in every reachable state. */
  lemma Always(c: Config, s: State, inv: State -> bool)
    requires Inductive(c, inv) && inv(Init(c)) && Reachable(c, s)
    ensures inv(s)
  {
    var ls :| Run(c, Init(c), ls, s);
    assert Run(c, Init(c), [], Init(c));
    RunKeeps(c, Init(c), ls, s, inv);
  }

  // ---------- endless runs ----------

  /** A run without an end: state by state, and the label of each step. */
  ghost predicate Endless(c: Config, at: nat -> State, move: nat -> Label) {
    forall n: nat {:trigger move(n)} :: Step(c, at(n), move(n), at(n + 1))
  }

  /** The state after the first steps of a run. */
  ghost function After(c: Config, s: State, ls: seq<Label>, n: nat): State
    decreases n
  {
    if n == 0 || ls == [] || !Enabled(c, s, ls[0]) then s else After(c, Apply(c, s, ls[0]), ls[1..], n - 1)
  }

  lemma {:induction false} AfterNext(c: Config, s: State, ls: seq<Label>, t: State, n: nat)
    requires Run(c, s, ls, t)
    ensures n < |ls| ==> Step(c, After(c, s, ls, n), ls[n], After(c, s, ls, n + 1))
    ensures n >= |ls| ==> After(c, s, ls, n) == t
    decreases n
  {
    if n > 0 && ls != [] { AfterNext(c, Apply(c, s, ls[0]), ls[1..], t, n - 1); }
  }

  lemma {:induction false} AfterFirst(c: Config, s: State, ls: seq<Label>, t: State, more: seq<Label>)
    requires Run(c, s, ls, t)
    ensures After(c, s, ls + more, |ls|) == t
    decreases |ls|
  {
    if ls != [] {
      var both := ls + more;
      assert both[0] == ls[0] && both[1..] == ls[1..] + more;
      AfterFirst(c, Apply(c, s, ls[0]), ls[1..], t, more);
    }
  }

  function NthLabel(ls: seq<Label>, idle: Label, n: nat): Label { if n < |ls| then ls[n] else idle }

  lemma OnwardsStep(c: Config, s: State, ls: seq<Label>, t: State, idle: Label, n: nat)
    requires Run(c, s, ls, t) && Step(c, t, idle, t)
    ensures Step(c, After(c, s, ls, n), NthLabel(ls, idle, n), After(c, s, ls, n + 1))
  {
    AfterNext(c, s, ls, t, n);
    AfterNext(c, s, ls, t, n + 1);
  }

  /** A run that ends where some step changes nothing goes on forever. */
  lemma Onwards(c: Config, s: State, ls: seq<Label>, t: State, idle: Label)
    returns (at: nat -> State, move: nat -> Label)
    requires Run(c, s, ls, t) && Step(c, t, idle, t)
    ensures Endless(c, at, move) && at(0) == s
    ensures forall n: nat :: move(n) == NthLabel(ls, idle, n)
    ensures forall n: nat :: at(n) == After(c, s, ls, n) && (n >= |ls| ==> at(n) == t)
  {
    at := (n: nat) => After(c, s, ls, n);
    move := (n: nat) => NthLabel(ls, idle, n);
    forall n: nat ensures Step(c, at(n), move(n), at(n + 1)) { OnwardsStep(c, s, ls, t, idle, n); }
    forall n: nat | n >= |ls| ensures at(n) == t { AfterNext(c, s, ls, t, n); }
  }

  // ---------- who works on what ----------

  /** The id a worker is still going to write a final status for. */
  function Holding(w: Worker): Option<Id> {
    if w.Idle? || w.Counting? then None else Some(w.id)
  }

  ghost predicate WorkerHolds(s: State, id: Id) {
    exists w :: 0 <= w < |s.workers| && Holding(s.workers[w]) == Some(id)
  }

  ghost predicate AtSomeGate(s: State, id: Id) {
    exists tag :: tag in s.chats && s.chats[tag].AtGate? && s.chats[tag].r.id == id
  }

  /** Somebody has the row in hand: the queue, a worker, its request, or the startup list. */
  ghost predicate Live(s: State, id: Id) {
    id in s.queue || WorkerHolds(s, id) || AtSomeGate(s, id) || (s.phase.Requeueing? && id in s.phase.ids)
  }
}
