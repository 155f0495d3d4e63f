/** What every reachable table looks like, whatever ids clients choose and however the actors interleave. */
module Coherence {
  import opened Evaluator
  import opened Rows
  import opened Pipeline
  import opened Chat
  import opened Protocol

  /** Statuses, verdicts and attempts that can occur together. */
  ghost predicate RowOk(r: Row) {
    && (r.primary.status != Succeeded ==> r.attempts == 0)
    && match r.status
       case Pending => r.attempts == 0 && r.verdict == if r.primary.status == Succeeded then NoVerdict else PrimaryError
       case InProgress => r.primary.status == Succeeded && r.attempts >= 1 && r.verdict != PrimaryError
       case Ok => r.primary.status == Succeeded && r.attempts >= 1 && r.verdict in {Match, Mismatch, InvalidJson}
       case Error => r.primary.status == Succeeded && r.attempts >= 1 && r.verdict == CandidateError && r.error.Some?
       case TimeoutStale => r.verdict == CandidateError
       case Dropped => r.primary.status != Succeeded && r.verdict == PrimaryError
  }

  /** What a worker may rely on about the row in its hands. */
  ghost predicate WorkerOk(t: Table, w: Worker) {
    match w
    case Idle => true
    case Reading(_) => true
    case Dropping(id) => id in t && t[id].primary.status != Succeeded
    case Marking(id, rec) => Knows(t, id, rec)
    case Loading(id, rec) => Knows(t, id, rec) && t[id].attempts >= 1
    case Calling(id, rec, _) => Knows(t, id, rec) && t[id].attempts >= 1
    case Failing(id, _, _) => id in t && t[id].primary.status == Succeeded && t[id].attempts >= 1
    case MergeGet(id, rec, d) => Knows(t, id, rec) && t[id].attempts >= 1 && Judged(d)
    case MergePut(id, rec, d, _) => Knows(t, id, rec) && t[id].attempts >= 1 && Judged(d)
    case Closing(id, rec, d) => Knows(t, id, rec) && t[id].attempts >= 1 && Judged(d)
    case Counting(id, rec, d) => Knows(t, id, rec) && t[id].attempts >= 1 && Judged(d)
  }

  ghost predicate Knows(t: Table, id: Id, rec: Row) {
    id in t && t[id].primary == rec.primary && rec.primary.status == Succeeded
  }

  ghost predicate Judged(d: Done) { d.result.verdict in {Match, Mismatch, InvalidJson} }

  ghost predicate Coherent(s: State) {
    && (forall id :: id in s.sh.rows ==> RowOk(s.sh.rows[id]))
    && (forall w :: 0 <= w < |s.workers| ==> WorkerOk(s.sh.rows, s.workers[w]))
  }

  // ---------- rows are never deleted, and their primary columns never change ----------

  ghost predicate Grows(t: Table, u: Table) {
    forall id :: id in t ==> id in u && u[id].primary == t[id].primary && u[id].attempts >= t[id].attempts
  }

  lemma MoveGrows(c: Setup, sh: Shared, w: Worker, e: Env)
    requires !w.Idle?
    ensures Grows(sh.rows, Move(c, sh, w, e).0.rows)
  {
  }

  lemma StepGrows(c: Config, s: State, l: Label, t: State)
    requires Step(c, s, l, t)
    ensures Grows(s.sh.rows, t.sh.rows)
  {
    if l.Work? && !s.workers[l.w].Idle? { MoveGrows(c.setup, s.sh, s.workers[l.w], l.env); }
  }

  /** Over a whole run, crashes included. */
  lemma {:induction false} RunGrows(c: Config, s: State, ls: seq<Label>, t: State)
    requires Run(c, s, ls, t)
    ensures Grows(s.sh.rows, t.sh.rows)
    decreases |ls|
  {
    if ls != [] {
      var next := Apply(c, s, ls[0]);
      StepGrows(c, s, ls[0], next);
      RunGrows(c, next, ls[1..], t);
    }
  }

  // ---------- coherence is an invariant ----------

  lemma WorkerOkGrows(t: Table, u: Table, w: Worker)
    requires WorkerOk(t, w) && Grows(t, u)
    ensures WorkerOk(u, w)
  {
  }

  /** One stretch of a worker, seen on its own. */
  lemma MoveCoherent(c: Setup, sh: Shared, w: Worker, e: Env)
    requires !w.Idle? && WorkerOk(sh.rows, w)
    requires forall id :: id in sh.rows ==> RowOk(sh.rows[id])
    ensures var r := Move(c, sh, w, e);
      WorkerOk(r.0.rows, r.1) && forall id :: id in r.0.rows ==> RowOk(r.0.rows[id])
  {
  }

  lemma WorkCoherent(c: Config, s: State, w: nat, e: Env)
    requires Coherent(s) && w < |s.workers| && !s.workers[w].Idle?
    ensures Coherent(WorkStep(c, s, w, e))
  {
    MoveGrows(c.setup, s.sh, s.workers[w], e);
    MoveCoherent(c.setup, s.sh, s.workers[w], e);
    var t := WorkStep(c, s, w, e);
    forall v | 0 <= v < |t.workers| && v != w ensures WorkerOk(t.sh.rows, t.workers[v]) {
      WorkerOkGrows(s.sh.rows, t.sh.rows, s.workers[v]);
    }
  }

  lemma ServeCoherent(c: Config, s: State, tag: nat, e: ChatEnv)
    requires Coherent(s) && tag in s.chats && Open(s.chats[tag])
    ensures Coherent(ServeStep(c, s, tag, e))
  {
    var t := ServeStep(c, s, tag, e);
    assert Grows(s.sh.rows, t.sh.rows);
    forall w | 0 <= w < |t.workers| ensures WorkerOk(t.sh.rows, t.workers[w]) {
      WorkerOkGrows(s.sh.rows, t.sh.rows, s.workers[w]);
    }
  }

  lemma StepCoherent(c: Config, s: State, l: Label, t: State)
    requires Coherent(s) && Step(c, s, l, t)
    ensures Coherent(t)
  {
    if l.Work? && !s.workers[l.w].Idle? {
      WorkCoherent(c, s, l.w, l.env);
    } else if l.Serve? {
      ServeCoherent(c, s, l.tag, l.chatEnv);
    } else {
      StepGrows(c, s, l, t);
      forall w | 0 <= w < |t.workers| ensures WorkerOk(t.sh.rows, t.workers[w]) {
        if t.workers[w] == s.workers[w] { WorkerOkGrows(s.sh.rows, t.sh.rows, s.workers[w]); }
      }
    }
  }

  /** Every row of every reachable state is coherent. */
  lemma ReachableCoherent(c: Config, s: State)
    requires Reachable(c, s)
    ensures Coherent(s)
  {
    forall u, l, t | Step(c, u, l, t) && Coherent(u) ensures Coherent(t) { StepCoherent(c, u, l, t); }
    Always(c, s, Coherent);
  }

  // ---------- who turns the verdict of a failed primary call ----------

  /** The sweeper commits its patch to this row. */
  predicate Sweeps(s: State, l: Label, id: Id) { l.Sweep? && l.ok && s.sweep != [] && s.sweep[0] == id }

  /** A worker that found the primary call failed commits the row as dropped. */
  predicate Drops(s: State, l: Label, id: Id) {
    l.Work? && l.w < |s.workers| && s.workers[l.w] == Dropping(id) && l.env.finalizeOk
  }

  lemma FailedPrimaryWork(c: Config, s: State, w: nat, e: Env, id: Id)
    requires Coherent(s) && w < |s.workers| && !s.workers[w].Idle?
    requires id in s.sh.rows && s.sh.rows[id].primary.status != Succeeded
    ensures var t := WorkStep(c, s, w, e);
      && id in t.sh.rows && t.sh.rows[id].primary == s.sh.rows[id].primary
      && t.sh.rows[id].verdict == if Drops(s, Work(w, e), id) then PrimaryError else s.sh.rows[id].verdict
  {
    assert WorkerOk(s.sh.rows, s.workers[w]);
  }

  /**
   * One step and the verdict of a row whose primary call failed: the sweeper makes it candidate_error, a worker
   * dropping the row makes it primary_error again, nothing else touches it.
   */
  lemma FailedPrimaryVerdict(c: Config, s: State, l: Label, t: State, id: Id)
    requires Reachable(c, s) && Step(c, s, l, t) && id in s.sh.rows && s.sh.rows[id].primary.status != Succeeded
    ensures id in t.sh.rows && t.sh.rows[id].primary == s.sh.rows[id].primary
    ensures t.sh.rows[id].verdict ==
      if Sweeps(s, l, id) then CandidateError else if Drops(s, l, id) then PrimaryError else s.sh.rows[id].verdict
  {
    ReachableCoherent(c, s);
    if l.Work? && !s.workers[l.w].Idle? { FailedPrimaryWork(c, s, l.w, l.env, id); }
  }

  /** Whether, of the two, the sweeper came last in a run; `before` answers for a run in which neither came. */
  ghost predicate SweptLast(c: Config, s: State, ls: seq<Label>, t: State, id: Id, before: bool)
    requires Run(c, s, ls, t)
    decreases |ls|
  {
    if ls == [] then before
    else SweptLast(c, Apply(c, s, ls[0]), ls[1..], t, id,
                   Sweeps(s, ls[0], id) || (before && !Drops(s, ls[0], id)))
  }

  /** Over any run: a failed primary call reads candidate_error exactly if the sweeper finalized the row last. */
  lemma {:induction false} FailedPrimaryHistory(c: Config, s: State, ls: seq<Label>, t: State, id: Id)
    requires Reachable(c, s) && Run(c, s, ls, t) && id in s.sh.rows && s.sh.rows[id].primary.status != Succeeded
    ensures id in t.sh.rows
    ensures t.sh.rows[id].verdict == CandidateError
      <==> SweptLast(c, s, ls, t, id, s.sh.rows[id].verdict == CandidateError)
    decreases |ls|
  {
    if ls != [] {
      var next := Apply(c, s, ls[0]);
      FailedPrimaryVerdict(c, s, ls[0], next, id);
      ReachableStep(c, s, ls[0], next);
      FailedPrimaryHistory(c, next, ls[1..], t, id);
    }
  }
}
