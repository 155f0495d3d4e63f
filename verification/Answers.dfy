/**
 * The other half of a verdict: what the table and the archive hold as the candidate's words was said by the
 * candidate model, about this very row; in the archive, about an id that ends in the one its key names.
 * It holds for every environment.
 */
module Answers {
  import opened Prelude
  import Evaluator
  import opened Llm
  import opened RawStore
  import opened Rows
  import opened Pipeline
  import opened Protocol
  import opened Coherence
  import opened Evidence

  ghost predicate Said(h: set<Heard>, id: Id, d: Done) { Heard(id, Response(d.candidate, d.response), d.latency) in h }

  ghost predicate WorkerHeard(h: set<Heard>, w: Worker) {
    match w
    case MergeGet(id, _, d) => Said(h, id, d)
    case MergePut(id, _, d, _) => Said(h, id, d)
    case Closing(id, _, d) => Said(h, id, d)
    case Counting(id, _, d) => Said(h, id, d)
    case Failing(id, a, latency) => (a.TimedOut? || a.CallError?) && Heard(id, a, latency) in h
    case _ => true
  }

  /** An answer about an id that ends in the id a key names. */
  predicate About(a: Heard, key: string, body: Json.Json) {
    AfterLastSlash(a.id) == IdOfKey(key) && a.answer.Response? && a.answer.raw == body
  }

  ghost predicate MergedHeard(h: set<Heard>, key: string, p: RawStore.Payload) {
    p.candidateResponse.Some? ==> exists a :: a in h && About(a, key, p.candidateResponse.value)
  }

  ghost predicate ArchiveHeard(h: set<Heard>, raw: Archive) {
    forall key :: key in raw ==> MergedHeard(h, key, raw[key])
  }

  /** The row says how a call failed: its kind, the first 1000 characters of the error, the time it took. */
  ghost predicate Tells(r: Row, a: Heard) {
    && r.verdict == Evaluator.CandidateError && r.latency == Some(a.latency)
    && match a.answer
       case TimedOut(msg) => r.reasons == ["candidate_timeout"] && r.error == Some(First1000("timeout: " + msg))
       case CallError(msg, _) => r.reasons == ["candidate_error"] && r.error == Some(First1000(msg))
       case _ => false
  }

  ghost predicate ToldRows(failures: map<Id, Heard>, t: Table) {
    forall id :: id in t && t[id].status == Error ==> id in failures && Tells(t[id], failures[id])
  }

  ghost predicate Faithful(s: State) {
    var h := s.history.heard;
    && (forall w :: 0 <= w < |s.workers| ==> WorkerHeard(h, s.workers[w]))
    && (forall id :: id in s.history.evidence ==> Said(h, id, s.history.evidence[id]))
    && ArchiveHeard(h, s.sh.raw)
    && (forall id :: id in s.history.failures ==> s.history.failures[id].id == id && s.history.failures[id] in h)
    && ToldRows(s.history.failures, s.sh.rows)
  }

  lemma HearingMore(h: set<Heard>, k: set<Heard>, w: Worker, raw: Archive)
    requires h <= k
    ensures WorkerHeard(h, w) ==> WorkerHeard(k, w)
    ensures ArchiveHeard(h, raw) ==> ArchiveHeard(k, raw)
  {
  }

  /** One stretch of a worker: what it goes on with, it has heard. */
  lemma MoveHeard(c: Config, sh: Shared, w: Worker, e: Env, h: set<Heard>)
    requires !w.Idle? && WorkerHeard(h, w) && AnswerTo(c, w, e) <= h
    ensures WorkerHeard(h, Move(c.setup, sh, w, e).1)
  {
  }

  lemma MergeHeard(c: Setup, sh: Shared, w: Worker, e: Env, h: set<Heard>)
    requires !w.Idle? && WorkerHeard(h, w) && ArchiveHeard(h, sh.raw)
    requires WorkerOk(sh.rows, w) && (w.id in sh.rows ==> KeyOk(sh.raw, w.id, sh.rows[w.id].primary.rawKey))
    ensures ArchiveHeard(h, Move(c, sh, w, e).0.raw)
  {
    if w.MergePut? && e.mergePutOk && w.rec.primary.rawKey.Some? {
      MergeKey(sh.rows, sh.raw, w, e.today);
      IdOfKeyIsSegment(e.today, AfterLastSlash(w.id));
      SegmentIsClean(w.id);
      var key := KeyFor(e.today, AfterLastSlash(w.id));
      assert About(Heard(w.id, Response(w.done.candidate, w.done.response), w.done.latency), key, w.done.response);
    }
  }

  /** A worker writes the status `error` only as the end of a failed call. */
  lemma MoveTold(c: Setup, failures: map<Id, Heard>, sh: Shared, w: Worker, e: Env)
    requires !w.Idle? && ToldRows(failures, sh.rows)
    requires w.Failing? ==> w.answer.TimedOut? || w.answer.CallError?
    ensures var told :=
        if w.Failing? && e.finalizeOk then failures[w.id := Heard(w.id, w.answer, w.latency)] else failures;
      ToldRows(told, Move(c, sh, w, e).0.rows)
  {
    if w.Failing? { SliceIsFirst(Complaint(w.answer)); }
  }

  lemma WorkFaithful(c: Config, s: State, w: nat, e: Env)
    requires Faithful(s) && Sound(c, s) && Coherent(s) && w < |s.workers| && !s.workers[w].Idle?
    ensures Faithful(WorkStep(c, s, w, e))
  {
    var t, here := WorkStep(c, s, w, e), s.workers[w];
    var h := t.history.heard;
    forall v | 0 <= v < |s.workers| ensures WorkerHeard(h, s.workers[v]) {
      HearingMore(s.history.heard, h, s.workers[v], s.sh.raw);
    }
    MoveHeard(c, s.sh, here, e, h);
    assert WorkerOk(s.sh.rows, here);
    MergeHeard(c.setup, s.sh, here, e, h);
    assert WorkerHeard(h, here);
    MoveTold(c.setup, s.history.failures, s.sh, here, e);
  }

  /** A request archives its payload without an answer, and touches nothing else of this. */
  lemma ServeFaithful(c: Config, s: State, tag: nat, e: Chat.ChatEnv)
    requires Faithful(s) && tag in s.chats && Chat.Open(s.chats[tag])
    ensures Faithful(ServeStep(c, s, tag, e))
  {
  }

  lemma StepFaithful(c: Config, s: State, l: Label, t: State)
    requires Faithful(s) && Sound(c, s) && Coherent(s) && Step(c, s, l, t)
    ensures Faithful(t)
  {
    match l
    case Work(w, e) => if !s.workers[w].Idle? { WorkFaithful(c, s, w, e); }
    case Serve(tag, e) => ServeFaithful(c, s, tag, e);
    case _ =>
  }

  lemma ReachableFaithful(c: Config, s: State)
    requires Proper(c) && Reachable(c, s)
    ensures Faithful(s)
  {
    forall u, l, t | Step(c, u, l, t) && Reachable(c, u) && Faithful(u) ensures Faithful(t) {
      ReachableSound(c, u);
      ReachableCoherent(c, u);
      StepFaithful(c, u, l, t);
    }
    Always(c, s, Faithful);
  }

  /**
   * A row finalized `ok` judges an answer the candidate gave about it; an archived object holds no candidate
   * response, or one given about an id that ends in the id its key names.
   */
  lemma CandidateSaidIt(c: Config, s: State)
    requires Proper(c) && Reachable(c, s)
    ensures forall id :: id in s.sh.rows && s.sh.rows[id].status == Ok ==>
      && id in s.history.evidence && s.sh.rows[id].verdict == s.history.evidence[id].result.verdict
      && var d := s.history.evidence[id]; Heard(id, Response(d.candidate, d.response), d.latency) in s.history.heard
    ensures forall key :: key in s.sh.raw && s.sh.raw[key].candidateResponse.Some? ==>
      exists a :: a in s.history.heard && About(a, key, s.sh.raw[key].candidateResponse.value)
  {
    ReachableFaithful(c, s);
    ReachableSound(c, s);
    forall id | id in s.sh.rows && s.sh.rows[id].status == Ok
      ensures id in s.history.evidence && Said(s.history.heard, id, s.history.evidence[id])
      ensures s.sh.rows[id].verdict == s.history.evidence[id].result.verdict
    {
      assert SoundRow(c.setup, s.history.evidence, id, s.sh.rows[id]);
    }
    forall key | key in s.sh.raw && s.sh.raw[key].candidateResponse.Some?
      ensures exists a :: a in s.history.heard && About(a, key, s.sh.raw[key].candidateResponse.value)
    {
      assert MergedHeard(s.history.heard, key, s.sh.raw[key]);
    }
  }

  /**
   * A row finalized as an error tells how the call it rests on ended: that call was made for this row, its reason
   * is `candidate_timeout` exactly if it timed out, and error text and latency are those of the call.
   */
  lemma ErrorIsTold(c: Config, s: State, id: Id)
    requires Proper(c) && Reachable(c, s) && id in s.sh.rows && s.sh.rows[id].status == Error
    ensures id in s.history.failures
    ensures var row, call := s.sh.rows[id], s.history.failures[id];
      && call.id == id && call in s.history.heard && (call.answer.TimedOut? || call.answer.CallError?)
      && row.verdict == Evaluator.CandidateError && row.latency == Some(call.latency)
      && row.reasons == [if call.answer.TimedOut? then "candidate_timeout" else "candidate_error"]
      && row.error == Some(First1000(if call.answer.TimedOut? then "timeout: " + call.answer.msg else call.answer.msg))
  {
    ReachableFaithful(c, s);
    assert Tells(s.sh.rows[id], s.history.failures[id]);
  }
}
