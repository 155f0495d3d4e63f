/** `CandidateHandler` of `pipeline.py`, with the control flow of the original. */
module Handler {
  import opened Prelude
  import opened Evaluator
  import opened Llm
  import opened RawStore
  import opened Rows
  import opened Tape
  import opened Pipeline

  /** `app.state.rt_counters`. */
  class RtCounters {
    var value: Counters

    constructor ()
      ensures value == ZERO
    {
      value := ZERO;
    }
  }

  // ---------- what one job leaves behind when nothing interferes, told from the answers it gets ----------

  /** A failed call is counted in any case, and written if the store answers. */
  ghost predicate ErrorEffect(sh: Shared, id: Id, e: Env, reason: string, error: string, t: Shared) {
    && t.raw == sh.raw && t.tape == sh.tape
    && t.counters.errors == sh.counters.errors + 1
    && t.counters.timeouts == sh.counters.timeouts + (if reason == "candidate_timeout" then 1 else 0)
    && t.counters == sh.counters.(errors := t.counters.errors, timeouts := t.counters.timeouts)
    && t.rows.Keys == sh.rows.Keys
    && (!e.finalizeOk ==> t.rows == sh.rows)
    && (e.finalizeOk && id in sh.rows ==>
          t.rows == sh.rows[id := sh.rows[id].(status := Error, verdict := CandidateError, reasons := [reason],
                                               latency := Some(e.latency), error := Some(First1000(error)),
                                               evaluatedAt := Some(e.now))])
  }

  /** The archive after the merge: only the candidate response of one object has changed, under the key of today. */
  ghost predicate MergeEffect(
    c: Setup, raw: Archive, key: Option<string>, response: Json.Json, e: Env, after: Archive)
  {
    if c.archive && key.Some? && key.value in raw && e.mergeGetOk && e.mergePutOk
    then after == raw[KeyFor(e.today, IdOfKey(key.value)) := raw[key.value].(candidateResponse := Some(response))]
    else after == raw
  }

  /** An evaluated answer: merged, and if the store answers, finalized, counted and offered to the tape. */
  ghost predicate VerdictEffect(c: Setup, sh: Shared, id: Id, rec: Row, d: Done, e: Env, t: Shared) {
    && MergeEffect(c, sh.raw, rec.primary.rawKey, d.response, e, t.raw)
    && t.rows.Keys == sh.rows.Keys
    && (!e.finalizeOk ==> t.rows == sh.rows && t.counters == sh.counters && t.tape == sh.tape)
    && (e.finalizeOk ==>
          && (id in sh.rows ==>
                t.rows == sh.rows[id := sh.rows[id].(
                  status := Ok, verdict := d.result.verdict, reasons := d.result.reasons, latency := Some(e.latency),
                  action := if d.result.candidateAction.Some? then d.result.candidateAction else sh.rows[id].action,
                  evaluatedAt := Some(e.now))])
          && match d.result.verdict
             case Match => t.counters == sh.counters.(matches := sh.counters.matches + 1) && t.tape == sh.tape
             case Mismatch =>
               && t.counters == sh.counters.(mismatches := sh.counters.mismatches + 1)
               && OneMore(sh.tape, t.tape, id, rec, d)
             case InvalidJson =>
               && t.counters == sh.counters.(invalid := sh.counters.invalid + 1)
               && OneMore(sh.tape, t.tape, id, rec, d)
             case _ => false)
  }

  ghost predicate OneMore(tape: seq<TapeRow>, after: seq<TapeRow>, id: Id, rec: Row, d: Done) {
    |after| == |tape| + 1 && after[..|tape|] == tape && Repeats(after[|tape|], id, rec.primary, d)
  }

  /** From the candidate call on. */
  ghost predicate AnswerEffect(
    c: Setup, sh: Shared, id: Id, rec: Row, body: Option<RawStore.Payload>, e: Env, t: Shared)
  {
    match Interpret(c.intLike, e.llm)
    case TimedOut(msg) => ErrorEffect(sh, id, e, "candidate_timeout", "timeout: " + msg, t)
    case CallError(msg, _) => ErrorEffect(sh, id, e, "candidate_error", msg, t)
    case Raised => t == sh
    case Response(content, response) =>
      match ContentOf(if body.Some? then body.value.primaryResponse else None)
      case None => t == sh
      case Some(primary) =>
        exists d ::
          && VerdictEffect(c, sh, id, rec, d, e, t) && d.result == Evaluation(c.lib, c.settings, primary, content)
          && d.primary == primary && d.candidate == content && d.response == response && d.latency == e.latency
  }

  /** A whole job. */
  ghost predicate JobEffect(c: Setup, sh: Shared, id: Id, e: Env, t: Shared) {
    if !e.getOk || id !in sh.rows then t == sh
    else
      var row := sh.rows[id];
      if row.primary.status != Succeeded then
        t == if !e.finalizeOk then sh
             else sh.(rows := sh.rows[id := row.(status := Dropped, verdict := PrimaryError,
                                                 reasons := ["primary_error_no_shadow"], evaluatedAt := Some(e.now))])
      else if !e.markOk then t == sh
      else
        var marked := row.(status := InProgress, attemptedAt := Some(e.now), attempts := row.attempts + 1);
        var key := row.primary.rawKey;
        var body := if c.archive && key.Some? && key.value in sh.raw && e.loadOk then Some(sh.raw[key.value]) else None;
        AnswerEffect(c, sh.(rows := sh.rows[id := marked]), id, row, body, e, t)
  }

  lemma FinishEffect(c: Setup, sh: Shared, id: Id, rec: Row, d: Done, e: Env)
    requires d.result.verdict in {Match, Mismatch, InvalidJson} && d.latency == e.latency
    ensures VerdictEffect(c, sh, id, rec, d, e, AfterClose(AfterMerge(c, sh, rec, d, e), id, rec, d, e))
  {
    var t := AfterClose(AfterMerge(c, sh, rec, d, e), id, rec, d, e);
    if e.finalizeOk && d.result.verdict in {Mismatch, InvalidJson} {
      assert t.tape == sh.tape + [RowForTape(id, rec, d)];
      assert t.tape[..|sh.tape|] == sh.tape;
    }
  }

  lemma ErrorHasEffect(c: Setup, sh: Shared, id: Id, answer: ClientResult, e: Env)
    requires answer.TimedOut? || answer.CallError?
    ensures var k := sh.counters.(errors := sh.counters.errors + 1,
                                  timeouts := sh.counters.timeouts + One(answer.TimedOut?));
      ErrorEffect(sh, id, e, if answer.TimedOut? then "candidate_timeout" else "candidate_error",
                  if answer.TimedOut? then "timeout: " + answer.msg else answer.msg,
                  RunToEnd(c, sh.(counters := k), Failing(id, answer, e.latency), e))
  {
    RunFailing(c, sh.(counters := sh.counters.(errors := sh.counters.errors + 1,
                                               timeouts := sh.counters.timeouts + One(answer.TimedOut?))),
               id, answer, e.latency, e);
    SliceIsFirst(Complaint(answer));
  }

  lemma EvaluatedHasEffect(c: Setup, sh: Shared, id: Id, rec: Row, d: Done, e: Env)
    requires d.result.verdict in {Match, Mismatch, InvalidJson} && d.latency == e.latency
    ensures VerdictEffect(c, sh, id, rec, d, e, RunToEnd(c, sh, Evaluated(c, id, rec, d), e))
  {
    FinishEffect(c, sh, id, rec, d, e);
    RunEvaluated(c, sh, id, rec, d, e);
  }

  lemma AfterCallHasEffect(c: Setup, sh: Shared, id: Id, rec: Row, body: Option<RawStore.Payload>, e: Env)
    ensures var next := AfterCall(c, sh, id, rec, body, Interpret(c.intLike, e.llm), e.latency);
      AnswerEffect(c, sh, id, rec, body, e, RunToEnd(c, next.0, next.1, e))
  {
    var answer := Interpret(c.intLike, e.llm);
    match answer
    case TimedOut(_) => ErrorHasEffect(c, sh, id, answer, e);
    case CallError(_, _) => ErrorHasEffect(c, sh, id, answer, e);
    case Raised =>
    case Response(content, response) =>
      var primary := PrimaryText(body);
      if primary.Some? {
        var d := Compare(c, primary.value, content, response, e.latency, body.Some?);
        VerdictMeaning(c.lib, c.settings, primary.value, content);
        EvaluatedHasEffect(c, sh, id, rec, d, e);
      }
  }

  /** The stretches, back to back, have these effects. */
  lemma RunHasAnswerEffect(c: Setup, sh: Shared, id: Id, rec: Row, body: Option<RawStore.Payload>, e: Env)
    ensures AnswerEffect(c, sh, id, rec, body, e, RunToEnd(c, sh, Calling(id, rec, body), e))
  {
    RunCalling(c, sh, id, rec, body, e);
    AfterCallHasEffect(c, sh, id, rec, body, e);
  }

  lemma MarkedHasEffect(c: Setup, sh: Shared, id: Id, e: Env)
    requires e.getOk && id in sh.rows && sh.rows[id].primary.status == Succeeded
    ensures JobEffect(c, sh, id, e, RunToEnd(c, sh, Marking(id, sh.rows[id]), e))
  {
    var row := sh.rows[id];
    RunMarking(c, sh, id, row, e);
    RunHasAnswerEffect(c, sh.(rows := Mark(sh.rows, id, e.now)), id, row,
                       LoadBody(c, sh.raw, row.primary.rawKey, e.loadOk), e);
  }

  lemma RunHasJobEffect(c: Setup, sh: Shared, id: Id, e: Env)
    ensures JobEffect(c, sh, id, e, RunToEnd(c, sh, Reading(id), e))
  {
    RunReading(c, sh, id, e);
    if e.getOk && id in sh.rows && sh.rows[id].primary.status == Succeeded { MarkedHasEffect(c, sh, id, e); }
  }

  lemma SameTapeRow(tape: seq<TapeRow>, a: seq<TapeRow>, b: seq<TapeRow>, id: Id, rec: Row, d: Done, f: Done)
    requires OneMore(tape, a, id, rec, d) && OneMore(tape, b, id, rec, f)
    requires d.result == f.result && d.primary == f.primary && d.candidate == f.candidate && d.latency == f.latency
    ensures a == b
  {
    assert a == a[..|tape|] + [a[|tape|]] && b == b[..|tape|] + [b[|tape|]];
  }

  lemma OneVerdictEffect(c: Setup, sh: Shared, id: Id, rec: Row, d: Done, f: Done, e: Env, t: Shared, u: Shared)
    requires id in sh.rows && VerdictEffect(c, sh, id, rec, d, e, t) && VerdictEffect(c, sh, id, rec, f, e, u)
    requires d.result == f.result && d.primary == f.primary && d.candidate == f.candidate
    requires d.latency == f.latency && d.response == f.response
    ensures t == u
  {
    if e.finalizeOk && d.result.verdict in {Mismatch, InvalidJson} {
      SameTapeRow(sh.tape, t.tape, u.tape, id, rec, d, f);
    }
  }

  /** The effects of a job leave no choice: they say everything about what it leaves behind. */
  lemma OneJobEffect(c: Setup, sh: Shared, id: Id, e: Env, t: Shared)
    requires JobEffect(c, sh, id, e, t)
    ensures t == RunToEnd(c, sh, Reading(id), e)
  {
    var u := RunToEnd(c, sh, Reading(id), e);
    RunHasJobEffect(c, sh, id, e);
    if e.getOk && id in sh.rows && sh.rows[id].primary.status == Succeeded && e.markOk {
      var row, key := sh.rows[id], sh.rows[id].primary.rawKey;
      var marked := sh.(rows := sh.rows[id := Marked(row, e.now)]);
      var body := if c.archive && key.Some? && key.value in sh.raw && e.loadOk then Some(sh.raw[key.value]) else None;
      OneAnswerEffect(c, marked, id, row, body, e, t, u);
    }
  }

  lemma OneAnswerEffect(c: Setup, sh: Shared, id: Id, rec: Row, body: Option<RawStore.Payload>, e: Env,
                        t: Shared, u: Shared)
    requires id in sh.rows && AnswerEffect(c, sh, id, rec, body, e, t) && AnswerEffect(c, sh, id, rec, body, e, u)
    ensures t == u
  {
    var answer := Interpret(c.intLike, e.llm);
    if answer.Response? && PrimaryText(body).Some? {
      var primary, content := PrimaryText(body).value, answer.content;
      var d :| VerdictEffect(c, sh, id, rec, d, e, t) && d.result == Evaluation(c.lib, c.settings, primary, content)
               && d.primary == primary && d.candidate == content && d.response == answer.raw && d.latency == e.latency;
      var f :| VerdictEffect(c, sh, id, rec, f, e, u) && f.result == Evaluation(c.lib, c.settings, primary, content)
               && f.primary == primary && f.candidate == content && f.response == answer.raw && f.latency == e.latency;
      OneVerdictEffect(c, sh, id, rec, d, f, e, t, u);
    }
  }

  class CandidateHandler {
    const setup: Setup
    const store: SqlComparisonStore
    const raw: ObjectStore
    const tape: MismatchTape
    const counters: RtCounters

    constructor (setup: Setup, store: SqlComparisonStore, raw: ObjectStore, tape: MismatchTape, counters: RtCounters)
      ensures this.setup == setup && this.store == store && this.raw == raw && this.tape == tape
        && this.counters == counters
    {
      this.setup, this.store, this.raw, this.tape, this.counters := setup, store, raw, tape, counters;
    }

    ghost function State(): Shared
      reads store, raw, tape, counters
    {
      Shared(store.rows, raw.objects, counters.value, tape.offered)
    }

    /**
     * `__call__`: one job from the first read to the last count. Run without interference it leaves exactly
     * the state that the step-by-step account of the handler ends in.
     */
    method Call(id: Id, e: Env)
      requires tape.Valid()
      modifies store, raw, tape, counters
      ensures tape.Valid()
      ensures State() == RunToEnd(setup, old(State()), Reading(id), e)
      ensures JobEffect(setup, old(State()), id, e, State())
    {
      RunHasJobEffect(setup, State(), id, e);
      RunReading(setup, State(), id, e);
      if !e.getOk || id !in store.rows { return; }
      var record := store.rows[id];
      if record.primary.status != Succeeded {
        if e.finalizeOk { store.FinalizeRow(id, DroppedPatch(e.now), e.now); }
        return;
      }
      RunMarking(setup, State(), id, record, e);
      if !e.markOk { return; }
      store.MarkInProgress(id, e.now);
      var body := LoadRequestBody(record.primary.rawKey, e.loadOk);
      RunCalling(setup, State(), id, record, body, e);
      AskAndEvaluate(id, record, body, e);
    }

    /** The candidate call and what follows from its answer. */
    method AskAndEvaluate(id: Id, record: Row, body: Option<RawStore.Payload>, e: Env)
      requires tape.Valid()
      modifies store, raw, tape, counters
      ensures tape.Valid()
      ensures State() ==
        var r := AfterCall(setup, old(State()), id, record, body, Interpret(setup.intLike, e.llm), e.latency);
        RunToEnd(setup, r.0, r.1, e)
      ensures AnswerEffect(setup, old(State()), id, record, body, e, State())
    {
      var answer := Interpret(setup.intLike, e.llm);
      ghost var next := AfterCall(setup, State(), id, record, body, answer, e.latency);
      match answer {
        case TimedOut(msg) =>
          RunFailing(setup, next.0, id, answer, e.latency, e);
          FinalizeError(id, "timeout: " + msg, true, e);
          assert State() == RunToEnd(setup, next.0, next.1, e);
        case CallError(msg, _) =>
          RunFailing(setup, next.0, id, answer, e.latency, e);
          FinalizeError(id, msg, false, e);
          assert State() == RunToEnd(setup, next.0, next.1, e);
        case Raised =>
        case Response(content, response) =>
          var primary := PrimaryText(body);
          if primary.Some? {
            var result := Evaluate(setup.lib, setup.settings, primary.value, content);
            var done := Done(result, primary.value, content, response, e.latency, body.Some?, None);
            RunEvaluated(setup, State(), id, record, done, e);
            Finish(id, record, done, e);
          }
      }
      AfterCallHasEffect(setup, old(State()), id, record, body, e);
    }

    /** `_load_request_body`. */
    method LoadRequestBody(key: Option<string>, up: bool) returns (body: Option<RawStore.Payload>)
      ensures body == LoadBody(setup, raw.objects, key, up)
    {
      if key.None? || !setup.archive { return None; }
      body := raw.Get(key.value, up);
    }

    /** `_finalize_error`: counted before the row is written. */
    method FinalizeError(id: Id, error: string, late: bool, e: Env)
      modifies store, counters
      ensures counters.value == old(counters.value).(
        errors := old(counters.value).errors + 1,
        timeouts := old(counters.value).timeouts + (if late then 1 else 0))
      ensures ErrorEffect(Shared(old(store.rows), raw.objects, old(counters.value), tape.offered), id, e,
                          if late then "candidate_timeout" else "candidate_error", error, State())
      ensures store.rows ==
        if e.finalizeOk then Finalize(old(store.rows), id, ErrorPatch(error, late, e.latency, e.now), e.now)
        else old(store.rows)
    {
      SliceIsFirst(error);
      counters.value := counters.value.(errors := counters.value.errors + 1);
      if late { counters.value := counters.value.(timeouts := counters.value.timeouts + 1); }
      if e.finalizeOk { store.FinalizeRow(id, ErrorPatch(error, late, e.latency, e.now), e.now); }
    }

    /** `_merge_candidate_into_raw`: read, modify, write; failures are swallowed. */
    method MergeCandidateIntoRaw(key: Option<string>, response: Json.Json, e: Env)
      modifies raw
      ensures MergeEffect(setup, old(raw.objects), key, response, e, raw.objects)
      ensures raw.objects ==
        var p := LoadBody(setup, old(raw.objects), key, e.mergeGetOk);
        if p.Some? && e.mergePutOk then Merged(old(raw.objects), key.value, p.value, response, e.today)
        else old(raw.objects)
    {
      if key.None? || !setup.archive { return; }
      var p := raw.Get(key.value, e.mergeGetOk);
      if p.None? { return; }
      var payload := p.value.(candidateResponse := Some(response));
      var _ := raw.Put(IdOfKey(key.value), payload, e.today, e.mergePutOk);
    }

    /** The end of a successful job: merge, finalize, count, and offer to the tape. */
    method Finish(id: Id, record: Row, done: Done, e: Env)
      requires tape.Valid()
      modifies store, raw, tape, counters
      ensures tape.Valid()
      ensures done.result.verdict in {Match, Mismatch, InvalidJson} && done.latency == e.latency ==>
        VerdictEffect(setup, old(State()), id, record, done, e, State())
      ensures State() == AfterClose(AfterMerge(setup, old(State()), record, done, e), id, record, done, e)
    {
      if done.result.verdict in {Match, Mismatch, InvalidJson} && done.latency == e.latency {
        FinishEffect(setup, State(), id, record, done, e);
      }
      MergeCandidateIntoRaw(record.primary.rawKey, done.response, e);
      if !e.finalizeOk { return; }
      store.FinalizeRow(id, OkPatch(done, e.now), e.now);
      var verdict := done.result.verdict;
      if verdict in {Match, Mismatch, InvalidJson} {
        counters.value := Counted(counters.value, verdict);
      }
      if verdict in {Mismatch, InvalidJson} {
        var _ := tape.Offer(RowForTape(id, record, done));
      }
    }
  }
}
