/** `pipeline.py`, cut at its `await` points: what each uninterrupted stretch of code does to shared state. */
module Pipeline {
  import opened Prelude
  import opened Json
  import opened Evaluator
  import opened Llm
  import opened RawStore
  import opened Rows
  import opened Tape

  /** Wiring that does not change while the process runs. `archive` is false when no raw store is configured. */
  datatype Setup = Setup(lib: PyLib, settings: Settings, intLike: Json -> bool, archive: bool, failClosed: bool)

  /** `rt_counters`. */
  datatype Counters = Counters(
    total: nat, success: nat, enqueued: nat, sampledOut: nat, errors: nat, timeouts: nat,
    matches: nat, mismatches: nat, invalid: nat)

  const ZERO := Counters(0, 0, 0, 0, 0, 0, 0, 0, 0)

  /** The state every actor of the process can touch. */
  datatype Shared = Shared(rows: Table, raw: Archive, counters: Counters, tape: seq<TapeRow>)

  // ---------- the request side ----------

  datatype Request = Request(
    id: Id, receivedAt: int, body: Json, route: string, tenant: Option<string>, session: Option<string>,
    requestHash: string, primaryModel: string, candidateModel: string)

  datatype PrimaryOutcome = PrimaryOutcome(
    status: PrimaryStatus, latency: int, content: string, raw: Option<Json>, error: Option<string>, code: Option<int>)

  /** `run_primary`; nothing when the client raises something other than `LLMCallError`. */
  function RunPrimary(c: Setup, post: PostOutcome, latency: int): Option<PrimaryOutcome> {
    match Interpret(c.intLike, post)
    case Response(content, raw) => Some(PrimaryOutcome(Succeeded, latency, content, Some(raw), None, None))
    case TimedOut(msg) => Some(PrimaryOutcome(Late, latency, "", None, Some(msg), None))
    case CallError(msg, code) => Some(PrimaryOutcome(Failed, latency, "", None, Some(msg), code))
    case Raised => None
  }

  /** `extract_action` with its default key. */
  function ExtractAction(lib: PyLib, content: string): Option<string> {
    var stripped := Fence.StripCodeFence(content);
    if stripped == "" then None
    else match lib.loads(stripped)
      case DecodeError(_) => None
      case Parsed(obj) =>
        if !obj.Obj? then None
        else match Lookup(obj.fields, "action")
          case None => None
          case Some(val) => if val.Null? then None else Some(lib.str(val))
  }

  /**
   * The action stored with a row is what the text shows under "action", and what the evaluator reports for the
   * primary side is what it shows under the key compared; where that key is "action" they are the same.
   */
  lemma StoredActionIsShown(lib: PyLib, s: Settings, primary: string, candidate: string)
    ensures ExtractAction(lib, primary) == Shown(lib, Action(lib, "action", primary))
    ensures Judge(lib, s, primary, candidate) != InvalidJson ==>
      Evaluation(lib, s, primary, candidate).primaryAction == Shown(lib, Action(lib, s.compareKey, primary))
  {
  }

  function ColumnsOf(c: Setup, r: Request, out: PrimaryOutcome, key: Option<string>): PrimaryColumns {
    var action := if out.status == Succeeded then ExtractAction(c.lib, out.content) else None;
    PrimaryColumns(r.receivedAt, r.route, r.tenant, r.session, r.requestHash, key, r.primaryModel,
                   out.status, out.latency, action, out.error, r.candidateModel)
  }

  /** Every column written at insert, from the request, the primary call and the archive's answer. */
  ghost predicate Recorded(lib: PyLib, r: Request, out: PrimaryOutcome, key: Option<string>, p: PrimaryColumns) {
    && p.receivedAt == r.receivedAt && p.route == r.route && p.tenant == r.tenant && p.session == r.session
    && p.requestHash == r.requestHash && p.rawKey == key
    && p.primaryModel == r.primaryModel && p.candidateModel == r.candidateModel
    && p.status == out.status && p.latency == out.latency && p.error == out.error
    && p.action == if out.status == Succeeded then Shown(lib, Action(lib, "action", out.content)) else None
  }

  /** What is kept of the primary call, from how it ended. */
  ghost predicate Reports(answer: ClientResult, latency: int, out: PrimaryOutcome) {
    && out.latency == latency
    && match answer
       case Response(content, raw) =>
         && out.status == Succeeded && out.content == content && out.raw == Some(raw)
         && out.error == None && out.code == None
       case TimedOut(msg) =>
         && out.status == Late && out.content == "" && out.raw == None
         && out.error == Some(msg) && out.code == None
       case CallError(msg, code) =>
         && out.status == Failed && out.content == "" && out.raw == None
         && out.error == Some(msg) && out.code == code
       case Raised => false
  }

  lemma ColumnsRecord(c: Setup, r: Request, out: PrimaryOutcome, key: Option<string>)
    ensures Recorded(c.lib, r, out, key, ColumnsOf(c, r, out, key))
  {
    StoredActionIsShown(c.lib, c.settings, out.content, "");
  }

  function PayloadOf(r: Request, out: PrimaryOutcome, now: int): RawStore.Payload {
    RawStore.Payload(r.body, r.primaryModel, r.candidateModel, out.raw, None, now)
  }

  // ---------- the candidate side ----------

  /**
   * What the evaluator and the candidate said about one job. `loaded` tells whether the archive was readable,
   * `merged` under which key the response has been archived, if its merge has succeeded.
   */
  datatype Done = Done(
    result: EvaluationResult, primary: string, candidate: string, response: Json, latency: int, loaded: bool,
    merged: Option<string>)

  /** Where a worker waits. */
  datatype Worker =
    | Idle
    | Reading(id: Id)                                             // store.get
    | Dropping(id: Id)                                            // finalize as dropped
    | Marking(id: Id, rec: Row)                                   // mark_in_progress
    | Loading(id: Id, rec: Row)                                   // raw_store.get
    | Calling(id: Id, rec: Row, body: Option<RawStore.Payload>)   // the candidate model
    | Failing(id: Id, answer: ClientResult, latency: int)         // finalize as error
    | MergeGet(id: Id, rec: Row, done: Done)                      // raw_store.get for the merge
    | MergePut(id: Id, rec: Row, done: Done, payload: RawStore.Payload)
    | Closing(id: Id, rec: Row, done: Done)                       // finalize as ok
    | Counting(id: Id, rec: Row, done: Done)                      // committed, not yet counted

  /** How the outside world answers the awaited calls of one job. */
  datatype Env = Env(
    getOk: bool, markOk: bool, loadOk: bool, llm: PostOutcome, mergeGetOk: bool, mergePutOk: bool, finalizeOk: bool,
    today: Date, now: int, latency: int)

  function DroppedPatch(now: int): FinalizePatch {
    FinalizePatch(Dropped, PrimaryError, ["primary_error_no_shadow"], None, None, None, Some(now), None)
  }

  function ErrorPatch(error: string, late: bool, latency: int, now: int): FinalizePatch {
    FinalizePatch(Error, CandidateError, [if late then "candidate_timeout" else "candidate_error"],
                  Some(latency), None, Some(error[..Min(1000, |error|)]), Some(now), None)
  }

  function First1000(text: string): string { if |text| <= 1000 then text else text[..1000] }

  lemma SliceIsFirst(text: string)
    ensures text[..Min(1000, |text|)] == First1000(text)
  {
  }

  /** The error text of an answer that is a failure. */
  function Complaint(answer: ClientResult): string {
    match answer
    case TimedOut(msg) => "timeout: " + msg
    case CallError(msg, _) => msg
    case _ => ""
  }

  function OkPatch(d: Done, now: int): FinalizePatch {
    FinalizePatch(Ok, d.result.verdict, d.result.reasons,
                  Some(d.latency), d.result.candidateAction, None, Some(now), None)
  }

  function StalePatch(now: int): FinalizePatch {
    FinalizePatch(TimeoutStale, CandidateError, ["timeout_stale"], None, None, None, Some(now), None)
  }

  /** `_load_request_body`, nothing standing for the empty dict. */
  function LoadBody(c: Setup, raw: Archive, key: Option<string>, up: bool): Option<RawStore.Payload> {
    if c.archive && key.Some? && up && key.value in raw then Some(raw[key.value]) else None
  }

  function PrimaryText(body: Option<RawStore.Payload>): Option<string> {
    ContentOf(if body.Some? then body.value.primaryResponse else None)
  }

  /** The payload the merge writes, and where. */
  function Merged(raw: Archive, key: string, p: RawStore.Payload, response: Json, today: Date): Archive {
    raw[KeyFor(today, IdOfKey(key)) := p.(candidateResponse := Some(response))]
  }

  function Counted(k: Counters, v: Verdict): Counters {
    match v
    case Match => k.(matches := k.matches + 1)
    case Mismatch => k.(mismatches := k.mismatches + 1)
    case InvalidJson => k.(invalid := k.invalid + 1)
    case _ => k
  }

  function RowForTape(id: Id, rec: Row, d: Done): TapeRow {
    TapeRow(id, d.result.verdict, rec.primary.action, d.result.candidateAction, d.primary, d.candidate,
            rec.primary.latency, d.latency, d.result.reasons)
  }

  /** The tape row says about one job what its table row and its evaluation say, each text on its own side. */
  ghost predicate Repeats(row: TapeRow, id: Id, primary: PrimaryColumns, d: Done) {
    && row.requestId == id && row.verdict == d.result.verdict && row.reasons == d.result.reasons
    && row.primaryContent == d.primary && row.candidateContent == d.candidate
    && row.primaryAction == primary.action && row.candidateAction == d.result.candidateAction
    && row.primaryLatency == primary.latency && row.candidateLatency == d.latency
  }

  function Taped(tape: seq<TapeRow>, id: Id, rec: Row, d: Done): seq<TapeRow> {
    if d.result.verdict in {Mismatch, InvalidJson} then tape + [RowForTape(id, rec, d)] else tape
  }

  /** The awaited call of this stretch makes the handler raise. */
  predicate Raises(c: Setup, w: Worker, e: Env) {
    match w
    case Reading(_) => !e.getOk
    case Marking(_, _) => !e.markOk
    case Calling(_, _, body) =>
      var r := Interpret(c.intLike, e.llm);
      r.Raised? || (r.Response? && PrimaryText(body).None?)
    case Dropping(_) => !e.finalizeOk
    case Failing(_, _, _) => !e.finalizeOk
    case Closing(_, _, _) => !e.finalizeOk
    case _ => false
  }

  /** From one `await` of the handler to the next. `Idle` means that the handler is over. */
  function Move(c: Setup, sh: Shared, w: Worker, e: Env): (r: (Shared, Worker))
    requires !w.Idle?
    ensures Steps(r.1) < Steps(w)
  {
    if Raises(c, w, e) then (sh, Idle) else
    match w
    case Reading(id) =>
      if id !in sh.rows then (sh, Idle)
      else if sh.rows[id].primary.status != Succeeded then (sh, Dropping(id))
      else (sh, Marking(id, sh.rows[id]))
    case Dropping(id) => (sh.(rows := Finalize(sh.rows, id, DroppedPatch(e.now), e.now)), Idle)
    case Marking(id, rec) => (sh.(rows := Mark(sh.rows, id, e.now)), Loading(id, rec))
    case Loading(id, rec) => (sh, Calling(id, rec, LoadBody(c, sh.raw, rec.primary.rawKey, e.loadOk)))
    case Calling(id, rec, body) => AfterCall(c, sh, id, rec, body, Interpret(c.intLike, e.llm), e.latency)
    case Failing(id, answer, latency) =>
      (sh.(rows := Finalize(sh.rows, id, ErrorPatch(Complaint(answer), answer.TimedOut?, latency, e.now), e.now)), Idle)
    case MergeGet(id, rec, done) =>
      var p := LoadBody(c, sh.raw, rec.primary.rawKey, e.mergeGetOk);
      (sh, if p.Some? then MergePut(id, rec, done, p.value) else Closing(id, rec, done))
    case MergePut(id, rec, done, payload) =>
      if e.mergePutOk && rec.primary.rawKey.Some? then
        (sh.(raw := Merged(sh.raw, rec.primary.rawKey.value, payload, done.response, e.today)),
         Closing(id, rec, done.(merged := Some(KeyFor(e.today, IdOfKey(rec.primary.rawKey.value))))))
      else (sh, Closing(id, rec, done))
    case Closing(id, rec, done) =>
      (sh.(rows := Finalize(sh.rows, id, OkPatch(done, e.now), e.now)), Counting(id, rec, done))
    case Counting(id, rec, done) =>
      (sh.(counters := Counted(sh.counters, done.result.verdict),
           tape := Taped(sh.tape, id, rec, done)), Idle)
  }

  /** The stretch after the candidate model has answered: count and fail, or evaluate. */
  function AfterCall(c: Setup, sh: Shared, id: Id, rec: Row, body: Option<RawStore.Payload>, answer: ClientResult,
                     latency: int)
    : (r: (Shared, Worker))
    ensures Steps(r.1) < 5
  {
    var k := sh.counters;
    match answer
    case TimedOut(_) =>
      (sh.(counters := k.(errors := k.errors + 1, timeouts := k.timeouts + 1)),
       Failing(id, answer, latency))
    case CallError(_, _) => (sh.(counters := k.(errors := k.errors + 1)), Failing(id, answer, latency))
    case Raised => (sh, Idle)
    case Response(content, raw) =>
      var primary := PrimaryText(body);
      if primary.None? then (sh, Idle)
      else (sh, Evaluated(c, id, rec, Compare(c, primary.value, content, raw, latency, body.Some?)))
  }

  /** The evaluator's part. */
  function Compare(c: Setup, primary: string, candidate: string, response: Json, latency: int, loaded: bool): Done {
    Done(Evaluation(c.lib, c.settings, primary, candidate), primary, candidate, response, latency, loaded, None)
  }

  /** With an archive the response is merged first. */
  function Evaluated(c: Setup, id: Id, rec: Row, done: Done): Worker {
    if c.archive && rec.primary.rawKey.Some? then MergeGet(id, rec, done) else Closing(id, rec, done)
  }

  /** An upper bound on the stretches a handler still has to run. */
  function Steps(w: Worker): nat {
    match w
    case Idle => 0
    case Counting(_, _, _) => 1
    case Dropping(_) => 1
    case Failing(_, _, _) => 1
    case Closing(_, _, _) => 2
    case MergePut(_, _, _, _) => 3
    case MergeGet(_, _, _) => 4
    case Calling(_, _, _) => 5
    case Loading(_, _) => 6
    case Marking(_, _) => 7
    case Reading(_) => 8
  }

  /** A whole handler run with nothing else going on: its stretches back to back. */
  function RunToEnd(c: Setup, sh: Shared, w: Worker, e: Env): Shared
    decreases Steps(w)
  {
    if w.Idle? then sh else var (next, w') := Move(c, sh, w, e); RunToEnd(c, next, w', e)
  }

  // The same run, one decision at a time.

  lemma RunDropping(c: Setup, sh: Shared, id: Id, e: Env)
    ensures RunToEnd(c, sh, Dropping(id), e)
      == if e.finalizeOk then sh.(rows := Finalize(sh.rows, id, DroppedPatch(e.now), e.now)) else sh
  {
  }

  lemma RunReading(c: Setup, sh: Shared, id: Id, e: Env)
    ensures !e.getOk || id !in sh.rows ==> RunToEnd(c, sh, Reading(id), e) == sh
    ensures e.getOk && id in sh.rows && sh.rows[id].primary.status != Succeeded ==>
      RunToEnd(c, sh, Reading(id), e)
        == if e.finalizeOk then sh.(rows := Finalize(sh.rows, id, DroppedPatch(e.now), e.now)) else sh
    ensures e.getOk && id in sh.rows && sh.rows[id].primary.status == Succeeded ==>
      RunToEnd(c, sh, Reading(id), e) == RunToEnd(c, sh, Marking(id, sh.rows[id]), e)
  {
    if e.getOk && id in sh.rows && sh.rows[id].primary.status != Succeeded {
      RunDropping(c, sh, id, e);
    }
  }

  lemma RunMarking(c: Setup, sh: Shared, id: Id, rec: Row, e: Env)
    ensures RunToEnd(c, sh, Marking(id, rec), e)
      == if !e.markOk then sh
         else RunToEnd(c, sh.(rows := Mark(sh.rows, id, e.now)),
                       Calling(id, rec, LoadBody(c, sh.raw, rec.primary.rawKey, e.loadOk)), e)
  {
  }

  lemma RunFailing(c: Setup, sh: Shared, id: Id, answer: ClientResult, latency: int, e: Env)
    ensures RunToEnd(c, sh, Failing(id, answer, latency), e)
      == if e.finalizeOk
         then sh.(rows := Finalize(sh.rows, id, ErrorPatch(Complaint(answer), answer.TimedOut?, latency, e.now), e.now))
         else sh
  {
  }

  lemma RunCalling(c: Setup, sh: Shared, id: Id, rec: Row, body: Option<RawStore.Payload>, e: Env)
    ensures RunToEnd(c, sh, Calling(id, rec, body), e) ==
      var r := AfterCall(c, sh, id, rec, body, Interpret(c.intLike, e.llm), e.latency);
      RunToEnd(c, r.0, r.1, e)
  {
  }

  function AfterMerge(c: Setup, sh: Shared, rec: Row, done: Done, e: Env): Shared {
    var p := LoadBody(c, sh.raw, rec.primary.rawKey, e.mergeGetOk);
    if p.Some? && e.mergePutOk
    then sh.(raw := Merged(sh.raw, rec.primary.rawKey.value, p.value, done.response, e.today))
    else sh
  }

  function AfterClose(sh: Shared, id: Id, rec: Row, done: Done, e: Env): Shared {
    if !e.finalizeOk then sh
    else sh.(rows := Finalize(sh.rows, id, OkPatch(done, e.now), e.now),
             counters := Counted(sh.counters, done.result.verdict), tape := Taped(sh.tape, id, rec, done))
  }

  lemma RunCounting(c: Setup, sh: Shared, id: Id, rec: Row, done: Done, e: Env)
    ensures RunToEnd(c, sh, Counting(id, rec, done), e) == Move(c, sh, Counting(id, rec, done), e).0
  {
  }

  lemma RunClosing(c: Setup, sh: Shared, id: Id, rec: Row, done: Done, e: Env)
    ensures RunToEnd(c, sh, Closing(id, rec, done), e) == AfterClose(sh, id, rec, done, e)
  {
    if e.finalizeOk {
      RunCounting(c, sh.(rows := Finalize(sh.rows, id, OkPatch(done, e.now), e.now)), id, rec, done, e);
    }
  }

  lemma RunMerging(c: Setup, sh: Shared, id: Id, rec: Row, done: Done, e: Env)
    ensures RunToEnd(c, sh, MergeGet(id, rec, done), e) == AfterClose(AfterMerge(c, sh, rec, done, e), id, rec, done, e)
  {
    var after := AfterMerge(c, sh, rec, done, e);
    var p := LoadBody(c, sh.raw, rec.primary.rawKey, e.mergeGetOk);
    RunClosing(c, after, id, rec, done, e);
    if p.Some? {
      var put := Move(c, sh, MergePut(id, rec, done, p.value), e);
      RunClosing(c, after, id, rec, put.1.done, e);
      assert RunToEnd(c, sh, MergeGet(id, rec, done), e) == RunToEnd(c, sh, MergePut(id, rec, done, p.value), e);
    }
  }

  lemma RunEvaluated(c: Setup, sh: Shared, id: Id, rec: Row, done: Done, e: Env)
    ensures RunToEnd(c, sh, Evaluated(c, id, rec, done), e)
      == AfterClose(AfterMerge(c, sh, rec, done, e), id, rec, done, e)
  {
    if c.archive && rec.primary.rawKey.Some? {
      RunMerging(c, sh, id, rec, done, e);
    } else {
      RunClosing(c, sh, id, rec, done, e);
    }
  }
}
