/** `api/v1/chat.py` with `persist_pending` of `pipeline.py`: from a request to its answer. */
module Chat {
  import opened Prelude
  import opened Evaluator
  import opened Llm
  import opened RawStore
  import opened Rows
  import opened Dispatcher
  import opened Pipeline
  import opened Handler

  /** How the outside world answers the awaited calls of one request; `sampled` is the outcome of the sampling draw. */
  datatype ChatEnv = ChatEnv(
    post: PostOutcome, latency: int, putOk: bool, insertOk: bool, sampled: bool, today: Date, now: int)

  /** Where a request waits, and how it ends. */
  datatype ChatState =
    | AtPrimary(r: Request)
    | AtArchive(r: Request, out: PrimaryOutcome)
    | AtInsert(r: Request, out: PrimaryOutcome, key: Option<string>)
    | AtGate(r: Request, out: PrimaryOutcome, key: Option<string>)
    | Broken(r: Request)                                                       // an exception: status 500
    | Answered(r: Request, out: PrimaryOutcome, key: Option<string>, code: int)

  predicate Open(s: ChatState) { !s.Broken? && !s.Answered? }

  /** The bounded queue the gate offers to. */
  datatype Line = Line(policy: Policy, capacity: nat, queue: seq<Id>)

  function StatusCode(out: PrimaryOutcome): int {
    match out.status
    case Succeeded => 200
    case Late => 504
    case Failed => if out.code == Some(401) || out.code == Some(403) then out.code.value else 502
  }

  function ArchivePut(c: Setup, raw: Archive, r: Request, out: PrimaryOutcome, e: ChatEnv): (Archive, Option<string>) {
    if c.archive && e.putOk then (raw[KeyFor(e.today, r.id) := PayloadOf(r, out, e.now)], Some(KeyFor(e.today, r.id)))
    else (raw, None)
  }

  predicate Inserts(rows: Table, id: Id, e: ChatEnv) { e.insertOk && id !in rows }

  predicate Sent(l: Line, sampled: bool) { sampled && Answer(l.policy, l.capacity, l.queue).Enqueued? }

  /** The counters after `_shadow_gate`. */
  function Gated(k: Counters, sampled: bool, sent: bool): Counters {
    k.(total := k.total + 1, success := k.success + 1,
       enqueued := k.enqueued + (if sent then 1 else 0),
       sampledOut := k.sampledOut + (if !sampled then 1 else 0))
  }

  /** From one `await` of the request handler to the next. */
  function ChatMove(c: Setup, sh: Shared, l: Line, s: ChatState, e: ChatEnv): (Shared, Line, ChatState)
    requires Open(s)
  {
    match s
    case AtPrimary(r) =>
      var out := RunPrimary(c, e.post, e.latency);
      (sh, l, if out.None? then Broken(r) else AtArchive(r, out.value))
    case AtArchive(r, out) =>
      var (raw, key) := ArchivePut(c, sh.raw, r, out, e);
      (sh.(raw := raw), l, AtInsert(r, out, key))
    case AtInsert(r, out, key) =>
      if Inserts(sh.rows, r.id, e) then
        (sh.(rows := sh.rows[r.id := Inserted(ColumnsOf(c, r, out, key))]), l, AtGate(r, out, key))
      else (sh, l, if c.failClosed then Broken(r) else AtGate(r, out, key))
    case AtGate(r, out, key) =>
      if out.status != Succeeded then (sh, l, Answered(r, out, key, StatusCode(out)))
      else
        (sh.(counters := Gated(sh.counters, e.sampled, Sent(l, e.sampled))),
         if e.sampled then l.(queue := Offer(l.policy, l.capacity, l.queue, r.id)) else l,
         Answered(r, out, key, 200))
  }

  function Left(s: ChatState): nat {
    match s
    case AtPrimary(_) => 4
    case AtArchive(_, _) => 3
    case AtInsert(_, _, _) => 2
    case AtGate(_, _, _) => 1
    case _ => 0
  }

  /** A whole request with nothing else going on. */
  function ServeToEnd(c: Setup, sh: Shared, l: Line, s: ChatState, e: ChatEnv): (Shared, Line, ChatState)
    decreases Left(s)
  {
    if !Open(s) then (sh, l, s) else var (a, b, t) := ChatMove(c, sh, l, s, e); ServeToEnd(c, a, b, t, e)
  }

  // ---------- what one request leaves behind when nothing interferes, told from the answers it gets ----------

  /** The archive and the key after the put. */
  ghost predicate PutEffect(c: Setup, raw: Archive, r: Request, out: PrimaryOutcome, e: ChatEnv,
                            after: Archive, key: Option<string>)
  {
    if c.archive && e.putOk then
      && key == Some(KeyFor(e.today, r.id))
      && after == raw[key.value := RawStore.Payload(
                        request := r.body, primaryModel := r.primaryModel, candidateModel := r.candidateModel,
                        primaryResponse := out.raw, candidateResponse := None, writtenAt := e.now)]
    else key == None && after == raw
  }

  /** The table after the insert: one new pending row, or none. */
  ghost predicate InsertEffect(c: Setup, rows: Table, r: Request, out: PrimaryOutcome, key: Option<string>, e: ChatEnv,
                               after: Table)
  {
    if e.insertOk && r.id !in rows then
      && after.Keys == rows.Keys + {r.id} && (forall id :: id in rows ==> after[id] == rows[id])
      && var row := after[r.id];
         && Recorded(c.lib, r, out, key, row.primary)
         && row.status == Pending && row.verdict == (if out.status == Succeeded then NoVerdict else PrimaryError)
         && row.reasons == [] && row.latency == None && row.action == None && row.error == None
         && row.attempts == 0 && row.attemptedAt == None && row.evaluatedAt == None
    else after == rows
  }

  /** Counters and queue after the gate. */
  ghost predicate GateEffect(k: Counters, l: Line, id: Id, sampled: bool, sent: bool, after: Counters, m: Line) {
    && sent == (sampled && (|l.queue| < l.capacity || (l.policy == DropOld && l.queue != [])))
    && after == k.(total := k.total + 1, success := k.success + 1,
                   enqueued := if sent then k.enqueued + 1 else k.enqueued,
                   sampledOut := if sampled then k.sampledOut else k.sampledOut + 1)
    && m == l.(queue := if !sent then l.queue
                        else if |l.queue| < l.capacity then l.queue + [id] else l.queue[1..] + [id])
  }

  /** The status of a failed primary call: 504 for a timeout, 401 and 403 as they came, and 502 otherwise. */
  ghost predicate FailureStatus(out: PrimaryOutcome, code: int) {
    && (out.status == Late ==> code == 504)
    && (out.status == Failed && out.code in {Some(401), Some(403)} ==> out.code == Some(code))
    && (out.status == Failed && out.code !in {Some(401), Some(403)} ==> code == 502)
  }

  /** From the end of the primary call to the answer. */
  ghost predicate EndEffect(c: Setup, sh: Shared, l: Line, r: Request, out: PrimaryOutcome, key: Option<string>,
                            sent: bool, e: ChatEnv, t: Shared, m: Line, end: ChatState)
  {
    && PutEffect(c, sh.raw, r, out, e, t.raw, key) && InsertEffect(c, sh.rows, r, out, key, e, t.rows)
    && t.tape == sh.tape
    && if c.failClosed && !(e.insertOk && r.id !in sh.rows) then t.counters == sh.counters && m == l && end == Broken(r)
       else if out.status == Succeeded then
         end == Answered(r, out, key, 200) && GateEffect(sh.counters, l, r.id, e.sampled, sent, t.counters, m)
       else
         && end.Answered? && end == Answered(r, out, key, end.code) && FailureStatus(out, end.code)
         && t.counters == sh.counters && m == l
  }

  /** A whole request. */
  ghost predicate RequestEffect(c: Setup, sh: Shared, l: Line, r: Request, e: ChatEnv,
                                t: Shared, m: Line, end: ChatState)
  {
    var answer := Interpret(c.intLike, e.post);
    if answer.Raised? then t == sh && m == l && end == Broken(r)
    else exists out, key, sent ::
      Reports(answer, e.latency, out) && EndEffect(c, sh, l, r, out, key, sent, e, t, m, end)
  }

  lemma InsertHasEffect(c: Setup, rows: Table, r: Request, out: PrimaryOutcome, key: Option<string>, e: ChatEnv)
    ensures InsertEffect(c, rows, r, out, key, e,
                         if Inserts(rows, r.id, e) then rows[r.id := Inserted(ColumnsOf(c, r, out, key))] else rows)
  {
    ColumnsRecord(c, r, out, key);
  }

  lemma GateHasEffect(c: Setup, sh: Shared, l: Line, r: Request, out: PrimaryOutcome, key: Option<string>, e: ChatEnv)
    requires out.status == Succeeded
    ensures var (t, m, end) := ChatMove(c, sh, l, AtGate(r, out, key), e);
      && end == Answered(r, out, key, 200) && t == sh.(counters := t.counters)
      && GateEffect(sh.counters, l, r.id, e.sampled, Sent(l, e.sampled), t.counters, m)
  {
  }

  lemma RunHasRequestEffect(c: Setup, sh: Shared, l: Line, r: Request, e: ChatEnv)
    ensures var (t, m, end) := ServeToEnd(c, sh, l, AtPrimary(r), e); RequestEffect(c, sh, l, r, e, t, m, end)
  {
    RunServe(c, sh, l, r, e);
    var o := RunPrimary(c, e.post, e.latency);
    if o.Some? {
      var out := o.value;
      var (raw, key) := ArchivePut(c, sh.raw, r, out, e);
      InsertHasEffect(c, sh.rows, r, out, key, e);
      if out.status == Succeeded {
        GateHasEffect(c, sh.(raw := raw), l, r, out, key, e);
        var rows := sh.rows[r.id := Inserted(ColumnsOf(c, r, out, key))];
        GateHasEffect(c, sh.(raw := raw, rows := rows), l, r, out, key, e);
      }
      var (t, m, end) := ServeToEnd(c, sh, l, AtPrimary(r), e);
      assert Reports(Interpret(c.intLike, e.post), e.latency, out);
      assert PutEffect(c, sh.raw, r, out, e, t.raw, key) && InsertEffect(c, sh.rows, r, out, key, e, t.rows);
      assert EndEffect(c, sh, l, r, out, key, Sent(l, e.sampled), e, t, m, end);
    }
  }

  lemma OneInsertEffect(c: Setup, rows: Table, r: Request, out: PrimaryOutcome, key: Option<string>, e: ChatEnv,
                        t: Table, u: Table)
    requires InsertEffect(c, rows, r, out, key, e, t) && InsertEffect(c, rows, r, out, key, e, u)
    ensures t == u
  {
    if e.insertOk && r.id !in rows { assert t[r.id] == u[r.id]; }
  }

  lemma OneEndEffect(c: Setup, sh: Shared, l: Line, r: Request, out: PrimaryOutcome, k: Option<string>, sent: bool,
                     j: Option<string>, other: bool, e: ChatEnv, t: Shared, m: Line, end: ChatState,
                     u: Shared, n: Line, stop: ChatState)
    requires EndEffect(c, sh, l, r, out, k, sent, e, t, m, end)
    requires EndEffect(c, sh, l, r, out, j, other, e, u, n, stop)
    ensures (t, m, end) == (u, n, stop)
  {
    assert k == j && t.raw == u.raw;
    OneInsertEffect(c, sh.rows, r, out, k, e, t.rows, u.rows);
  }

  /** The effects of a request leave no choice: they say everything about what it leaves behind. */
  lemma OneRequestEffect(c: Setup, sh: Shared, l: Line, r: Request, e: ChatEnv, t: Shared, m: Line, end: ChatState)
    requires RequestEffect(c, sh, l, r, e, t, m, end)
    ensures (t, m, end) == ServeToEnd(c, sh, l, AtPrimary(r), e)
  {
    var (u, n, stop) := ServeToEnd(c, sh, l, AtPrimary(r), e);
    RunHasRequestEffect(c, sh, l, r, e);
    var answer := Interpret(c.intLike, e.post);
    if !answer.Raised? {
      var out, key, sent :|
        Reports(answer, e.latency, out) && EndEffect(c, sh, l, r, out, key, sent, e, t, m, end);
      var same, j, other :|
        Reports(answer, e.latency, same) && EndEffect(c, sh, l, r, same, j, other, e, u, n, stop);
      assert out == same;
      OneEndEffect(c, sh, l, r, out, key, sent, j, other, e, t, m, end, u, n, stop);
    }
  }

  /** The status a client sees, from the upstream's answer. */
  ghost predicate Sees(post: PostOutcome, code: int) {
    && (post.PostTimeout? ==> code == 504)
    && (post.TransportError? ==> code == 502)
    && (post.Reply? && post.code >= 400 ==> code == if post.code in {401, 403} then post.code else 502)
    && (post.Reply? && post.code < 400 && post.body.Some? ==> code == if NoChoice(post.body.value) then 502 else 200)
  }

  lemma ClientSees(c: Setup, sh: Shared, l: Line, r: Request, e: ChatEnv)
    ensures var end := ServeToEnd(c, sh, l, AtPrimary(r), e).2; end.Answered? ==> Sees(e.post, end.code)
  {
    RunHasRequestEffect(c, sh, l, r, e);
    InterpretExplains(c.intLike, e.post);
  }

  class ChatEndpoint {
    const setup: Setup
    const store: SqlComparisonStore
    const raw: ObjectStore
    const dispatcher: InProcessDispatcher
    const counters: RtCounters

    constructor (setup: Setup, store: SqlComparisonStore, raw: ObjectStore, dispatcher: InProcessDispatcher,
                 counters: RtCounters)
      ensures this.setup == setup && this.store == store && this.raw == raw && this.dispatcher == dispatcher
              && this.counters == counters
    {
      this.setup, this.store, this.raw, this.dispatcher, this.counters := setup, store, raw, dispatcher, counters;
    }

    ghost function Seen(tape: seq<Tape.TapeRow>): Shared
      reads store, raw, counters
    {
      Shared(store.rows, raw.objects, counters.value, tape)
    }

    ghost function Queue(): Line
      reads dispatcher
    {
      Line(dispatcher.policy, dispatcher.capacity, dispatcher.queue)
    }

    /** `persist_pending`: archive first, best effort; then the row, where `fail_closed` lets a failure out. */
    method PersistPending(r: Request, out: PrimaryOutcome, e: ChatEnv) returns (key: Option<string>, raised: bool)
      modifies store, raw
      ensures PutEffect(setup, old(raw.objects), r, out, e, raw.objects, key)
      ensures InsertEffect(setup, old(store.rows), r, out, key, e, store.rows)
      ensures (raw.objects, key) == ArchivePut(setup, old(raw.objects), r, out, e)
      ensures raised <==> setup.failClosed && !(e.insertOk && r.id !in old(store.rows))
      ensures store.rows == if Inserts(old(store.rows), r.id, e)
                            then old(store.rows)[r.id := Inserted(ColumnsOf(setup, r, out, key))] else old(store.rows)
    {
      key := None;
      if setup.archive {
        key := raw.Put(r.id, PayloadOf(r, out, e.now), e.today, e.putOk);
      }
      var stored := false;
      if e.insertOk {
        stored := store.InsertPending(r.id, ColumnsOf(setup, r, out, key));
      }
      ColumnsRecord(setup, r, out, key);
      raised := !stored && setup.failClosed;
    }

    /** `_shadow_gate`. */
    method ShadowGate(id: Id, sampled: bool) returns (sent: bool)
      requires dispatcher.Valid()
      modifies dispatcher, counters
      ensures dispatcher.Valid()
      ensures GateEffect(old(counters.value), old(Queue()), id, sampled, sent, counters.value, Queue())
      ensures sent == Sent(old(Queue()), sampled)
      ensures dispatcher.queue ==
        if sampled then Offer(dispatcher.policy, dispatcher.capacity, old(dispatcher.queue), id)
        else old(dispatcher.queue)
      ensures counters.value == Gated(old(counters.value), sampled, sent)
    {
      sent := false;
      if sampled {
        var status := dispatcher.Enqueue(id);
        sent := status == Enqueued;
      }
      var k := counters.value.(total := counters.value.total + 1, success := counters.value.success + 1);
      if sent {
        k := k.(enqueued := k.enqueued + 1);
      } else if !sampled {
        k := k.(sampledOut := k.sampledOut + 1);
      }
      counters.value := k;
    }

    /** `chat`, alone: the same end as the step-by-step account. */
    method Chat(r: Request, e: ChatEnv, ghost tape: seq<Tape.TapeRow>) returns (end: ChatState)
      requires dispatcher.Valid()
      modifies store, raw, dispatcher, counters
      ensures dispatcher.Valid()
      ensures RequestEffect(setup, old(Seen(tape)), old(Queue()), r, e, Seen(tape), Queue(), end)
      ensures (Seen(tape), Queue(), end) == ServeToEnd(setup, old(Seen(tape)), old(Queue()), AtPrimary(r), e)
      ensures end.Answered? ==> Sees(e.post, end.code)
    {
      var out := RunPrimary(setup, e.post, e.latency);
      if out.None? {
        end := Broken(r);
      } else {
        var key, raised := PersistPending(r, out.value, e);
        var sent := false;
        if raised {
          end := Broken(r);
        } else if out.value.status != Succeeded {
          end := Answered(r, out.value, key, StatusCode(out.value));
        } else {
          sent := ShadowGate(r.id, e.sampled);
          end := Answered(r, out.value, key, 200);
        }
        assert EndEffect(setup, old(Seen(tape)), old(Queue()), r, out.value, key, sent, e, Seen(tape), Queue(), end);
        assert Reports(Interpret(setup.intLike, e.post), e.latency, out.value);
      }
      OneRequestEffect(setup, old(Seen(tape)), old(Queue()), r, e, Seen(tape), Queue(), end);
      ClientSees(setup, old(Seen(tape)), old(Queue()), r, e);
    }
  }

  /** The run of a request, unrolled. */
  lemma RunServe(c: Setup, sh: Shared, l: Line, r: Request, e: ChatEnv)
    ensures var out := RunPrimary(c, e.post, e.latency);
      ServeToEnd(c, sh, l, AtPrimary(r), e) ==
        if out.None? then (sh, l, Broken(r)) else
          var (raw, key) := ArchivePut(c, sh.raw, r, out.value, e);
          var archived := sh.(raw := raw);
          if Inserts(sh.rows, r.id, e) then
            ChatMove(c, archived.(rows := sh.rows[r.id := Inserted(ColumnsOf(c, r, out.value, key))]), l,
                     AtGate(r, out.value, key), e)
          else if c.failClosed then (archived, l, Broken(r))
          else ChatMove(c, archived, l, AtGate(r, out.value, key), e)
  {
    var out := RunPrimary(c, e.post, e.latency);
    if out.Some? {
      var (raw, key) := ArchivePut(c, sh.raw, r, out.value, e);
      var archived := sh.(raw := raw);
      assert ServeToEnd(c, sh, l, AtPrimary(r), e) == ServeToEnd(c, sh, l, AtArchive(r, out.value), e);
      assert ServeToEnd(c, sh, l, AtArchive(r, out.value), e)
        == ServeToEnd(c, archived, l, AtInsert(r, out.value, key), e);
      var next := ChatMove(c, archived, l, AtInsert(r, out.value, key), e);
      assert ServeToEnd(c, archived, l, AtInsert(r, out.value, key), e) == ServeToEnd(c, next.0, next.1, next.2, e);
      if next.2.AtGate? { ServeGate(c, next.0, next.1, next.2, e); }
    }
  }

  lemma ServeGate(c: Setup, sh: Shared, l: Line, s: ChatState, e: ChatEnv)
    requires s.AtGate?
    ensures ServeToEnd(c, sh, l, s, e) == ChatMove(c, sh, l, s, e)
  {
  }
}
