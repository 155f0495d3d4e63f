# Shadow proxy: a verified model

The shadow proxy answers chat requests with a *primary* model and, in the background, asks a *candidate* model the
same question and records whether the two agree. A row in a SQL table is the durable truth about a request. An object
in an archive holds the full payloads. A bounded in-process queue only tells the workers which rows to look at. Three
actors write the same row with updates that filter on nothing but its id: the request that inserts it, the worker that
processes it and the sweeper that gives up on it. The process may crash at any point and restart.

The project proves what survives all of that.

* **One labelled step system** (`Protocol`): requests, workers, sweeper, crash and restart. A step is one stretch of
  code between two `await` points. Labels carry what the environment decides: what the models answer, which calls of
  the database and the archive fail, the sampling draw, clocks and dates, and which of several allowed query results is
  returned. Everything else is a function of the state. `Enabled` says when a step may happen, `Apply` what it does,
  `Run` and `Reachable` what any number of steps can lead to.
* **Theorems over every run of it**: row coherence (`Coherence`), no unfinished row without a holder or a recorded
  cause (`Accounting`), durability of acknowledged requests (`Durability`), ledgers and counters (`Tallies`), the way
  back from a verdict to what the two models said (`Evidence`, `Verdicts`, `Collisions`, `Answers`, `Merges`), crash
  recovery (`Recovery`), when a finished row is final (`Finality`, `Commits`), and runs that show what is *not* true
  (`Witnesses`, put together from `Scenes`).
* **Theorems over every fair execution without an end**: a recovery in which startup and workers are not held up for
  good completes (`Fairness`), and so does, with the sweeper's help, a process that receives no new requests
  (`Convergence`). That such executions exist is proved beside each.
* **The components as code**: the handler, the endpoint, the dispatcher, the tape, the sweeper, the stores, the
  evaluator and the retry loop are classes and methods with the control flow of the original, proved against the same
  functions that the step system is built from. `Handler.CandidateHandler.Call` and `Chat.ChatEndpoint.Chat`
  are the link: run without interference they end where the steps, back to back, end. What they leave behind is also
  stated a second time, from the answers of the outside world, without those functions (`Handler.JobEffect`,
  `Chat.RequestEffect`), and so are the evaluator, the client and the rows.
* **Components with a theory of their own**: the code fence regex against a declarative reading of the pattern
  (`Fence`), the canonical JSON form (`Canonical`), the compact encoder and a reader for it, after RFC 8259, sections 3
  to 7 (`Encoding`), object keys (`RawStore`), percentiles and summaries (`Summary`).

## Reading order

`Rows`, `RawStore`, `Llm`, `Fence`, `Evaluator` describe values and stores; `Dispatcher`, `Tape` the queues; `Pipeline`
cuts `pipeline.py` at its `await` points; `Handler`, `Chat`, `Sweeper` are the original methods; `Protocol` puts the
actors together. The remaining modules are theorems about it.

`History` in `Protocol` records what happened (which requests arrived, who was answered, what was inserted, why a row
was forgotten, what the candidate answered). No step depends on it, with one exception: two switches of `Config`,
`freshIds` and `slashFree`, say whether clients promise to use every request id once and to put no slash into one.

No result in the table below assumes these promises of all clients. Where an id matters, the condition is about that id:
`Sole` (it has arrived once so far, or `fail_closed` turns repeats away) for everything about jobs and commits, `Alone`
(it has arrived once, and no other id of the run ends in it after a slash) for everything about texts and archived
objects. The switches serve the other direction: `Collisions.OwnTextIff`, `Collisions.ArchiveIsStableIff`,
`Finality.OneHandIff`, `Finality.FinalIff` and `Commits.OneCommitIff` say for which configurations a guarantee holds in
every run.

## Where the code and its documentation disagree

The model follows the code.

* `fail_closed`: a failed insert lets the exception out, so the client sees status 500; the document says 503.
* `MismatchTape.aclose` raises the stop flag before the queue is empty, so the writer handles one more row at most; the
  document (section 11.5.2) says the queue is flushed. `Tape.MismatchTape.Aclose` states exactly when it is.
* Status 429 is not retried and the pauses are not jittered; the document (section 11) says both.
* `requeue_all_unfinished` reports the rows it found, also when the queue dropped some of them.
* `requests_error` is documented as a counter of `chat.py`; nothing increments it.

Further properties one might expect, which the code does not have; each has its exact condition and an input or run
that shows the break (`Witnesses`, `Collisions`, `Counterexamples`):

* Finished rows can change again. They are final exactly when they are settled (`Finality.FinalIff`), and they are
  reopened exactly by the late mark of a worker (`Accounting.ReopenedIff`). Under `fail_open` with repeated ids no row
  is ever final.
* A row whose primary call failed turns into `candidate_error` exactly when the sweeper commits to it
  (`Coherence.FailedPrimaryVerdict`, `Coherence.FailedPrimaryHistory`).
* `stop(drain=False)` raises when more handlers are running than jobs are waiting, because a cancelled handler marks
  its job done twice (`Dispatcher.InProcessDispatcher.CancelWorkers`).
* A merge after midnight UTC, or for an id with a slash, writes to another key (`RawStore.MergeReturnsToItsKeyIff`).
* Putting a code fence around a text that is fenced already changes what the evaluator reads
  (`Fence.WrapIsNeutralIff`, `Evaluator.DoubleFenceIsInvalid`).
* A request that repeats an id, or whose id ends in another one, overwrites archived objects, and a row may be judged on
  the text of a stranger. It can happen exactly to ids that collide (`Collisions.HarmlessIff`), in exactly the
  configurations that let them meet (`Collisions.OwnTextIff`, run `Collisions.CollisionBreaks`).
* If the archive cannot be read, the evaluator compares the empty text (`Verdicts.EndToEndVerdict`); it is read exactly
  where a key was recorded and the archive answers (`Evidence.LoadSucceedsIff`, run `Witnesses.UnreadArchive`).
* The archived candidate response may be another than the one the row was judged on, if the process crashed between
  merge and finalize (`Merges.StaleAnswer`); it is the same where the committing handler's merge succeeded
  (`Merges.ArchivedIsJudged`).
* Under `fail_open` a client may be answered without a row (`Durability.AckDurabilityIff`, run
  `Witnesses.AnsweredWithoutRow`), and a repeated id has two jobs and two commits (`Finality.OneHandIff`,
  `Commits.OneCommitIff`, runs `Witnesses.TwoHands` and `Witnesses.TwoCommits`).
* The stored action is the one under "action" even where another key is compared (`Pipeline.StoredActionIsShown`,
  `Counterexamples.StoredUnderOtherKey`).

## Model

| member | source | states |
|---|---|---|
| Coherence.ReachableCoherent | src/shadow_proxy/pipeline.py:206-356 | In every reachable state each row has a combination of candidate status, verdict, attempts and primary status from the documented table, and every worker's snapshot still describes its row; for any ids and any interleaving, crashes included. |
| Coherence.RunGrows | src/shadow_proxy/store/sql.py:45-108 | Over any run no row disappears, no primary column changes and no attempt count falls. |
| Coherence.MoveCoherent | src/shadow_proxy/pipeline.py:206-298 | One stretch of a worker keeps the row table coherent and what the worker relies on true. |
| Coherence.FailedPrimaryVerdict | src/shadow_proxy/sweeper.py:82-91 | For any step and any row with a failed primary call: the verdict becomes `candidate_error` if the sweeper commits to this row, `primary_error` if a worker drops it, and stays as it was in every other case. |
| Coherence.FailedPrimaryHistory | src/shadow_proxy/pipeline.py:212-223 | Over any run such a row reads `candidate_error` exactly if, of the sweeper and a dropping worker, the sweeper committed to it last. |
| Accounting.ReachableAccounted | src/shadow_proxy/pipeline.py:206-287 | In every reachable state each unfinished row is queued, in a worker's hands, still inside its request, on the startup list, or recorded as lost; and an id that has arrived once, or any id under `fail_closed`, has one job at most. |
| Accounting.LossHasCause | src/shadow_proxy/api/v1/chat.py:133-205 | A step that leaves an unfinished row without a holder is a failed primary call, a sampling decision, an overflow, a raising handler or a crash, and is recorded as that. |
| Accounting.LostOnlyBy | src/shadow_proxy/dispatcher/in_process.py:69-127 | The record of lost rows grows by those five causes alone, and an entry is removed only when the startup query lists the row. |
| Accounting.HeldByExactlyOne | src/shadow_proxy/dispatcher/in_process.py:108-127 | Under `fail_closed`, or for an id that has arrived once, an unfinished row that was not lost is in exactly one of the four places, and there only once. |
| Accounting.QueueAfter | src/shadow_proxy/dispatcher/in_process.py:69-127 | What each step makes of the queue: workers take the oldest job, an offer to a full queue is refused or pushes the oldest job out, a crash empties it, startup leaves the oldest or newest rows that fit. |
| Finality.OneHandIff | src/shadow_proxy/pipeline.py:170-177 | Unfinished rows that are not lost are in exactly one place in every run if and only if clients promise fresh ids or `fail_closed` is set. |
| Accounting.RowWriters | src/shadow_proxy/store/sql.py:72-108 | A step changes an existing row only if it is a worker's write to its own id or the sweeper's write to this id. |
| Accounting.RowAfter | src/shadow_proxy/store/sql.py:72-108 | What each step makes of every existing row, column by column: the mark, the drop, the error with its reason and the first 1000 characters of its text, the `ok` with verdict, reasons, latency and action, the sweeper's write; every other step and every other row leaves all columns as they were. |
| Accounting.ReopenedIff | src/shadow_proxy/store/sql.py:72-84 | A step makes a finished row unfinished exactly if it is the mark of a worker that read the row earlier. |
| Finality.FinalIff | src/shadow_proxy/store/sql.py:72-108 | In every reachable state and for every configuration, no run can change a finished row if and only if it is settled: not queued, not held by a worker, at no gate that may enqueue it, not on the part of a startup list that will be queued, not on the sweeper's list, and repeated ids are excluded by the clients or by `fail_closed`. |
| Finality.SettledForever | src/shadow_proxy/store/sql.py:86-108 | Over any run a settled row keeps every column and stays settled. |
| Finality.UnguardedChanges | src/shadow_proxy/pipeline.py:170-177 | Under `fail_open`, with clients that may repeat ids, every row can be changed by some run from wherever the process is. |
| Durability.AckDurability | src/shadow_proxy/api/v1/chat.py:144-205 | Under `fail_closed` an answered request has its row in every later state, through crashes: arrival time, route, tenant, session, hash, both models, status, latency, error and object key are those of the request and of its primary call, and the action is what the primary text shows under "action" if the call succeeded. |
| Durability.AckDurabilityIff | src/shadow_proxy/pipeline.py:170-177 | Every answered request has its row in every run if and only if `fail_closed` is set. |
| Durability.AckedAtMostOnce | src/shadow_proxy/pipeline.py:170-177 | Under `fail_closed` no id is answered twice, even if clients repeat ids. |
| Durability.StoredForGood | src/shadow_proxy/pipeline.py:117-177 | Under either policy a request whose insert succeeded keeps its row, with every primary column from that request and its primary call, and no other request ever stored that id. |
| Tallies.ReachableTallies | src/shadow_proxy/api/v1/chat.py:56-73 | In every reachable state: requests = successes = enqueued + sampled out + refused; enqueued + requeued = handled + in flight + evicted + queued; for each of the three verdicts, commits since the boot = its counter + the workers about to count it; timeouts <= errors; tape rows = mismatches + invalid; and verdicts in the table are bounded by the counters. |
| Tallies.RunCounts | src/shadow_proxy/pipeline.py:325-356 | Over any run each of the nine counters shows the number of steps of its kind since the process last started: timeouts are the candidate calls that timed out, errors those that timed out or failed, verdicts the commits counted, and so on for the gate. |
| Tallies.CountersDominateTable | src/shadow_proxy/pipeline.py:278-298 | Without a crash, no verdict occurs in more rows than its counter plus the workers between commit and count. |
| Tallies.BurstBalances | src/shadow_proxy/sweeper.py:97-106 | Over a burst of offers, what is accepted is the growth of the queue plus what was evicted. |
| Verdicts.EndToEndVerdict | src/shadow_proxy/pipeline.py:228-287 | In every environment a row finalized `ok` carries the evaluator's verdict and reasons on two texts and the measured latency; it reads `match` exactly if both texts, their fences off, are JSON objects with non-null values under the compared key whose normalized strings are equal; the first text is empty if the archive could not be read, as it cannot where no key was recorded; the candidate action is that of the evaluation for every id that has arrived once, and for all ids under `fail_closed`. |
| Verdicts.OwnTextIsJudged | src/shadow_proxy/pipeline.py:369-392 | If the id of such a row stands alone and the archive was read, the first text is the one the primary gave to the request that stored the row; the stored action is what that text shows under "action", the evaluator's primary action what it shows under the key compared. |
| Verdicts.ArchiveIsStable | src/shadow_proxy/pipeline.py:369-384 | Over a run in which an id stands alone, the request and the primary response archived under it never change, on any day. |
| Verdicts.MergeTraced | src/shadow_proxy/pipeline.py:369-384 | A merge, on whatever day and for whatever row, spares the request and response archived under every id that the row's id does not collide with. |
| Collisions.HarmlessIff | src/shadow_proxy/api/v1/chat.py:117 | With an archive, for two ids that clients' promises allow to meet: the rows of the first are judged on their own text in every run in which only the two arrive, the first once unless they are the same, if and only if the second neither repeats the first nor ends in it after a slash. |
| Collisions.CollisionBreaks | src/shadow_proxy/pipeline.py:369-384 | With an archive, for every colliding pair of ids that the promises allow: a reachable state in which the first row is `ok` on an archive that was read, judged on "[]" where its client was answered "{}" with status 200. |
| Collisions.Spoils | src/shadow_proxy/pipeline.py:136-145 | For the same pairs, the step at which it happens: the second request's put, or the merge of its row. |
| Collisions.OwnTextIff | src/shadow_proxy/api/v1/chat.py:117 | Every stored row is judged on its own text, or on none, in every run if and only if clients keep both promises or there is no archive. |
| Collisions.ArchiveIsStableIff | src/shadow_proxy/store/raw.py:34-41 | Archived requests and primary responses never change in any run if and only if clients keep both promises or there is no archive. |
| Evidence.LoadSucceedsIff | src/shadow_proxy/pipeline.py:358-367 | In every environment, the worker reads an object exactly if a key was recorded and the archive answers now: a recorded key never dangles. |
| Commits.CommittedAtMostOnce | src/shadow_proxy/pipeline.py:278-288 | A worker that commits a row `ok` is the first ever to do so, through crashes and requeues, for ids that have arrived once and for all ids under `fail_closed`. |
| Commits.OneCommitIff | src/shadow_proxy/store/sql.py:86-108 | Rows are committed `ok` at most once in every run if and only if clients promise fresh ids or `fail_closed` is set. |
| Commits.ReachableCommitted | src/shadow_proxy/store/sql.py:93-98 | For the same ids, a committed row is finished and on no way back to a worker, and a row's candidate action is that of its one commit, or none. |
| Commits.TapeRowsAreEvidence | src/shadow_proxy/pipeline.py:300-323 | For the same ids, a row offered to the tape has the primary's text as primary content and the candidate's as candidate content, likewise both actions and both latencies, and verdict and reasons of its table row's commit; it is the only one for its id since the boot. |
| Commits.FileIsEvidence | src/shadow_proxy/store/mismatch_tape.py:66-113 | The same of every row that the writer has committed to the tape's file, after any evictions and failed inserts. |
| Answers.CandidateSaidIt | src/shadow_proxy/pipeline.py:238-287 | In every environment a row finalized `ok` judges an answer the candidate gave about that id, and a merged archive object holds an answer given about an id that ends in the one its key names. |
| Answers.ErrorIsTold | src/shadow_proxy/pipeline.py:243-267 | In every environment a row finalized as an error rests on a candidate call made for that id which timed out or failed: its reason is `candidate_timeout` exactly in the first case and else `candidate_error`, its error is the first 1000 characters of the message, with "timeout: " in front in the first case, and its latency is that of the call. |
| Merges.ArchivedIsJudged | src/shadow_proxy/pipeline.py:273-288 | For an id that has arrived once and shares its last segment with no other: if the merge of the handler that committed the row succeeded, the archive holds, now and from then on, the very response the row was judged on. |
| Merges.StaleAnswer | src/shadow_proxy/pipeline.py:273-288 | With an archive: a reachable state, after a crash between merge and finalize and a second attempt whose merge failed, in which the row is `ok` on one answer and the archive holds another. |
| Convergence.SweeperFinishes | src/shadow_proxy/sweeper.py:65-94 | Every endless execution without new requests and crashes, from any reachable serving state, comes to rest with no row pending or in progress and stays so, whatever the capacity, whatever handlers raise and whichever sweeps fail, provided that requests and workers step again while they have work, and that at rest an answered sweep comes again while rows are unfinished. |
| Convergence.RunLoad | src/shadow_proxy/dispatcher/in_process.py:108-127 | In any such finite run, steps of requests and workers are bounded by the work there was. |
| Convergence.RunSlack | src/shadow_proxy/sweeper.py:76-94 | From rest, answered sweeps are bounded by the unfinished rows and the entries of an old list. |
| Convergence.TickIsRunOnce | src/shadow_proxy/sweeper.py:76-94 | Undisturbed, the steps of a tick finalize the listed rows in order, as `run_once` does; a write that fails ends the tick there. |
| Convergence.FinishExists | src/shadow_proxy/sweeper.py:65-94 | Such an execution exists from every reachable serving state. |
| Recovery.CrashRecovery | src/shadow_proxy/sweeper.py:97-106 | After a crash anywhere, if the unfinished rows fit the queue and the query limit, every restart and drain that comes to rest leaves no row pending or in progress, whatever the candidate answers and however the sweeper interleaves. |
| Recovery.RepeatedCrashRecovery | src/shadow_proxy/sweeper.py:97-106 | The same when further crashes, restarts, interrupted drains and raising handlers come in between, without a new bound on the rows. |
| Recovery.CrashBoundsUnfinished | src/shadow_proxy/store/sql.py:72-108 | From a crash until the next new request, only rows that were unfinished at the crash can be unfinished, although finished rows may be reopened. |
| Recovery.RecoveryCompletes | src/shadow_proxy/main.py:152-165 | After a crash whose unfinished rows fit, once the process is up: a drain has no more worker steps than there was work, and one in which no worker can move any more has left no row pending or in progress. |
| Fairness.FairRecovery | src/shadow_proxy/main.py:152-165 | Every endless recovery from such a crash in which startup and workers step again while they are not done, with the sweeper interleaving freely and the candidate answering anything, reaches a state that is open, at rest, and without a row pending or in progress. |
| Fairness.FairRecoveryExists | src/shadow_proxy/main.py:152-165 | There is such a recovery from every crash whose unfinished rows fit. |
| Recovery.RestLeavesOnlyLost | src/shadow_proxy/dispatcher/in_process.py:108-127 | After any run, with no request open and queue and workers at rest, every row still unfinished is recorded as lost, with its cause. |
| Recovery.StartupKeepsAllIff | src/shadow_proxy/store/sql.py:198-211 | Startup puts every unfinished row into the queue exactly if they fit both the queue and the query limit. |
| Recovery.DrainBounded | src/shadow_proxy/dispatcher/in_process.py:108-127 | No drain contains more worker steps than nine per queued job plus what the busy workers have left. |
| Recovery.MovesUnlessAtRest | src/shadow_proxy/dispatcher/in_process.py:108-127 | A drain in which no worker can move is at rest. |
| Recovery.SomeWorkerMoves | src/shadow_proxy/dispatcher/in_process.py:108-127 | Until queue and workers are at rest some worker can move, whatever it will be told. |
| Recovery.DrainCompletes | src/shadow_proxy/main.py:152-165 | From every serving state a drain to rest exists. |
| Witnesses.SweeperOverwritesFinished | src/shadow_proxy/sweeper.py:76-91 | For every configuration a reachable state exists in which the sweeper turns an `ok` row into `timeout_stale`. |
| Witnesses.WorkerReopensSwept | src/shadow_proxy/store/sql.py:72-84 | For every configuration a reachable state exists in which a worker turns a `timeout_stale` row back into `in_progress`. |
| Witnesses.SweeperTurnsFailedPrimary | src/shadow_proxy/sweeper.py:82-91 | For every configuration a reachable state exists in which the sweeper turns `primary_error` into `candidate_error`. |
| Witnesses.UnreadArchive | src/shadow_proxy/pipeline.py:361-367 | Where JSON is required: both models said the same valid JSON, the archive could not be read, and the row reads `invalid_json`. |
| Witnesses.AnsweredWithoutRow | src/shadow_proxy/pipeline.py:170-177 | Under `fail_open` a client is answered with status 200 and there is no row. |
| Witnesses.TwoHands | src/shadow_proxy/api/v1/chat.py:144-191 | Under `fail_open` with a repeated id, an unfinished row is in a worker's hands and in the queue at once. |
| Witnesses.TwoCommits | src/shadow_proxy/store/sql.py:86-108 | Under `fail_open` with a repeated id, a worker commits a row `ok` that was committed before. |
| Counterexamples.StopRaises | src/shadow_proxy/dispatcher/in_process.py:98-125 | One running handler and an empty queue: stopping without a drain raises. |
| Counterexamples.CloseLosesRow | src/shadow_proxy/store/mismatch_tape.py:130-140 | Two rows queued: closing writes one. |
| Counterexamples.RequeueReportsDropped | src/shadow_proxy/sweeper.py:97-106 | Two rows found and room for one: two are reported, one is queued. |
| Counterexamples.MergeAfterMidnight | src/shadow_proxy/pipeline.py:378-384 | Written on 30 June and merged on 1 July, a payload lands on another key. |
| Counterexamples.MergeOfSlashedId | src/shadow_proxy/pipeline.py:378-384 | So does that of the id `a/b`, on the same day. |
| Counterexamples.SecondFence | src/shadow_proxy/evaluator/json_action.py:24-28 | Stripping a doubly fenced `{}` gives the singly fenced one. |
| Counterexamples.StoredUnderOtherKey | src/shadow_proxy/pipeline.py:151-153 | Where a key other than "action" is compared: an action is stored for a text that shows the evaluator none. |
| Pipeline.StoredActionIsShown | src/shadow_proxy/pipeline.py:95-114 | The action extracted at insert time is what the text shows under "action"; unless the verdict is `invalid_json`, the evaluator's primary action is what it shows under the key compared. |
| Pipeline.ColumnsRecord | src/shadow_proxy/pipeline.py:151-169 | Every column of a new row, from the request and the outcome of the primary call. |
| Handler.RunHasJobEffect | src/shadow_proxy/pipeline.py:206-356 | The stretches of a handler, back to back, have exactly these effects on table, archive, counters and tape, told from the answers it gets: a timeout and an error are counted and written as such, an answer is evaluated, merged, written, counted and offered to the tape, and each failing call cuts off what its exception skips. |
| Handler.OneJobEffect | src/shadow_proxy/pipeline.py:206-356 | These effects leave no choice: they admit one final state only. |
| Handler.CandidateHandler.Call | src/shadow_proxy/pipeline.py:206-323 | The handler as written, run alone, has the same effects, stated outright, on every combination of failures; and it ends in the state in which its stretches, back to back, end. |
| Handler.CandidateHandler.AskAndEvaluate | src/shadow_proxy/pipeline.py:238-323 | The same for the part from the candidate call on: timeout, error, other exception and answer, each with its own counters, reason, text and row. |
| Handler.CandidateHandler.FinalizeError | src/shadow_proxy/pipeline.py:325-356 | Errors are counted before the row is written, timeouts in both counters; the row gets its reason, the first 1000 characters of the error and the latency, if the store answers. |
| Handler.CandidateHandler.MergeCandidateIntoRaw | src/shadow_proxy/pipeline.py:369-384 | Only the candidate response changes, at the key recomputed for today; every failure leaves the archive as it was. |
| Handler.CandidateHandler.Finish | src/shadow_proxy/pipeline.py:273-323 | Merge, finalize, count and tape, column by column and text by text, where a failing finalize suppresses the count and the tape. |
| Chat.ChatEndpoint.Chat | src/shadow_proxy/api/v1/chat.py:100-207 | The endpoint, run alone, in terms of the upstream's answer: 504 for a timeout, 401 and 403 as they came, 502 for any other error status, for a transport error and for a reply without a choice, and 200 for a text; the row, the payload, counters and queue that it leaves are stated outright; and it ends where its stretches, back to back, end. |
| Chat.RunHasRequestEffect | src/shadow_proxy/api/v1/chat.py:100-207 | The stretches of a request, back to back, have the same effects. |
| Chat.OneRequestEffect | src/shadow_proxy/api/v1/chat.py:100-207 | These effects leave no choice either. |
| Chat.ClientSees | src/shadow_proxy/api/v1/chat.py:170-188 | The status a client sees for each kind of upstream answer, for the stretches of a request. |
| Chat.ChatEndpoint.PersistPending | src/shadow_proxy/pipeline.py:117-177 | Archive first, best effort, with body, models, response and time each in its place; then one pending row with every column of the request and of the primary call; it raises exactly if the insert fails under `fail_closed`. |
| Chat.ChatEndpoint.ShadowGate | src/shadow_proxy/api/v1/chat.py:46-73 | The queue and the counters after sampling, for an accepted, a refused and a sampled-out job. |
| Dispatcher.InProcessDispatcher.Create | src/shadow_proxy/dispatcher/in_process.py:32-53 | Construction is refused exactly for a capacity or a worker number below one. |
| Dispatcher.InProcessDispatcher.Enqueue | src/shadow_proxy/dispatcher/in_process.py:69-90 | Answer, new queue and ghost histories of one offer under either policy; unfinished stays queued + in flight. |
| Dispatcher.InProcessDispatcher.Finish | src/shadow_proxy/dispatcher/in_process.py:112-125 | A handler that returns or raises marks its job done once. |
| Dispatcher.InProcessDispatcher.Histories | src/shadow_proxy/dispatcher/in_process.py:69-90 | Under drop_new, taken ++ queue is the sequence of accepted offers; under drop_old the queue is a suffix of all offers; accepted = handled + running + evicted + queued. |
| Dispatcher.InProcessDispatcher.Stop | src/shadow_proxy/dispatcher/in_process.py:92-106 | With draining it returns with every accepted job handled or evicted and never raises; without, it raises exactly if more handlers run than jobs wait. |
| Dispatcher.InProcessDispatcher.CancelWorkers | src/shadow_proxy/dispatcher/in_process.py:98-125 | The double mark of cancelled handlers, and exactly when it raises. |
| Dispatcher.OfferAllKeepsOneEnd | src/shadow_proxy/dispatcher/in_process.py:69-90 | A burst without a worker in between leaves the oldest jobs that fit under drop_new and the newest under drop_old. |
| Sweeper.Sweeper.RunOnce | src/shadow_proxy/sweeper.py:76-94 | One run finalizes exactly min(n, 1000) of n stale rows; fresh and finished rows stay as they were. |
| Sweeper.Sweeper.Converge | src/shadow_proxy/sweeper.py:65-94 | With the clock standing still, k runs leave n - min(n, 1000 k) stale rows: none exactly from ceil(n / 1000) on. |
| Sweeper.SweepShrinks | src/shadow_proxy/sweeper.py:82-91 | Finalizing a list takes exactly its ids out of the stale set. |
| Sweeper.RequeueAllUnfinished | src/shadow_proxy/sweeper.py:97-106 | One end of the list survives in the queue; the number reported is the number waiting exactly if all fit. |
| Rows.SqlComparisonStore.FinalizeRow | src/shadow_proxy/store/sql.py:86-108 | The patch is written whatever the status was; an absent value leaves its column alone. |
| Rows.SqlComparisonStore.FindStale | src/shadow_proxy/store/sql.py:180-196 | Distinct stale ids, as many as there are up to the limit, in any order. |
| Rows.StaleListMeaning | src/shadow_proxy/store/sql.py:180-196 | The sweeper's list in terms of the columns: pending or in progress, received before the cutoff, as many as the limit allows. |
| Rows.SqlComparisonStore.FindAllUnfinished | src/shadow_proxy/store/sql.py:198-211 | Distinct unfinished ids up to the limit, oldest first, none left out that is older than one listed. |
| Rows.UnfinishedListMeaning | src/shadow_proxy/store/sql.py:198-211 | The startup list in terms of the columns: pending or in progress, distinct, oldest first, as many as the limit allows, nothing older left out. |
| Rows.ShortListIsComplete | src/shadow_proxy/store/sql.py:198-211 | A list below the limit names every unfinished row. |
| Tape.MismatchTape.Offer | src/shadow_proxy/store/mismatch_tape.py:115-128 | Always accepts; a row is pushed out only once as many newer rows as the queue holds have been offered. |
| Tape.MismatchTape.WriterTurn | src/shadow_proxy/store/mismatch_tape.py:66-113 | The oldest queued row is committed or rejected, and nothing else happens to any row. |
| Tape.MismatchTape.Conservation | src/shadow_proxy/store/mismatch_tape.py:66-128 | As multisets, the rows offered are the file, the rejected, the evicted and the queued rows; and the queue is the latest rows offered, in order. |
| Tape.WrittenInOrder | src/shadow_proxy/store/mismatch_tape.py:66-113 | The rows in the file, and likewise those evicted or rejected, are a subsequence of the rows offered. |
| Tape.MismatchTape.Aclose | src/shadow_proxy/store/mismatch_tape.py:130-140 | At most one queued row is written on closing; the queue is flushed exactly if it was empty or held one row that was written. |
| Evaluator.Evaluate | src/shadow_proxy/evaluator/json_action.py:61-109 | From the library calls alone: `match` exactly if both texts, their fences off, decode to objects with non-null values under the key whose strings are equal, trimmed and lower-cased where so configured; `invalid_json` exactly if JSON is required and a text is empty or does not decode; `mismatch` otherwise; and every reason and both reported actions, case by case. |
| Evaluator.JudgedOnce | src/shadow_proxy/evaluator/json_action.py:61-109 | These clauses admit one result only. |
| Evaluator.JudgeSymmetric | src/shadow_proxy/evaluator/json_action.py:61-109 | The verdict does not depend on which text is called primary. |
| Evaluator.MatchIsEquivalence | src/shadow_proxy/evaluator/json_action.py:82-101 | `match` is transitive, and reflexive exactly on texts that name an action. |
| Evaluator.EmptyIsInvalid | src/shadow_proxy/evaluator/json_action.py:51-59 | The empty text never parses. |
| Evaluator.FencesDoNotMatter | src/shadow_proxy/evaluator/json_action.py:51-109 | Fencing the content of either side never changes verdict, reasons or actions. |
| Evaluator.WrappingKeepsResult | src/shadow_proxy/evaluator/json_action.py:18-109 | A trimmed, unfenced text may be fenced as it stands, on either side. |
| Evaluator.DoubleFenceIsInvalid | src/shadow_proxy/evaluator/json_action.py:18-59 | Where JSON is required and the decoder rejects a fenced text as it stands, putting a second fence around that text makes the verdict `invalid_json`. |
| Fence.SearchIsPreferred | src/shadow_proxy/evaluator/json_action.py:18-28 | The search succeeds exactly on texts that match the pattern, and finds the cut a backtracking matcher tries first. |
| Fence.StripMeaning | src/shadow_proxy/evaluator/json_action.py:18-28 | The result is the body of the cut tried first of all that match, or, where none matches, the text without its outer white space. |
| Fence.TagIsCaseless | src/shadow_proxy/evaluator/json_action.py:18-21 | The tag is `json` in any case, the long s included. |
| Fence.SpaceIsWhite | src/shadow_proxy/evaluator/json_action.py:18-28 | White space, for the pattern and for trimming alike, is Unicode white space and the four separators. |
| Fence.TicksAreFence | src/shadow_proxy/evaluator/json_action.py:18-21 | A fence is three backticks. |
| Fence.LazyEnd | src/shadow_proxy/evaluator/json_action.py:18-21 | The body ends at the first place where the rest of the pattern matches, if there is one. |
| Fence.StripIsTrimmed | src/shadow_proxy/evaluator/json_action.py:24-28 | The result has no white space at either end. |
| Fence.TrimCuts | src/shadow_proxy/evaluator/json_action.py:28 | Trimming cuts white space off both ends and nothing else. |
| Fence.StripInvertsWrap | src/shadow_proxy/evaluator/json_action.py:24-28 | A trimmed text comes back from its fence, inner backticks and all. |
| Fence.WrapIsNeutralIff | src/shadow_proxy/evaluator/json_action.py:24-28 | Wrapping a trimmed text is neutral exactly if it was not fenced. |
| Fence.WrapAfterStrip | src/shadow_proxy/evaluator/json_action.py:24-28 | For every text, stripping, wrapping and stripping again gives what the first strip gave. |
| Llm.ChatCompletions | src/shadow_proxy/llm/do_inference.py:110-142 | At most max_retries + 1 posts, repeated after transport errors and statuses from 500 only; the result is that of the last post: a timeout, a transport error without a code, an error with its code from status 400 on, and below that the text of the first choice, an error where there is none, or a raise; k retries sleep 0.1 (2^k - 1) seconds; the code after the loop is dead. |
| Llm.InterpretExplains | src/shadow_proxy/llm/do_inference.py:132-164 | What the step system takes as the outcome of a post is what the contract of the loop says. |
| Llm.RetryIsDetermined | src/shadow_proxy/llm/do_inference.py:110-142 | The loop's contract fixes the number of posts for every stream of outcomes. |
| Llm.BuildPayload | src/shadow_proxy/llm/do_inference.py:99-108 | Extra fields are added and never replace a field of the request. |
| Llm.ArchivedContentIsResponse | src/shadow_proxy/llm/do_inference.py:145-164 | The worker reads from an archived reply the text the client returned to the request. |
| Llm.ContentMeaning | src/shadow_proxy/pipeline.py:387-392 | The worker reads the text of the first choice, and the empty text where nothing is archived or there is no choice. |
| RawStore.KeyInjective | src/shadow_proxy/store/raw.py:24-26 | Keys agree exactly if both day and id agree. |
| RawStore.KeyLayout | src/shadow_proxy/store/raw.py:24-26 | A key reads `raw/`, year, month and day in decimal digits between slashes, the id, `.json.gz`. |
| RawStore.IdRecoveredIff | src/shadow_proxy/pipeline.py:379-380 | The merge reads the id back from a key exactly if the id has no slash. |
| RawStore.SegmentMeaning | src/shadow_proxy/pipeline.py:379-380 | The last segment is what follows the last slash, or everything. |
| RawStore.MergeReturnsToItsKeyIff | src/shadow_proxy/pipeline.py:378-384 | The merge writes to the key it read exactly on the same day and for an id without a slash. |
| Summary.Summarize | src/shadow_proxy/store/sql.py:139-178 | Total, counts by verdict without zero entries, and the four percentiles of the selected rows. |
| Summary.SummaryIsOrderFree | src/shadow_proxy/store/sql.py:139-178 | The summary is determined by which rows there are, in any order, and its p50 never exceeds its p95. |
| Summary.ValuesOrderFree | src/shadow_proxy/store/sql.py:162-168 | The latencies collected from permuted rows are permuted latencies. |
| Summary.PercentileOrderFree | src/shadow_proxy/store/sql.py:214-224 | A percentile does not depend on the order of the samples. |
| Summary.PercentileBounded | src/shadow_proxy/store/sql.py:214-224 | A percentile stays within any bounds of the samples. |
| Summary.PercentileMonotone | src/shadow_proxy/store/sql.py:214-224 | A percentile does not fall as q grows over [0, 1], across segment boundaries. |
| Summary.PercentileMeaning | src/shadow_proxy/store/sql.py:214-224 | On the ordered samples, with (n - 1) q = i + f, the percentile is s[i] for f = 0 and divides the distance to s[i + 1] in the proportion f otherwise. |
| Summary.MedianMeaning | src/shadow_proxy/store/sql.py:214-224 | The p50 is the median. |
| Summary.MatchRateMeaning | src/shadow_proxy/store/base.py:114-122 | Of the selected rows with one of the four final verdicts, the fraction that matched, 0 where there are none; between 0 and 1, and 1 exactly if something was finalized and all of it matched. |
| Canonical.CanonicalIffSame | src/shadow_proxy/util/hashing.py:10-15 | Canonical forms are equal exactly for trees equal up to key order at every depth, whatever number tokens they hold. |
| Canonical.CanonicalIsSorted | src/shadow_proxy/util/hashing.py:10-15 | A canonical form is well formed and sorted at every depth. |
| Canonical.CanonicalIdempotent | src/shadow_proxy/util/hashing.py:10-15 | Canonicalizing twice changes nothing more. |
| Canonical.SortCorrect | src/shadow_proxy/util/hashing.py:11-12 | Sorting distinct keys gives the same members in code point order. |
| Canonical.LessMeaning | src/shadow_proxy/util/hashing.py:12 | Keys are ordered by code point: a proper prefix first, else by the first difference. |
| Encoding.ReadEncode | src/shadow_proxy/util/hashing.py:21 | A reader of JSON texts that skips no white space gets every value back from its encoding, strings with all their escapes, `NaN` and the infinities included, and what follows it. |
| Encoding.EncodePrefix | src/shadow_proxy/util/hashing.py:21 | So an encoding, followed by a delimiter, can be read in one way only. |
| Encoding.EscapeMeaning | src/shadow_proxy/util/hashing.py:21 | Only quotation mark, backslash and control characters are escaped, by the short form where there is one and otherwise by lower case digits. |
| Canonical.HashedTextIsRead | src/shadow_proxy/util/hashing.py:18-22 | From the text under the hash the canonical form of the body is read back. |
| Canonical.HashedTextIffSame | src/shadow_proxy/util/hashing.py:18-22 | The texts under the hash are equal exactly for bodies equal up to key order. |
| Canonical.RequestHashIdentifies | src/shadow_proxy/util/hashing.py:18-22 | For every digest, two bodies share a hash exactly if they are equal up to key order or the digest collides on their two texts. |

## Left out

* FastAPI routing, headers, authentication, the unknown-route error, health and metrics endpoints, the configuration
  endpoint, the user interface, logging and Prometheus: wiring.
* The insides of the database, of S3, gzip and SQLite: a table with atomic updates of one row, and an archive whose
  calls succeed or fail. A call that takes effect and still reports an error is not modelled.
* `json.loads`, `str`, `repr`, `lower`, SHA-256 and the integer validation of the response model: function parameters
  about which nothing is assumed. `json.loads` either yields a value or raises `JSONDecodeError`; other exceptions of it
  are not modelled.
* The insides of asyncio: steps are atomic between awaits, and nothing is enqueued once `stop` has begun.
* An orderly shutdown is not a step of the protocol; `Stop` and `Aclose` are modelled on their classes.
* Several replicas on one database. Clocks and dates are free values of each step, so no theorem needs them monotone.
* Settings, configuration files and the checks on API keys.
* Floating-point rounding: latencies and pauses are exact reals, and a number token with a digit other than zero counts
  as true even if it rounds to zero.
* The UTF-8 encoding of the hashed text.
* What the candidate is asked: its answer is arbitrary, so the messages it receives play no part.
* The numbers and the full body inside the error messages of the upstream client.
* The columns of a tape row that repeat configuration, the request body or the clock: `finalized_at`, `route`, the two
  model ids and `request_body`.
* Archive, tape and counters are optional arguments of the handler; tape and counters are always present here.
* `list` of the comparison store with its filters: a query without effect on any property above.
* Path normalization: object keys are compared as exact strings, as in the Spaces store. The file store joins them to a
  directory path, so that ids such as `a/x` and `a//x` share one file there.
* Collisions.HarmlessIff: does not count ids that collide by path normalization only, as in the file store.
* Verdicts.OwnTextIsJudged: stands on the same comparison of keys.
* Verdicts.ArchiveIsStable: stands on the same comparison of keys.
* Verdicts.MergeTraced: stands on the same comparison of keys.
* Sweeper.Sweeper.Converge: the runs share one cutoff, because with a moving clock further rows become stale between
  them; `Convergence` has no such restriction.
* Recovery.CrashRecovery: the last drain contains no new requests and no raising handler; both may leave rows behind,
  with the causes that `Accounting.LossHasCause` lists.
