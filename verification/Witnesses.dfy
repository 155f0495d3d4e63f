/** Runs in which something one might rely on does not hold, for every configuration that does not exclude it. */
module Witnesses {
  import opened Prelude
  import opened Evaluator
  import opened Llm
  import opened RawStore
  import opened Rows
  import opened Pipeline
  import opened Chat
  import opened Sweeper
  import opened Protocol
  import opened Accounting
  import opened Scenes

  const ID: Id := "x"

  /** One request has been answered, and its job is in the queue. */
  lemma Start(c: Config, content: string) returns (s: State)
    requires Proper(c)
    ensures Handed(c, s, ID) && s.sweep == [] && s.chats == map[] && s.sh.rows == map[ID := RowOf(c, ID, content)]
    ensures s.sh.raw == if c.setup.archive
                        then map[KeyFor(TODAY, ID) := PayloadOf(Ask(ID), Out(content), 0)] else map[]
    ensures s.history.arrivals == map[0 := Ask(ID)] && s.history.lost == map[] && s.history.evidence == map[]
    ensures s.history.stored == map[0 := WrittenOf(c, Ask(ID), Out(content), KeyToday(c, ID))]
    ensures 0 in s.history.answered && s.history.answered[0].Answered? && s.history.answered[0].out == Out(content)
    ensures s.history.answered[0].code == 200 && s.history.answered.Keys == {0}
  {
    s := Opened(c);
    assert '/' !in ID && !Arrived(s, ID);
    s := Admit(c, s, 0, ID, content);
  }

  /** What a worker reads for its row. */
  lemma OwnBody(c: Config, raw: Archive, id: Id, content: string, loadOk: bool)
    requires c.setup.archive ==>
      KeyFor(TODAY, id) in raw && raw[KeyFor(TODAY, id)].primaryResponse == Some(Say(content))
    ensures PrimaryText(LoadBody(c.setup, raw, KeyToday(c, id), loadOk))
      == Some(if c.setup.archive && loadOk then content else "")
  {
    SayIsRead(c.setup.intLike, content);
  }

  lemma OneStaleRow(t: Table)
    requires t.Keys == {ID} && Unfinished(t[ID]) && t[ID].primary.receivedAt == 0
    ensures IsStaleList(t, 1, SWEEP_LIMIT, [ID])
  {
    assert StaleIds(t, 1) == {ID};
    assert Elements([ID]) == {ID};
  }

  // ---------- a finished status does not last: updates are filtered by id alone ----------

  /** A sweeper that holds an old list overwrites a row that a worker has finished meanwhile. */
  lemma SweeperOverwritesFinished(c: Config) returns (s: State, l: Label, t: State)
    requires Proper(c)
    ensures Reachable(c, s) && Step(c, s, l, t) && l.Sweep?
    ensures ID in s.sh.rows && s.sh.rows[ID].status == Ok
    ensures ID in t.sh.rows && t.sh.rows[ID].status == TimeoutStale && t.sh.rows[ID].verdict == CandidateError
  {
    s := Start(c, "");
    OwnBody(c, s.sh.raw, ID, "", true);
    s := Load(c, s, ID, true);
    s := Skip(c, s, ID, "", "");
    OneStaleRow(s.sh.rows);
    s := Reach(c, s, Scan(1, [ID]));
    l, s := Close(c, s);
    l := Sweep(true, 0);
    t := Reach(c, s, l);
  }

  /** A worker that read the row earlier reopens it after the sweeper has finished it. */
  lemma WorkerReopensSwept(c: Config) returns (s: State, l: Label, t: State)
    requires Proper(c)
    ensures Reachable(c, s) && Step(c, s, l, t) && l.Work?
    ensures ID in s.sh.rows && s.sh.rows[ID].status == TimeoutStale
    ensures ID in t.sh.rows && t.sh.rows[ID].status == InProgress
  {
    s := Start(c, "");
    s := Read(c, s, ID);
    OneStaleRow(s.sh.rows);
    s := Reach(c, s, Scan(1, [ID]));
    s := Reach(c, s, Sweep(true, 0));
    l := Work(0, Works("", true, false));
    t := Reach(c, s, l);
  }

  // ---------- a failed primary call that reads as a candidate error ----------

  const FAILING := ChatEnv(PostTimeout, 0, false, true, true, TODAY, 0)
  const LATE := PrimaryOutcome(PrimaryStatus.Late, 0, "", None, Some("DO inference timed out"), None)

  lemma LateInsert(c: Config) returns (s: State)
    requires Proper(c)
    ensures Reachable(c, s) && s.phase.Serving? && s.sweep == [] && s.sh.rows == map[]
    ensures s.chats == map[0 := AtInsert(Ask(ID), LATE, None)]
  {
    s := Opened(c);
    assert '/' !in ID && !Arrived(s, ID);
    s := Reach(c, s, Arrive(0, Ask(ID)));
    s := Reach(c, s, Serve(0, FAILING));
    assert s.chats == map[0 := AtArchive(Ask(ID), LATE)];
    s := Reach(c, s, Serve(0, FAILING));
    assert s.chats == map[0 := AtInsert(Ask(ID), LATE, None)];
  }

  /** The primary call timed out, and the client has been told so; the row is pending and nobody works on it. */
  lemma AnsweredLate(c: Config) returns (s: State)
    requires Proper(c)
    ensures Reachable(c, s) && s.phase.Serving? && s.sweep == [] && s.sh.rows.Keys == {ID}
    ensures s.sh.rows[ID].status == Pending && s.sh.rows[ID].verdict == PrimaryError
    ensures s.sh.rows[ID].primary.status == PrimaryStatus.Late && s.sh.rows[ID].primary.receivedAt == 0
  {
    s := LateInsert(c);
    s := Reach(c, s, Serve(0, FAILING));
    assert s.chats[0] == AtGate(Ask(ID), LATE, None);
    s := Reach(c, s, Serve(0, FAILING));
  }

  /** The sweeper finds the row and calls it an error of the candidate, which was never asked. */
  lemma SweeperTurnsFailedPrimary(c: Config) returns (s: State, l: Label, t: State)
    requires Proper(c)
    ensures Reachable(c, s) && Step(c, s, l, t) && l.Sweep?
    ensures ID in s.sh.rows && s.sh.rows[ID].primary.status != Succeeded && s.sh.rows[ID].verdict == PrimaryError
    ensures ID in t.sh.rows && t.sh.rows[ID].verdict == CandidateError
  {
    s := AnsweredLate(c);
    OneStaleRow(s.sh.rows);
    s := Reach(c, s, Scan(1, [ID]));
    l := Sweep(true, 0);
    t := Reach(c, s, l);
  }

  // ---------- failing stores ----------

  lemma BracesParse(lib: PyLib, s: Settings)
    requires lib.loads("{}").Parsed?
    ensures Parse(lib, "{}").Parsed? && Judge(lib, s, "{}", "{}") != InvalidJson
  {
    assert !Fence.Ticks("{}", 0) && Fence.SkipSpace("{}", 0) == 0;
    assert Fence.StripCodeFence("{}") == "{}";
  }

  /** Both models said the same valid JSON, but the archive could not be read: the verdict is invalid_json. */
  lemma UnreadArchive(c: Config) returns (s: State)
    requires Proper(c) && c.setup.settings.requireJson && c.setup.lib.loads("{}").Parsed?
    ensures Reachable(c, s) && ID in s.sh.rows && s.sh.rows[ID].status == Ok && ID in s.history.evidence
    ensures 0 in s.history.stored && s.history.stored[0].id == ID
    ensures var said, heard := s.history.stored[0].origin.out.content, s.history.evidence[ID].candidate;
      && s.sh.rows[ID].verdict == InvalidJson
      && Judge(c.setup.lib, c.setup.settings, said, heard) != InvalidJson
  {
    BracesParse(c.setup.lib, c.setup.settings);
    EmptyIsInvalid(c.setup.lib, c.setup.settings, "{}");
    s := Start(c, "{}");
    OwnBody(c, s.sh.raw, ID, "{}", false);
    s := Judged(c, s, ID, "", "{}", false);
  }

  /** Under `fail_open` a client is answered with status 200 and no row is left. */
  lemma AnsweredWithoutRow(c: Config) returns (s: State)
    requires Proper(c) && !c.setup.failClosed
    ensures Reachable(c, s) && 0 in s.history.answered && s.history.answered[0].Answered?
    ensures s.history.answered[0].code == 200 && s.history.answered[0].r.id !in s.sh.rows
  {
    s := Opened(c);
    assert '/' !in ID && !Arrived(s, ID);
    s := Come(c, s, 0, ID, "");
    var _, t := Put(c, s, 0, ID, "");
    s := Slip(c, t, 0, ID, "");
    s := Leave(c, s, 0, ID, "");
  }

  // ---------- repeated ids under fail_open ----------

  /** A second request with the id of the first has passed its failing insert, and its job is in the queue. */
  lemma Repeat(c: Config, s: State) returns (t: State)
    requires Reachable(c, s) && !c.freshIds && !c.setup.failClosed && s.phase.Serving? && s.queue == [] && Proper(c)
    requires s.chats == map[] && s.history.arrivals.Keys == {0} && s.history.stored.Keys == {0}
    requires s.history.answered.Keys == {0}
    ensures Reachable(c, t) && t.phase.Serving? && t.queue == [ID] && t.chats == map[] && t.workers == s.workers
    ensures t.sh.rows == s.sh.rows && t.history.lost == s.history.lost && t.history.evidence == s.history.evidence
    ensures c.setup.archive ==>
      KeyFor(TODAY, ID) in t.sh.raw && t.sh.raw[KeyFor(TODAY, ID)].primaryResponse == Some(Say(""))
  {
    assert '/' !in ID;
    t := Come(c, s, 1, ID, "");
    var _, u := Put(c, t, 1, ID, "");
    t := Slip(c, u, 1, ID, "");
    t := Leave(c, t, 1, ID, "");
  }

  /** Two jobs for one id: a worker has it, and so has the queue. */
  lemma TwoHands(c: Config) returns (s: State)
    requires Proper(c) && !c.freshIds && !c.setup.failClosed
    ensures Reachable(c, s) && ID in s.sh.rows && Unfinished(s.sh.rows[ID]) && ID !in s.history.lost
    ensures Hands(s, ID) == 2
  {
    s := Start(c, "");
    s := Read(c, s, ID);
    s := Repeat(c, s);
    assert Holding(s.workers[0]) == Some(ID);
    assert !AtSomeGate(s, ID);
  }

  /** A row is finalized `ok` a second time. */
  lemma TwoCommits(c: Config) returns (s: State, l: Label, t: State)
    requires Proper(c) && !c.freshIds && !c.setup.failClosed
    ensures Reachable(c, s) && Step(c, s, l, t) && l.Work? && l.w < |s.workers|
    ensures s.workers[l.w].Closing? && s.workers[l.w].id in s.history.evidence && t.workers[l.w].Counting?
  {
    s := Start(c, "");
    OwnBody(c, s.sh.raw, ID, "", true);
    s := Judged(c, s, ID, "", "", true);
    s := Count(c, s);
    s := Repeat(c, s);
    OwnBody(c, s.sh.raw, ID, "", true);
    s := Load(c, s, ID, true);
    s := Skip(c, s, ID, "", "");
    l, t := Close(c, s);
  }
}
