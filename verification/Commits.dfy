/**
 * An id that cannot come back to life is finalized `ok` once at most: its candidate action is that of the one
 * commit, and the tape carries it once at most. That is every id under `fail_closed`, and every id that
 * clients have sent once.
 */
module Commits {
  import opened Prelude
  import opened Rows
  import opened Tape
  import opened Pipeline
  import opened Chat
  import opened Protocol
  import opened Accounting
  import opened Finality

  // ---------- one commit ----------

  ghost predicate ActionOf(s: State, id: Id)
    requires id in s.sh.rows
  {
    s.sh.rows[id].action
      == if id in s.history.evidence then s.history.evidence[id].result.candidateAction else None
  }

  /** A committed id is finished and on no way back to a worker; a row that was never committed names no action. */
  ghost predicate Committed(c: Config, s: State, id: Id) {
    (id in s.history.evidence ==> Released(c, s, id)) && (id in s.sh.rows ==> ActionOf(s, id))
  }

  lemma MoveActions(c: Setup, sh: Shared, w: Worker, e: Env, id: Id)
    requires !w.Idle? && id in sh.rows
    ensures var r := Move(c, sh, w, e);
      && id in r.0.rows && (r.1.Counting? ==> w.Closing? && r.1.id == w.id && r.1.done == w.done)
      && r.0.rows[id].action
         == if r.1.Counting? && w.id == id then Or(w.done.result.candidateAction, sh.rows[id].action)
            else sh.rows[id].action
  {
  }

  /** The commit itself: its worker held the only job, so the id is released for good. */
  lemma CommitReleases(c: Config, s: State, w: nat, e: Env)
    requires Shaped(c, s) && w < |s.workers| && s.workers[w].Closing? && e.finalizeOk
    requires OneJob(c, s, s.workers[w].id) && s.workers[w].id in s.sh.rows
    ensures Released(c, WorkStep(c, s, w, e), s.workers[w].id)
  {
    var t, id := WorkStep(c, s, w, e), s.workers[w].id;
    assert Job(s.workers[w], id);
    forall v | 0 <= v < |t.workers| ensures Holding(t.workers[v]) != Some(id) {
      assert v != w ==> t.workers[v] == s.workers[v] && !Job(s.workers[v], id);
    }
    forall g | g in t.chats && t.chats[g].AtGate? ensures t.chats[g].r.id != id { assert Gate(s, g, id) ==> false; }
  }

  /** A worker's id has not been committed before. */
  lemma CommitsOnce(c: Config, s: State, w: nat)
    requires w < |s.workers| && Holding(s.workers[w]).Some? && Committed(c, s, s.workers[w].id)
    ensures s.workers[w].id !in s.history.evidence
  {
    assert WorkerHolds(s, s.workers[w].id);
  }

  lemma WorkCommitted(c: Config, s: State, w: nat, e: Env, id: Id)
    requires Shaped(c, s) && OneJob(c, s, id) && Coherence.Coherent(s)
    requires Committed(c, s, id) && w < |s.workers| && !s.workers[w].Idle?
    ensures Committed(c, WorkStep(c, s, w, e), id)
  {
    var t, here := WorkStep(c, s, w, e), s.workers[w];
    assert Coherence.WorkerOk(s.sh.rows, here);
    MoveReleases(c.setup, s.sh, here, e);
    if id in s.sh.rows { MoveActions(c.setup, s.sh, here, e, id); }
    if Holding(here) == Some(id) { CommitsOnce(c, s, w); }
    if id in t.history.evidence {
      if id in s.history.evidence { WorkReleased(c, s, w, e, id); } else { CommitReleases(c, s, w, e); }
    }
  }

  lemma ServeActions(c: Config, s: State, tag: nat, e: ChatEnv, id: Id)
    requires tag in s.chats && Open(s.chats[tag])
    ensures var t := ServeStep(c, s, tag, e);
      && t.history.evidence == s.history.evidence && t.sh.tape == s.sh.tape && t.workers == s.workers
      && (id in t.sh.rows ==> if id in s.sh.rows then t.sh.rows[id] == s.sh.rows[id] else t.sh.rows[id].action == None)
  {
  }

  lemma StepCommitted(c: Config, s: State, l: Label, t: State, id: Id)
    requires Proper(c) && Accounted(c, s) && Sole(c, s, id) && Coherence.Coherent(s)
    requires Committed(c, s, id) && Step(c, s, l, t)
    ensures Committed(c, t, id)
  {
    if l.Work? && !s.workers[l.w].Idle? {
      assert OneJob(c, s, id);
      WorkCommitted(c, s, l.w, l.env, id);
    } else {
      if id in s.history.evidence { StepReleased(c, s, l, t, id); }
      if l.Serve? { ServeActions(c, s, l.tag, l.chatEnv, id); }
    }
  }

  // ---------- one tape row ----------

  /** What is on the tape, or about to be, is the evidence of its row; and no id is there twice. */
  ghost predicate Taped(s: State, id: Id) {
    && (forall i :: 0 <= i < |s.sh.tape| && s.sh.tape[i].requestId == id ==>
          id in s.sh.rows && id in s.history.evidence
          && s.sh.tape[i] == RowForTape(id, s.sh.rows[id], s.history.evidence[id]))
    && (forall i, j :: 0 <= i < j < |s.sh.tape| ==>
          s.sh.tape[i].requestId != id || s.sh.tape[j].requestId != id)
    && (forall w :: 0 <= w < |s.workers| && s.workers[w].Counting? && s.workers[w].id == id ==>
          id in s.history.evidence && s.workers[w].done == s.history.evidence[id] && !OnTape(s, id))
  }

  ghost predicate OnTape(s: State, id: Id) {
    exists i :: 0 <= i < |s.sh.tape| && s.sh.tape[i].requestId == id
  }

  /** A step that leaves tape and evidence of an id alone. */
  lemma SameTape(s: State, t: State, id: Id)
    requires Taped(s, id) && t.sh.tape == s.sh.tape && Coherence.Grows(s.sh.rows, t.sh.rows)
    requires id in s.history.evidence ==> id in t.history.evidence && t.history.evidence[id] == s.history.evidence[id]
    requires forall w :: 0 <= w < |t.workers| && t.workers[w].Counting? && t.workers[w].id == id ==>
      w < |s.workers| && s.workers[w] == t.workers[w]
    ensures Taped(t, id)
  {
    assert OnTape(t, id) == OnTape(s, id);
  }

  /** The commit: the id was not committed before, so it is not on the tape. */
  lemma CommitTaped(c: Config, s: State, w: nat, e: Env)
    requires w < |s.workers| && s.workers[w].Closing? && e.finalizeOk
    requires OneJob(c, s, s.workers[w].id) && Taped(s, s.workers[w].id) && s.workers[w].id !in s.history.evidence
    ensures Taped(WorkStep(c, s, w, e), s.workers[w].id)
  {
    var t, id := WorkStep(c, s, w, e), s.workers[w].id;
    assert !OnTape(s, id);
    assert !OnTape(t, id);
    forall v | 0 <= v < |t.workers| && v != w ensures !(t.workers[v].Counting? && t.workers[v].id == id) {
      assert t.workers[v] == s.workers[v];
      assert Job(s.workers[w], id);
    }
  }

  /** The count: the row is offered to the tape, or passed over. */
  lemma CountTaped(c: Config, s: State, w: nat, e: Env)
    requires w < |s.workers| && s.workers[w].Counting? && Coherence.Coherent(s)
    requires OneJob(c, s, s.workers[w].id) && Taped(s, s.workers[w].id)
    ensures Taped(WorkStep(c, s, w, e), s.workers[w].id)
  {
    var t, here := WorkStep(c, s, w, e), s.workers[w];
    assert Coherence.WorkerOk(s.sh.rows, here);
    assert Job(here, here.id);
    forall v | 0 <= v < |t.workers| ensures !(t.workers[v].Counting? && t.workers[v].id == here.id) {
      if v != w { assert t.workers[v] == s.workers[v] && !Job(s.workers[v], here.id); }
    }
    assert !OnTape(s, here.id);
    assert t.sh.tape == s.sh.tape || t.sh.tape == s.sh.tape + [RowForTape(here.id, here.rec, here.done)];
    assert t.sh.rows == s.sh.rows && t.history.evidence == s.history.evidence;
  }

  /** A worker counts another row. */
  lemma OtherCountTaped(c: Config, s: State, w: nat, e: Env, id: Id)
    requires w < |s.workers| && s.workers[w].Counting? && s.workers[w].id != id && Taped(s, id)
    ensures Taped(WorkStep(c, s, w, e), id)
  {
    var t, here := WorkStep(c, s, w, e), s.workers[w];
    assert t.sh.tape == s.sh.tape || t.sh.tape == s.sh.tape + [RowForTape(here.id, here.rec, here.done)];
    assert OnTape(t, id) ==> OnTape(s, id);
    assert forall v :: 0 <= v < |t.workers| && v != w ==> t.workers[v] == s.workers[v];
  }

  lemma MoveFrame(c: Setup, sh: Shared, w: Worker, e: Env)
    requires !w.Idle? && !w.Counting?
    ensures var r := Move(c, sh, w, e); r.0.tape == sh.tape && (r.1.Counting? ==> w.Closing? && e.finalizeOk)
  {
  }

  lemma OtherTaped(c: Config, s: State, w: nat, e: Env, id: Id)
    requires w < |s.workers| && !s.workers[w].Idle? && !s.workers[w].Counting? && Taped(s, id)
    requires !(s.workers[w].id == id && s.workers[w].Closing? && e.finalizeOk)
    ensures Taped(WorkStep(c, s, w, e), id)
  {
    var t, here := WorkStep(c, s, w, e), s.workers[w];
    Coherence.MoveGrows(c.setup, s.sh, here, e);
    MoveReleases(c.setup, s.sh, here, e);
    MoveFrame(c.setup, s.sh, here, e);
    SameTape(s, t, id);
  }

  lemma QuietTaped(c: Config, s: State, l: Label, t: State, id: Id)
    requires Taped(s, id) && Step(c, s, l, t) && (l.Work? ==> s.workers[l.w].Idle?)
    ensures Taped(t, id)
  {
    Coherence.StepGrows(c, s, l, t);
    if l.Crash? {
      assert t.sh.tape == [];
    } else {
      assert t.sh.tape == s.sh.tape && t.history.evidence == s.history.evidence;
      SameTape(s, t, id);
    }
  }

  lemma StepTaped(c: Config, s: State, l: Label, t: State, id: Id)
    requires Proper(c) && Accounted(c, s) && Sole(c, s, id) && Coherence.Coherent(s)
    requires Committed(c, s, id) && Taped(s, id) && Step(c, s, l, t)
    ensures Taped(t, id)
  {
    assert OneJob(c, s, id);
    if l.Work? && !s.workers[l.w].Idle? {
      var here := s.workers[l.w];
      if here.id == id && here.Counting? {
        CountTaped(c, s, l.w, l.env);
      } else if here.id == id && here.Closing? && l.env.finalizeOk {
        CommitsOnce(c, s, l.w);
        CommitTaped(c, s, l.w, l.env);
      } else if here.Counting? {
        OtherCountTaped(c, s, l.w, l.env, id);
      } else {
        OtherTaped(c, s, l.w, l.env, id);
      }
    } else {
      QuietTaped(c, s, l, t, id);
    }
  }

  // ---------- over every run ----------

  /** `Sole` looks back: an id that has arrived once so far had not arrived twice before. */
  lemma ReachableCommitted(c: Config, s: State, id: Id)
    requires Proper(c) && Reachable(c, s) && Sole(c, s, id)
    ensures Committed(c, s, id) && Taped(s, id)
  {
    var inv := u => Sole(c, u, id) ==> Committed(c, u, id) && Taped(u, id);
    forall u, l, t | Step(c, u, l, t) && Reachable(c, u) && inv(u) ensures inv(t) {
      StepArrivals(c, u, l, t);
      ReachableAccounted(c, u);
      Coherence.ReachableCoherent(c, u);
      if Sole(c, t, id) {
        StepCommitted(c, u, l, t, id);
        StepTaped(c, u, l, t, id);
      }
    }
    Always(c, s, inv);
  }

  /** A worker about to commit such a row finds no earlier commit of its id. */
  lemma CommittedAtMostOnce(c: Config, s: State, w: nat, e: Env, t: State)
    requires Proper(c) && Reachable(c, s) && Step(c, s, Work(w, e), t)
    requires s.workers[w].Closing? && t.workers[w].Counting? && Sole(c, s, s.workers[w].id)
    ensures s.workers[w].id !in s.history.evidence && s.workers[w].id in t.history.evidence
  {
    ReachableCommitted(c, s, s.workers[w].id);
    CommitsOnce(c, s, w);
  }

  ghost predicate AlwaysOneCommit(c: Config) {
    forall s, w: nat, e, t ::
      Reachable(c, s) && Step(c, s, Work(w, e), t) && s.workers[w].Closing? && t.workers[w].Counting? ==>
        s.workers[w].id !in s.history.evidence
  }

  /** Rows are finalized `ok` once at most in every run exactly if repeats are guarded against. */
  lemma OneCommitIff(c: Config)
    requires Proper(c)
    ensures AlwaysOneCommit(c) <==> Guarded(c)
  {
    if Guarded(c) {
      forall s, w: nat, e, t |
        Reachable(c, s) && Step(c, s, Work(w, e), t) && s.workers[w].Closing? && t.workers[w].Counting?
        ensures s.workers[w].id !in s.history.evidence
      {
        GuardedIsSole(c, s, s.workers[w].id);
        CommittedAtMostOnce(c, s, w, e, t);
      }
    } else {
      var s, l, t := Witnesses.TwoCommits(c);
    }
  }

  /** A tape row repeats the evidence of its own row, and is the only one for its id since the boot. */
  lemma TapeRowsAreEvidence(c: Config, s: State, i: nat)
    requires Proper(c) && Reachable(c, s) && i < |s.sh.tape| && Sole(c, s, s.sh.tape[i].requestId)
    ensures var id := s.sh.tape[i].requestId;
      && id in s.sh.rows && id in s.history.evidence
      && Repeats(s.sh.tape[i], id, s.sh.rows[id].primary, s.history.evidence[id])
      && forall j :: 0 <= j < |s.sh.tape| && s.sh.tape[j].requestId == id ==> j == i
  {
    ReachableCommitted(c, s, s.sh.tape[i].requestId);
  }

  /** Every row in the tape's file repeats the evidence of its own row, and no id is in the file twice. */
  lemma FileIsEvidence(c: Config, s: State, tape: MismatchTape, i: nat)
    requires Proper(c) && Reachable(c, s) && tape.Valid() && tape.offered == s.sh.tape
    requires i < |tape.file| && Sole(c, s, tape.file[i].requestId)
    ensures var id := tape.file[i].requestId;
      && id in s.sh.rows && id in s.history.evidence
      && Repeats(tape.file[i], id, s.sh.rows[id].primary, s.history.evidence[id])
      && forall j :: 0 <= j < |tape.file| && tape.file[j].requestId == id ==> j == i
  {
    var at := WrittenInOrder(tape.offered[..|tape.fates|], tape.fates, Fate.Written);
    TapeRowsAreEvidence(c, s, at[i]);
    forall j | 0 <= j < |tape.file| && tape.file[j].requestId == tape.file[i].requestId ensures j == i {
      assert at[j] == at[i];
    }
  }
}
