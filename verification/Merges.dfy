/**
 * Whether the archived candidate response is the one its row was judged on. It is, for an id that shares its
 * last segment with no other, whenever the merge of the handler that committed the row has succeeded.
 */
module Merges {
  import opened Prelude
  import opened RawStore
  import opened Rows
  import opened Dispatcher
  import opened Pipeline
  import opened Chat
  import opened Protocol
  import opened Coherence
  import opened Accounting
  import opened Evidence
  import Commits
  import opened Scenes
  import Witnesses

  /** The id has arrived once, and no other id of the run has the same last segment. */
  ghost predicate Unshared(s: State, id: Id) {
    && ArrivedOnce(s, id)
    && forall other :: Arrived(s, other) && other != id ==> AfterLastSlash(other) != AfterLastSlash(id)
  }

  /** The response of a merge is where the merge has put it. */
  ghost predicate Kept(raw: Archive, id: Id, d: Done) {
    d.merged.Some? ==>
      && d.merged.value in raw && raw[d.merged.value].candidateResponse == Some(d.response)
      && exists day: Date :: d.merged.value == KeyFor(day, AfterLastSlash(id))
  }

  ghost predicate WorkerKept(raw: Archive, id: Id, w: Worker) {
    Job(w, id) ==>
      match w
      case MergeGet(_, _, d) => d.merged == None
      case MergePut(_, _, d, _) => d.merged == None
      case Closing(_, _, d) => Kept(raw, id, d)
      case Counting(_, _, d) => Kept(raw, id, d)
      case _ => true
  }

  ghost predicate MergeKept(s: State, id: Id) {
    && (forall w :: 0 <= w < |s.workers| ==> WorkerKept(s.sh.raw, id, s.workers[w]))
    && (id in s.history.evidence ==> Kept(s.sh.raw, id, s.history.evidence[id]))
  }

  /** An archive that differs only in keys of other segments. */
  ghost predicate Spared(raw: Archive, more: Archive, id: Id) {
    forall day: Date :: KeyFor(day, AfterLastSlash(id)) in raw ==>
      KeyFor(day, AfterLastSlash(id)) in more
      && more[KeyFor(day, AfterLastSlash(id))] == raw[KeyFor(day, AfterLastSlash(id))]
  }

  lemma SparedKept(raw: Archive, more: Archive, id: Id, d: Done)
    requires Spared(raw, more, id) && Kept(raw, id, d)
    ensures Kept(more, id, d)
  {
  }

  lemma SparedWorker(raw: Archive, more: Archive, id: Id, w: Worker)
    requires Spared(raw, more, id) && WorkerKept(raw, id, w)
    ensures WorkerKept(more, id, w)
  {
    if Job(w, id) && (w.Closing? || w.Counting?) { SparedKept(raw, more, id, w.done); }
  }

  // ---------- workers ----------

  /** Where a merge writes, seen from another id. */
  lemma OtherMergeSpares(sh: Shared, c: Setup, w: Worker, e: Env, id: Id)
    requires !w.Idle? && WorkerOk(sh.rows, w) && (w.id in sh.rows ==> KeyOk(sh.raw, w.id, sh.rows[w.id].primary.rawKey))
    requires w.MergePut? ==> AfterLastSlash(w.id) != AfterLastSlash(id)
    ensures Spared(sh.raw, Move(c, sh, w, e).0.raw, id)
  {
    if w.MergePut? && w.rec.primary.rawKey.Some? {
      MergeKey(sh.rows, sh.raw, w, e.today);
      forall day: Date
        ensures KeyFor(day, AfterLastSlash(id)) != KeyFor(e.today, AfterLastSlash(w.id))
      {
        KeyInjective(day, AfterLastSlash(id), e.today, AfterLastSlash(w.id));
      }
    }
  }

  /** The worker's own next position. */
  lemma MoveKept(c: Setup, sh: Shared, w: Worker, e: Env)
    requires !w.Idle? && WorkerKept(sh.raw, w.id, w)
    requires WorkerOk(sh.rows, w) && (w.id in sh.rows ==> KeyOk(sh.raw, w.id, sh.rows[w.id].primary.rawKey))
    ensures var r := Move(c, sh, w, e); WorkerKept(r.0.raw, w.id, r.1)
  {
    if w.MergePut? && w.rec.primary.rawKey.Some? { MergeKey(sh.rows, sh.raw, w, e.today); }
  }

  lemma OwnWorkKept(c: Config, s: State, w: nat, e: Env)
    requires Sound(c, s) && Coherent(s) && w < |s.workers| && !s.workers[w].Idle?
    requires OneJob(c, s, s.workers[w].id) && Commits.Committed(c, s, s.workers[w].id) && MergeKept(s, s.workers[w].id)
    ensures MergeKept(WorkStep(c, s, w, e), s.workers[w].id)
  {
    var t, here := WorkStep(c, s, w, e), s.workers[w];
    var id := here.id;
    assert WorkerOk(s.sh.rows, here) && WorkerKept(s.sh.raw, id, here) && Job(here, id);
    MoveKept(c.setup, s.sh, here, e);
    if Holding(here).Some? { Commits.CommitsOnce(c, s, w); }
    forall v | 0 <= v < |t.workers| && v != w ensures WorkerKept(t.sh.raw, id, t.workers[v]) {
      assert t.workers[v] == s.workers[v] && !Job(s.workers[v], id);
    }
  }

  lemma OtherWorkKept(c: Config, s: State, w: nat, e: Env, id: Id)
    requires Known(c, s) && Sound(c, s) && Coherent(s) && Unshared(s, id) && MergeKept(s, id)
    requires w < |s.workers| && !s.workers[w].Idle? && s.workers[w].id != id
    ensures MergeKept(WorkStep(c, s, w, e), id)
  {
    var t, here := WorkStep(c, s, w, e), s.workers[w];
    assert WorkerOk(s.sh.rows, here) && Arrived(s, here.id);
    OtherMergeSpares(s.sh, c.setup, here, e, id);
    MoveReleases(c.setup, s.sh, here, e);
    if id in s.history.evidence { SparedKept(s.sh.raw, t.sh.raw, id, s.history.evidence[id]); }
    forall v | 0 <= v < |t.workers| ensures WorkerKept(t.sh.raw, id, t.workers[v]) {
      if v != w {
        assert t.workers[v] == s.workers[v];
        SparedWorker(s.sh.raw, t.sh.raw, id, s.workers[v]);
      }
    }
  }

  // ---------- requests ----------

  /** A put under a name of this segment can only be that of the id itself, before it has a row. */
  lemma ServeKept(c: Config, s: State, tag: nat, e: ChatEnv, id: Id)
    requires Known(c, s) && OneJob(c, s, id) && Unshared(s, id) && Commits.Committed(c, s, id) && MergeKept(s, id)
    requires tag in s.chats && Open(s.chats[tag])
    ensures MergeKept(ServeStep(c, s, tag, e), id)
  {
    var t, here := ServeStep(c, s, tag, e), s.chats[tag];
    assert t.workers == s.workers && t.history.evidence == s.history.evidence;
    if here.AtArchive? && here.r.id == id {
      assert InNobodysHands(s, id) && id !in s.history.evidence;
    } else {
      PutSpares(c, s, tag, e, id);
      if id in s.history.evidence { SparedKept(s.sh.raw, t.sh.raw, id, s.history.evidence[id]); }
      forall v | 0 <= v < |t.workers| ensures WorkerKept(t.sh.raw, id, t.workers[v]) {
        SparedWorker(s.sh.raw, t.sh.raw, id, s.workers[v]);
      }
    }
  }

  lemma PutSpares(c: Config, s: State, tag: nat, e: ChatEnv, id: Id)
    requires Known(c, s) && Unshared(s, id) && tag in s.chats && Open(s.chats[tag])
    requires s.chats[tag].AtArchive? ==> s.chats[tag].r.id != id
    ensures Spared(s.sh.raw, ServeStep(c, s, tag, e).sh.raw, id)
  {
    var here := s.chats[tag];
    assert Carries(s, tag, here.r.id) && Arrived(s, here.r.id);
    SegmentIsClean(id);
    assert AfterLastSlash(AfterLastSlash(id)) == AfterLastSlash(id);
    if here.AtArchive? {
      forall day: Date ensures KeyFor(day, AfterLastSlash(id)) != KeyFor(e.today, here.r.id) {
        KeyInjective(day, AfterLastSlash(id), e.today, here.r.id);
      }
    }
  }

  // ---------- every reachable state ----------

  lemma StepKept(c: Config, s: State, l: Label, t: State, id: Id)
    requires Accounted(c, s) && Sound(c, s) && Coherent(s) && Unshared(s, id)
    requires Commits.Committed(c, s, id) && MergeKept(s, id) && Step(c, s, l, t)
    ensures MergeKept(t, id)
  {
    assert Sole(c, s, id) && OneJob(c, s, id);
    if l.Serve? {
      ServeKept(c, s, l.tag, l.chatEnv, id);
    } else if l.Work? && !s.workers[l.w].Idle? {
      if s.workers[l.w].id == id { OwnWorkKept(c, s, l.w, l.env); } else { OtherWorkKept(c, s, l.w, l.env, id); }
    } else {
      QuietFrame(c, s, l, t);
    }
  }

  /** The response in the archive is the one the row was judged on, where the committing handler has merged it. */
  lemma ArchivedIsJudged(c: Config, s: State, id: Id)
    requires Proper(c) && Reachable(c, s) && Unshared(s, id)
    requires id in s.history.evidence && s.history.evidence[id].merged.Some?
    ensures var d := s.history.evidence[id];
      d.merged.value in s.sh.raw && s.sh.raw[d.merged.value].candidateResponse == Some(d.response)
  {
    var inv := u => Unshared(u, id) ==> MergeKept(u, id);
    forall u, l, t | Step(c, u, l, t) && Reachable(c, u) && inv(u) ensures inv(t) {
      StepArrivals(c, u, l, t);
      ReachableAccounted(c, u);
      ReachableSound(c, u);
      ReachableCoherent(c, u);
      if Unshared(t, id) {
        Commits.ReachableCommitted(c, u, id);
        StepKept(c, u, l, t, id);
      }
    }
    Always(c, s, inv);
  }

  // ---------- where the commit comes without its merge ----------

  /** A crash, and the first step of a restart. */
  lemma Rebooted(c: Config, s: State) returns (t: State)
    requires Reachable(c, s) && s.phase.Serving?
    ensures Reachable(c, t) && t.phase.Starting? && t.queue == [] && t.sh.rows == s.sh.rows && t.sh.raw == s.sh.raw
    ensures |t.workers| == |s.workers| && forall w :: 0 <= w < |t.workers| ==> t.workers[w].Idle?
  {
    t := Reach(c, s, Crash);
    t := Reach(c, t, Boot);
  }

  lemma Listed(c: Config, s: State, id: Id) returns (t: State)
    requires Reachable(c, s) && s.phase.Starting? && UnfinishedIds(s.sh.rows) == {id}
    ensures Reachable(c, t) && t.phase == Requeueing([id])
    ensures t.queue == s.queue && t.workers == s.workers && t.sh == s.sh
  {
    assert Elements([id]) == {id};
    t := Reach(c, s, Query([id]));
  }

  lemma Filled(c: Config, s: State, id: Id) returns (t: State)
    requires Proper(c) && Reachable(c, s) && s.phase == Requeueing([id]) && s.queue == []
    ensures Reachable(c, t) && t.phase.Serving? && t.queue == [id] && t.workers == s.workers && t.sh == s.sh
  {
    t := Reach(c, s, Requeue);
    BurstFits(c, [id]);
    assert Survivors(c.policy, c.capacity, [id]) == [id];
  }

  /** The restart requeues the one row. */
  lemma Restarted(c: Config, s: State) returns (t: State)
    requires Proper(c) && Reachable(c, s) && s.phase.Serving? && |s.workers| == c.workers
    requires s.sh.rows.Keys == {Witnesses.ID} && Unfinished(s.sh.rows[Witnesses.ID])
    requires s.sh.rows[Witnesses.ID].primary.status == Succeeded
    ensures Handed(c, t, Witnesses.ID) && t.sh.rows == s.sh.rows && t.sh.raw == s.sh.raw
  {
    t := Rebooted(c, s);
    assert UnfinishedIds(t.sh.rows) == {Witnesses.ID};
    t := Listed(c, t, Witnesses.ID);
    t := Filled(c, t, Witnesses.ID);
  }

  lemma MergedOnce(c: Config) returns (s: State)
    requires Proper(c) && c.setup.archive
    ensures Reachable(c, s) && s.phase.Serving? && |s.workers| == c.workers && s.sh.rows.Keys == {Witnesses.ID}
    ensures Unfinished(s.sh.rows[Witnesses.ID]) && s.sh.rows[Witnesses.ID].primary.status == Succeeded
    ensures var key := KeyFor(TODAY, Witnesses.ID);
      && s.sh.rows[Witnesses.ID].primary.rawKey == Some(key) && key in s.sh.raw
      && s.sh.raw[key].primaryResponse == Some(Say("{}")) && s.sh.raw[key].candidateResponse == Some(Say("[]"))
  {
    var id := Witnesses.ID;
    s := Witnesses.Start(c, "{}");
    Witnesses.OwnBody(c, s.sh.raw, id, "{}", true);
    s := Load(c, s, id, true);
    s := Decide(c, s, id, "{}", "[]");
    s := Fetch(c, s, PayloadOf(Ask(id), Out("{}"), 0));
    IdOfKeyIsSegment(TODAY, id);
    assert '/' !in id;
    var _, t := Merge(c, s);
    s := t;
  }

  /** A crash between merge and finalize, and a second attempt whose merge fails: the archive keeps the first answer. */
  lemma StaleAnswer(c: Config) returns (s: State)
    requires Proper(c) && c.setup.archive
    ensures Reachable(c, s) && Witnesses.ID in s.sh.rows && s.sh.rows[Witnesses.ID].status == Ok
    ensures Witnesses.ID in s.history.evidence && s.history.evidence[Witnesses.ID].merged == None
    ensures s.sh.rows[Witnesses.ID].primary.rawKey == Some(KeyFor(TODAY, Witnesses.ID))
    ensures KeyFor(TODAY, Witnesses.ID) in s.sh.raw
    ensures s.history.evidence[Witnesses.ID].response == Say("{}")
    ensures s.sh.raw[KeyFor(TODAY, Witnesses.ID)].candidateResponse == Some(Say("[]")) != Some(Say("{}"))
  {
    s := MergedOnce(c);
    s := Restarted(c, s);
    SayIsRead(c.setup.intLike, "{}");
    SayIsRead(c.setup.intLike, "[]");
    s := Scenes.Judged(c, s, Witnesses.ID, "{}", "{}", true);
  }
}
