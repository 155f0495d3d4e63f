/**
 * From a finished row back to what the primary model said. An object is overwritten by a request that repeats
 * its id, and by the merge of a row whose id ends in it; a row whose id meets neither is judged on the text of
 * its own request, whatever else happens.
 */
module Verdicts {
  import opened Prelude
  import opened Evaluator
  import opened Llm
  import opened RawStore
  import opened Rows
  import opened Pipeline
  import opened Chat
  import opened Protocol
  import opened Coherence
  import opened Accounting
  import opened Evidence
  import Commits

  /** A request with the second id overwrites objects of the first. */
  predicate Collides(id: Id, other: Id) { other == id || AfterLastSlash(other) == id }

  /** The id has arrived once, and no other id of the run ends in it. */
  ghost predicate Alone(s: State, id: Id) {
    ArrivedOnce(s, id) && forall other :: Arrived(s, other) && other != id ==> !Collides(id, other)
  }

  type Origins = map<Id, Origin>

  /** The archived part of a request that must never change. */
  ghost predicate GoodPayload(o: Origins, id: Id, p: RawStore.Payload) {
    id in o && p.request == o[id].r.body && p.primaryResponse == o[id].out.raw
  }

  /** A text that was read from the archive is the one the primary model gave to this request. */
  ghost predicate OwnDone(o: Origins, id: Id, d: Done) {
    d.loaded ==> id in o && ContentOf(o[id].out.raw) == Some(d.primary)
  }

  ghost predicate OwnOrigin(o: Origins, id: Id) {
    id in o ==>
      o[id].r.id == id && (o[id].out.status == Succeeded ==> ContentOf(o[id].out.raw) == Some(o[id].out.content))
  }

  ghost predicate OwnObjects(o: Origins, raw: Archive, id: Id) {
    forall d: Date :: KeyFor(d, id) in raw ==> GoodPayload(o, id, raw[KeyFor(d, id)])
  }

  ghost predicate OwnRow(c: Setup, o: Origins, ev: map<Id, Done>, t: Table, id: Id) {
    id in t ==>
      && id in o && t[id].primary == ColumnsOf(c, o[id].r, o[id].out, t[id].primary.rawKey)
      && (t[id].status == Ok && id in ev ==> OwnDone(o, id, ev[id]))
  }

  ghost predicate OwnWorker(o: Origins, id: Id, w: Worker) {
    Job(w, id) ==>
      match w
      case Calling(_, _, body) => body.Some? ==> GoodPayload(o, id, body.value)
      case MergeGet(_, _, d) => OwnDone(o, id, d)
      case MergePut(_, _, d, p) => OwnDone(o, id, d) && GoodPayload(o, id, p)
      case Closing(_, _, d) => OwnDone(o, id, d)
      case _ => true
  }

  ghost predicate OwnChat(o: Origins, id: Id, st: ChatState) {
    st.r.id == id ==>
      match st
      case AtPrimary(_) => id !in o
      case AtArchive(r, out) => id in o && o[id] == Origin(r, out)
      case AtInsert(r, out, _) => id in o && o[id] == Origin(r, out)
      case AtGate(r, out, _) => id in o && o[id] == Origin(r, out)
      case _ => true
  }

  ghost predicate OwnStored(o: Origins, id: Id, stored: map<nat, Written>) {
    forall tag :: tag in stored && stored[tag].id == id ==> id in o && stored[tag].origin == o[id]
  }

  ghost predicate OwnWorkers(o: Origins, id: Id, ws: seq<Worker>) {
    forall w :: 0 <= w < |ws| ==> OwnWorker(o, id, ws[w])
  }

  ghost predicate OwnChats(o: Origins, id: Id, chats: map<nat, ChatState>) {
    forall g :: g in chats ==> OwnChat(o, id, chats[g])
  }

  /** Everything known about the id leads back to its one request. */
  ghost predicate Traced(c: Config, s: State, id: Id) {
    var o := s.history.origin;
    && OwnOrigin(o, id) && OwnObjects(o, s.sh.raw, id) && OwnRow(c.setup, o, s.history.evidence, s.sh.rows, id)
    && OwnWorkers(o, id, s.workers) && OwnChats(o, id, s.chats) && OwnStored(o, id, s.history.stored)
  }

  // ---------- the request itself ----------

  lemma OutcomeReadsBack(c: Setup, post: PostOutcome, latency: int)
    ensures var out := RunPrimary(c, post, latency);
      out.Some? && out.value.status == Succeeded ==> ContentOf(out.value.raw) == Some(out.value.content)
  {
    match post
    case Reply(code, _, body) =>
      if code < 400 && body.Some? && ToChatResponse(c.intLike, body.value).Response? {
        ArchivedContentIsResponse(c.intLike, body.value);
      }
    case _ =>
  }

  lemma OnlyChat(c: Config, s: State, tag: nat, id: Id)
    requires Known(c, s) && ArrivedOnce(s, id) && tag in s.chats && s.chats[tag].r.id == id
    ensures forall g :: g in s.chats && s.chats[g].r.id == id ==> g == tag
  {
    assert Carries(s, tag, id);
    forall g | g in s.chats && s.chats[g].r.id == id ensures g == tag { assert Carries(s, g, id); }
  }

  lemma PrimaryTraced(c: Config, s: State, tag: nat, e: ChatEnv, id: Id)
    requires Known(c, s) && ArrivedOnce(s, id) && Traced(c, s, id)
    requires tag in s.chats && s.chats[tag].AtPrimary? && s.chats[tag].r.id == id
    ensures Traced(c, ServeStep(c, s, tag, e), id)
  {
    var t := ServeStep(c, s, tag, e);
    var o, p := s.history.origin, t.history.origin;
    OutcomeReadsBack(c.setup, e.post, e.latency);
    OnlyChat(c, s, tag, id);
    assert OwnChat(o, id, s.chats[tag]) && id !in o;
    assert t.sh == s.sh && t.workers == s.workers && t.history.stored == s.history.stored;
    assert forall d: Date :: KeyFor(d, id) !in t.sh.raw;
    forall w | 0 <= w < |t.workers| ensures OwnWorker(p, id, t.workers[w]) { assert OwnWorker(o, id, s.workers[w]); }
  }

  lemma ArchiveTraced(c: Config, s: State, tag: nat, e: ChatEnv, id: Id)
    requires Traced(c, s, id) && tag in s.chats && s.chats[tag].AtArchive?
    ensures Traced(c, ServeStep(c, s, tag, e), id)
  {
    var t, here := ServeStep(c, s, tag, e), s.chats[tag];
    var o := s.history.origin;
    assert OwnChat(o, id, here);
    forall d: Date | KeyFor(d, id) in t.sh.raw ensures GoodPayload(o, id, t.sh.raw[KeyFor(d, id)]) {
      KeyInjective(d, id, e.today, here.r.id);
    }
    forall g | g in t.chats ensures OwnChat(o, id, t.chats[g]) { assert OwnChat(o, id, s.chats[g]); }
  }

  lemma InsertTraced(c: Config, s: State, tag: nat, e: ChatEnv, id: Id)
    requires Traced(c, s, id) && Known(c, s) && tag in s.chats && (s.chats[tag].AtInsert? || s.chats[tag].AtGate?)
    ensures Traced(c, ServeStep(c, s, tag, e), id)
  {
    var t, here := ServeStep(c, s, tag, e), s.chats[tag];
    var o := s.history.origin;
    assert OwnChat(o, id, here);
    assert t.history.origin == o && t.sh.raw == s.sh.raw && t.history.evidence == s.history.evidence;
    forall g | g in t.chats ensures OwnChat(o, id, t.chats[g]) { assert OwnChat(o, id, s.chats[g]); }
  }

  lemma OtherPrimaryTraced(c: Config, s: State, tag: nat, e: ChatEnv, id: Id)
    requires Traced(c, s, id) && tag in s.chats && s.chats[tag].AtPrimary? && s.chats[tag].r.id != id
    ensures Traced(c, ServeStep(c, s, tag, e), id)
  {
    var t := ServeStep(c, s, tag, e);
    var o, p := s.history.origin, t.history.origin;
    assert (id in p <==> id in o) && (id in o ==> p[id] == o[id]);
    assert t.sh == s.sh && t.workers == s.workers && t.history.stored == s.history.stored;
    forall d: Date | KeyFor(d, id) in t.sh.raw ensures GoodPayload(p, id, t.sh.raw[KeyFor(d, id)]) {
      assert GoodPayload(o, id, s.sh.raw[KeyFor(d, id)]);
    }
    forall w | 0 <= w < |t.workers| ensures OwnWorker(p, id, t.workers[w]) { assert OwnWorker(o, id, s.workers[w]); }
    forall g | g in t.chats ensures OwnChat(p, id, t.chats[g]) { assert OwnChat(o, id, s.chats[g]); }
  }

  // ---------- workers ----------

  /** What a worker reads under its own key. */
  lemma LoadedIsOwn(c: Setup, o: Origins, raw: Archive, id: Id, key: Option<string>, up: bool)
    requires KeyOk(raw, id, key) && OwnObjects(o, raw, id)
    ensures var p := LoadBody(c, raw, key, up); p.Some? ==> GoodPayload(o, id, p.value)
  {
    if key.Some? {
      var d: Date :| key.value == KeyFor(d, id);
      assert KeyFor(d, id) in raw;
    }
  }

  lemma MoveTraced(c: Setup, o: Origins, sh: Shared, w: Worker, e: Env, id: Id)
    requires !w.Idle? && WorkerOk(sh.rows, w) && OwnWorker(o, id, w) && OwnObjects(o, sh.raw, id)
    requires w.id in sh.rows ==> KeyOk(sh.raw, w.id, sh.rows[w.id].primary.rawKey)
    ensures OwnWorker(o, id, Move(c, sh, w, e).1)
  {
    if w.id == id && (w.Loading? || w.MergeGet?) {
      LoadedIsOwn(c, o, sh.raw, id, w.rec.primary.rawKey, if w.Loading? then e.loadOk else e.mergeGetOk);
    }
  }

  /** A merge writes under the last segment of its id, so it spares ids that stand alone. */
  lemma MergeTraced(c: Setup, o: Origins, sh: Shared, w: Worker, e: Env, id: Id)
    requires !w.Idle? && WorkerOk(sh.rows, w) && OwnWorker(o, id, w) && OwnObjects(o, sh.raw, id)
    requires w.id in sh.rows ==> KeyOk(sh.raw, w.id, sh.rows[w.id].primary.rawKey)
    requires w.id != id ==> !Collides(id, w.id)
    ensures OwnObjects(o, Move(c, sh, w, e).0.raw, id)
  {
    if w.MergePut? && e.mergePutOk && w.rec.primary.rawKey.Some? {
      MergeKey(sh.rows, sh.raw, w, e.today);
      forall d: Date | KeyFor(d, id) in Move(c, sh, w, e).0.raw
        ensures GoodPayload(o, id, Move(c, sh, w, e).0.raw[KeyFor(d, id)])
      {
        KeyInjective(d, id, e.today, AfterLastSlash(w.id));
      }
    }
  }

  lemma RowTraced(c: Setup, o: Origins, ev: map<Id, Done>, sh: Shared, w: Worker, e: Env, id: Id)
    requires !w.Idle? && OwnWorker(o, id, w) && OwnRow(c, o, ev, sh.rows, id)
    ensures var r := Move(c, sh, w, e);
      OwnRow(c, o, if r.1.Counting? then ev[r.1.id := r.1.done] else ev, r.0.rows, id)
  {
    MoveReleases(c, sh, w, e);
    MoveGrows(c, sh, w, e);
    if !w.Closing? { OtherWrite(c, sh, w, e); }
  }

  lemma WorkTraced(c: Config, s: State, w: nat, e: Env, id: Id)
    requires Known(c, s) && Coherent(s) && Sound(c, s) && Alone(s, id) && Traced(c, s, id)
    requires w < |s.workers| && !s.workers[w].Idle?
    ensures Traced(c, WorkStep(c, s, w, e), id)
  {
    var t, here := WorkStep(c, s, w, e), s.workers[w];
    var o := s.history.origin;
    assert WorkerOk(s.sh.rows, here) && OwnWorker(o, id, here) && Arrived(s, here.id);
    MoveTraced(c.setup, o, s.sh, here, e, id);
    MergeTraced(c.setup, o, s.sh, here, e, id);
    RowTraced(c.setup, o, s.history.evidence, s.sh, here, e, id);
    assert forall v :: 0 <= v < |t.workers| && v != w ==> t.workers[v] == s.workers[v];
  }

  // ---------- every step, every run ----------

  lemma QuietTraced(c: Config, s: State, l: Label, t: State, id: Id)
    requires Known(c, s) && Traced(c, s, id) && Step(c, s, l, t)
    requires !l.Serve? && !l.Arrive? && (l.Work? ==> s.workers[l.w].Idle?)
    ensures Traced(c, t, id)
  {
    assert t.history.origin == s.history.origin && t.sh.raw == s.sh.raw;
    assert t.history.stored == s.history.stored && t.history.evidence == s.history.evidence;
    StepGrows(c, s, l, t);
  }

  lemma ArriveTraced(c: Config, s: State, tag: nat, r: Request, t: State, id: Id)
    requires Accounted(c, s) && Traced(c, s, id) && OriginsArrived(s) && Step(c, s, Arrive(tag, r), t)
    requires ArrivedOnce(t, id)
    ensures Traced(c, t, id)
  {
    OneMoreArrival(c, s, tag, r, t);
  }

  /** Only ids that have arrived have an origin. */
  ghost predicate OriginsArrived(s: State) { forall id :: id in s.history.origin ==> Arrived(s, id) }

  lemma StepOrigins(c: Config, s: State, l: Label, t: State)
    requires Known(c, s) && OriginsArrived(s) && Step(c, s, l, t)
    ensures OriginsArrived(t)
  {
    StepArrivals(c, s, l, t);
    if l.Serve? { assert Carries(s, l.tag, s.chats[l.tag].r.id); }
  }

  lemma StepTraced(c: Config, s: State, l: Label, t: State, id: Id)
    requires Accounted(c, s) && Coherent(s) && Sound(c, s) && OriginsArrived(s)
    requires Alone(s, id) && ArrivedOnce(t, id) && Traced(c, s, id) && Step(c, s, l, t)
    ensures Traced(c, t, id)
  {
    match l {
      case Arrive(tag, r) => ArriveTraced(c, s, tag, r, t, id);
      case Serve(tag, e) =>
        var here := s.chats[tag];
        if here.AtArchive? {
          ArchiveTraced(c, s, tag, e, id);
        } else if !here.AtPrimary? {
          InsertTraced(c, s, tag, e, id);
        } else if here.r.id == id {
          PrimaryTraced(c, s, tag, e, id);
        } else {
          OtherPrimaryTraced(c, s, tag, e, id);
        }
      case Work(w, e) =>
        if s.workers[w].Idle? { QuietTraced(c, s, l, t, id); } else { WorkTraced(c, s, w, e, id); }
      case _ => QuietTraced(c, s, l, t, id);
    }
  }

  /** An id that stands alone now has stood alone before. */
  lemma StepAlone(c: Config, s: State, l: Label, t: State, id: Id)
    requires Step(c, s, l, t) && Alone(t, id)
    ensures Alone(s, id)
  {
    StepArrivals(c, s, l, t);
  }

  lemma {:induction false} RunAlone(c: Config, s: State, ls: seq<Label>, t: State, id: Id)
    requires Run(c, s, ls, t) && Alone(t, id)
    ensures Alone(s, id)
    decreases |ls|
  {
    if ls != [] {
      RunAlone(c, Apply(c, s, ls[0]), ls[1..], t, id);
      StepAlone(c, s, ls[0], Apply(c, s, ls[0]), id);
    }
  }

  ghost predicate Kept(o: Origins, p: Origins, id: Id) { id in o ==> id in p && p[id] == o[id] }

  lemma StepKept(c: Config, s: State, l: Label, t: State, id: Id)
    requires Traced(c, s, id) && Step(c, s, l, t)
    ensures Kept(s.history.origin, t.history.origin, id) && More(s.sh.raw, t.sh.raw)
  {
    match l
    case Serve(tag, _) => assert OwnChat(s.history.origin, id, s.chats[tag]);
    case Work(w, e) => if !s.workers[w].Idle? { MoveMore(c.setup, s.sh, s.workers[w], e); }
    case _ =>
  }

  lemma {:induction false} RunTraced(c: Config, s: State, ls: seq<Label>, t: State, id: Id)
    requires Proper(c) && Reachable(c, s) && OriginsArrived(s) && Traced(c, s, id) && Run(c, s, ls, t) && Alone(t, id)
    ensures OriginsArrived(t) && Traced(c, t, id)
    ensures Kept(s.history.origin, t.history.origin, id) && More(s.sh.raw, t.sh.raw)
    decreases |ls|
  {
    if ls != [] {
      var next := Apply(c, s, ls[0]);
      RunAlone(c, next, ls[1..], t, id);
      StepAlone(c, s, ls[0], next, id);
      ReachableAccounted(c, s);
      ReachableCoherent(c, s);
      ReachableSound(c, s);
      StepOrigins(c, s, ls[0], next);
      StepTraced(c, s, ls[0], next, id);
      StepKept(c, s, ls[0], next, id);
      ReachableStep(c, s, ls[0], next);
      RunTraced(c, next, ls[1..], t, id);
    }
  }

  lemma ReachableTraced(c: Config, s: State, id: Id)
    requires Proper(c) && Reachable(c, s) && Alone(s, id)
    ensures Traced(c, s, id) && OriginsArrived(s)
  {
    var ls :| Run(c, Init(c), ls, s);
    assert Run(c, Init(c), [], Init(c));
    RunTraced(c, Init(c), ls, s, id);
  }

  // ---------- what a finished row says ----------

  /**
   * End to end, for every environment. A row finalized `ok` carries the evaluator's verdict and reasons on two
   * texts and the measured latency. The first text is empty if the archive could not be read, as it cannot
   * where no key was recorded. The candidate action is that of the one commit for every id that cannot come
   * back to life.
   */
  lemma EndToEndVerdict(c: Config, s: State, id: Id)
    requires Proper(c) && Reachable(c, s) && id in s.sh.rows && s.sh.rows[id].status == Ok
    ensures id in s.history.evidence
    ensures var row, d, k := s.sh.rows[id], s.history.evidence[id], c.setup;
      var result := Evaluation(k.lib, k.settings, d.primary, d.candidate);
      && row.verdict == result.verdict && row.reasons == result.reasons && row.latency == Some(d.latency)
      && (row.verdict == Match <==> exists v, w ::
            && Names(k.lib, k.settings.compareKey, d.primary, v) && Names(k.lib, k.settings.compareKey, d.candidate, w)
            && SameAction(k.lib, k.settings, v, w))
      && (Sole(c, s, id) ==> row.action == result.candidateAction)
      && (row.primary.rawKey == None ==> !d.loaded)
      && (!d.loaded ==> d.primary == "" && (k.settings.requireJson ==> row.verdict == InvalidJson))
  {
    ReachableSound(c, s);
    assert SoundRow(c.setup, s.history.evidence, id, s.sh.rows[id]);
    if Sole(c, s, id) {
      Commits.ReachableCommitted(c, s, id);
      assert Commits.ActionOf(s, id);
    }
    var d := s.history.evidence[id];
    VerdictMeaning(c.setup.lib, c.setup.settings, d.primary, d.candidate);
    EmptyIsInvalid(c.setup.lib, c.setup.settings, d.candidate);
  }

  /**
   * A row whose id stands alone, judged on an archive that could be read, was judged on the text of its own
   * request; the action stored at insert is what that text shows under "action", and the evaluator's primary
   * action what it shows under the key it compares.
   */
  lemma OwnTextIsJudged(c: Config, s: State, id: Id, tag: nat)
    requires Proper(c) && Reachable(c, s) && Alone(s, id) && id in s.sh.rows && s.sh.rows[id].status == Ok
    requires tag in s.history.stored && s.history.stored[tag].id == id
    ensures id in s.history.evidence
    ensures var row, own, d, k := s.sh.rows[id], s.history.stored[tag].origin, s.history.evidence[id], c.setup;
      && own.r.id == id && Recorded(k.lib, own.r, own.out, row.primary.rawKey, row.primary)
      && (d.loaded ==> d.primary == own.out.content)
      && row.primary.action == Shown(k.lib, Action(k.lib, "action", own.out.content))
      && (d.loaded && row.verdict != InvalidJson ==>
            Evaluation(k.lib, k.settings, d.primary, d.candidate).primaryAction
            == Shown(k.lib, Action(k.lib, k.settings.compareKey, own.out.content)))
  {
    ReachableTraced(c, s, id);
    ReachableCoherent(c, s);
    ReachableSound(c, s);
    assert SoundRow(c.setup, s.history.evidence, id, s.sh.rows[id]);
    assert RowOk(s.sh.rows[id]);
    var d := s.history.evidence[id];
    var own := s.history.stored[tag].origin;
    StoredActionIsShown(c.setup.lib, c.setup.settings, own.out.content, d.candidate);
    ColumnsRecord(c.setup, own.r, own.out, s.sh.rows[id].primary.rawKey);
  }

  /** Archived request and primary response never change over a run in which the id stands alone. */
  lemma ArchiveIsStable(c: Config, s: State, ls: seq<Label>, t: State, d: Date, id: Id)
    requires Proper(c) && Reachable(c, s) && Run(c, s, ls, t) && Alone(t, id) && KeyFor(d, id) in s.sh.raw
    ensures var key := KeyFor(d, id);
      && key in t.sh.raw && t.sh.raw[key].request == s.sh.raw[key].request
      && t.sh.raw[key].primaryResponse == s.sh.raw[key].primaryResponse
  {
    RunAlone(c, s, ls, t, id);
    ReachableTraced(c, s, id);
    RunTraced(c, s, ls, t, id);
    assert GoodPayload(s.history.origin, id, s.sh.raw[KeyFor(d, id)]);
    assert GoodPayload(t.history.origin, id, t.sh.raw[KeyFor(d, id)]);
  }
}
