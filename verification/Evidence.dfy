/**
 * What holds of archive keys and of finished rows for every environment: clients may repeat ids and put
 * slashes into them.
 */
module Evidence {
  import opened Prelude
  import opened Evaluator
  import opened RawStore
  import opened Rows
  import opened Pipeline
  import opened Chat
  import opened Protocol
  import opened Coherence
  import opened Accounting

  /** A recorded key leads to an object, and was printed for this id. */
  ghost predicate KeyOk(raw: Archive, id: Id, key: Option<string>) {
    key.Some? ==> key.value in raw && exists d: Date :: key.value == KeyFor(d, id)
  }

  ghost predicate ChatKeyOk(raw: Archive, st: ChatState) {
    (st.AtInsert? || st.AtGate?) ==> KeyOk(raw, st.r.id, st.key)
  }

  /** The evaluator's result on two texts, the first of them empty where nothing could be read. */
  ghost predicate SoundDone(c: Setup, d: Done) {
    d.result == Evaluation(c.lib, c.settings, d.primary, d.candidate) && (!d.loaded ==> d.primary == "")
  }

  ghost predicate SoundWorker(c: Setup, w: Worker) {
    match w
    case Calling(_, rec, body) => body.Some? ==> rec.primary.rawKey.Some?
    case MergeGet(_, rec, d) => SoundDone(c, d) && (d.loaded ==> rec.primary.rawKey.Some?)
    case MergePut(_, rec, d, _) => SoundDone(c, d) && (d.loaded ==> rec.primary.rawKey.Some?)
    case Closing(_, rec, d) => SoundDone(c, d) && (d.loaded ==> rec.primary.rawKey.Some?)
    case Counting(_, rec, d) => SoundDone(c, d) && (d.loaded ==> rec.primary.rawKey.Some?)
    case _ => true
  }

  /** A finished row carries what its evidence says. */
  ghost predicate SoundRow(c: Setup, ev: map<Id, Done>, id: Id, r: Row) {
    r.status == Ok ==>
      id in ev && SoundDone(c, ev[id]) && r.verdict == ev[id].result.verdict && r.reasons == ev[id].result.reasons
      && r.latency == Some(ev[id].latency) && (ev[id].loaded ==> r.primary.rawKey.Some?)
  }

  /** Objects lie under the id of a request, or under the last segment of one. */
  ghost predicate NamedAfter(s: State, key: string) { exists d: Date, id: Id :: Arrived(s, id) && KeyNames(key, d, id) }

  predicate KeyNames(key: string, d: Date, id: Id) { key == KeyFor(d, id) || key == KeyFor(d, AfterLastSlash(id)) }

  ghost predicate SoundRows(c: Setup, ev: map<Id, Done>, sh: Shared) {
    forall id :: id in sh.rows ==> KeyOk(sh.raw, id, sh.rows[id].primary.rawKey) && SoundRow(c, ev, id, sh.rows[id])
  }

  ghost predicate SoundChats(raw: Archive, chats: map<nat, ChatState>) {
    forall g :: g in chats ==> ChatKeyOk(raw, chats[g])
  }

  ghost predicate SoundWorkers(c: Setup, ws: seq<Worker>) {
    forall w :: 0 <= w < |ws| ==> SoundWorker(c, ws[w])
  }

  ghost predicate SoundNames(s: State) { forall key :: key in s.sh.raw ==> NamedAfter(s, key) }

  ghost predicate Sound(c: Config, s: State) {
    && SoundRows(c.setup, s.history.evidence, s.sh) && SoundChats(s.sh.raw, s.chats)
    && SoundWorkers(c.setup, s.workers) && SoundNames(s) && (c.setup.archive || s.sh.raw == map[])
  }

  // ---------- objects are never deleted ----------

  ghost predicate More(raw: Archive, more: Archive) { forall key :: key in raw ==> key in more }

  lemma MoreKeys(raw: Archive, more: Archive, id: Id, key: Option<string>)
    requires More(raw, more) && KeyOk(raw, id, key)
    ensures KeyOk(more, id, key)
  {
  }

  lemma MoveMore(c: Setup, sh: Shared, w: Worker, e: Env)
    requires !w.Idle?
    ensures More(sh.raw, Move(c, sh, w, e).0.raw)
  {
  }

  lemma NamesStay(s: State, t: State, key: string)
    requires NamedAfter(s, key) && forall id :: Arrived(s, id) ==> Arrived(t, id)
    ensures NamedAfter(t, key)
  {
    var d: Date, id: Id :| Arrived(s, id) && KeyNames(key, d, id);
    assert Arrived(t, id) && KeyNames(key, d, id);
  }

  // ---------- requests ----------

  lemma ServeFrame(c: Config, s: State, tag: nat, e: ChatEnv)
    requires tag in s.chats && Open(s.chats[tag])
    ensures var t, here := ServeStep(c, s, tag, e), s.chats[tag];
      && More(s.sh.raw, t.sh.raw) && t.workers == s.workers && t.history.evidence == s.history.evidence
      && (forall key :: key in t.sh.raw ==> key in s.sh.raw || key == KeyFor(e.today, here.r.id))
      && (c.setup.archive || t.sh.raw == s.sh.raw) && t.history.arrivals == s.history.arrivals
      && (forall g :: g in t.chats && g != tag ==> g in s.chats && t.chats[g] == s.chats[g])
  {
  }

  lemma ServeNames(c: Config, s: State, tag: nat, e: ChatEnv)
    requires SoundNames(s) && Known(c, s) && tag in s.chats && Open(s.chats[tag])
    ensures SoundNames(ServeStep(c, s, tag, e))
  {
    var t, id := ServeStep(c, s, tag, e), s.chats[tag].r.id;
    ServeFrame(c, s, tag, e);
    SameArrivals(s, t);
    assert Carries(s, tag, id);
    forall key | key in t.sh.raw ensures NamedAfter(t, key) {
      if key in s.sh.raw { NamesStay(s, t, key); } else { assert KeyNames(key, e.today, id); }
    }
  }

  lemma ServeSound(c: Config, s: State, tag: nat, e: ChatEnv)
    requires Sound(c, s) && Known(c, s) && tag in s.chats && Open(s.chats[tag])
    ensures Sound(c, ServeStep(c, s, tag, e))
  {
    var t, here := ServeStep(c, s, tag, e), s.chats[tag];
    ServeFrame(c, s, tag, e);
    ServeNames(c, s, tag, e);
    assert ChatKeyOk(s.sh.raw, here);
    forall g | g in t.chats ensures ChatKeyOk(t.sh.raw, t.chats[g]) {
      assert g != tag ==> ChatKeyOk(s.sh.raw, s.chats[g]);
    }
    assert forall id :: id in t.sh.rows && id in s.sh.rows ==> t.sh.rows[id] == s.sh.rows[id];
  }

  // ---------- workers ----------

  lemma MoveSoundWorker(c: Setup, sh: Shared, w: Worker, e: Env)
    requires !w.Idle? && SoundWorker(c, w)
    ensures SoundWorker(c, Move(c, sh, w, e).1)
  {
  }

  /** The row under a worker's hands, unless it is being closed: either as before, or not `ok`. */
  lemma OtherWrite(c: Setup, sh: Shared, w: Worker, e: Env)
    requires !w.Idle? && !w.Closing?
    ensures var r := Move(c, sh, w, e);
      && !r.1.Counting?
      && (w.id in sh.rows ==> w.id in r.0.rows && (r.0.rows[w.id] == sh.rows[w.id] || r.0.rows[w.id].status != Ok))
  {
  }

  lemma MoveSoundRows(c: Setup, ev: map<Id, Done>, sh: Shared, w: Worker, e: Env)
    requires !w.Idle? && SoundWorker(c, w) && WorkerOk(sh.rows, w) && SoundRows(c, ev, sh)
    ensures var r := Move(c, sh, w, e);
      SoundRows(c, if r.1.Counting? then ev[r.1.id := r.1.done] else ev, r.0)
  {
    var r := Move(c, sh, w, e);
    MoveGrows(c, sh, w, e);
    MoveMore(c, sh, w, e);
    MoveReleases(c, sh, w, e);
    if !w.Closing? { OtherWrite(c, sh, w, e); }
    var ev' := if r.1.Counting? then ev[r.1.id := r.1.done] else ev;
    forall id | id in r.0.rows
      ensures KeyOk(r.0.raw, id, r.0.rows[id].primary.rawKey) && SoundRow(c, ev', id, r.0.rows[id])
    {
      assert KeyOk(sh.raw, id, sh.rows[id].primary.rawKey) && SoundRow(c, ev, id, sh.rows[id]);
      MoreKeys(sh.raw, r.0.raw, id, sh.rows[id].primary.rawKey);
    }
  }

  /** Where a merge writes: under the last segment of its row's id. */
  lemma MergeKey(t: Table, raw: Archive, w: Worker, today: Date)
    requires w.MergePut? && WorkerOk(t, w) && w.rec.primary.rawKey.Some?
    requires KeyOk(raw, w.id, t[w.id].primary.rawKey)
    ensures KeyFor(today, IdOfKey(w.rec.primary.rawKey.value)) == KeyFor(today, AfterLastSlash(w.id))
  {
    var d: Date :| w.rec.primary.rawKey.value == KeyFor(d, w.id);
    IdOfKeyIsSegment(d, w.id);
  }

  /** The only new key a worker can add. */
  lemma MoveKeys(c: Setup, sh: Shared, w: Worker, e: Env)
    requires !w.Idle?
    ensures forall key :: key in Move(c, sh, w, e).0.raw ==>
        key in sh.raw
        || (w.MergePut? && w.rec.primary.rawKey.Some? && key == KeyFor(e.today, IdOfKey(w.rec.primary.rawKey.value)))
    ensures (w.MergePut? && w.rec.primary.rawKey.Some?) || Move(c, sh, w, e).0.raw == sh.raw
  {
  }

  lemma WorkNames(c: Config, s: State, w: nat, e: Env)
    requires Sound(c, s) && Known(c, s) && Coherent(s) && w < |s.workers| && !s.workers[w].Idle?
    ensures SoundNames(WorkStep(c, s, w, e)) && (c.setup.archive || WorkStep(c, s, w, e).sh.raw == map[])
  {
    var t, here := WorkStep(c, s, w, e), s.workers[w];
    SameArrivals(s, t);
    MoveKeys(c.setup, s.sh, here, e);
    assert WorkerOk(s.sh.rows, here);
    if here.MergePut? && here.rec.primary.rawKey.Some? {
      assert KeyOk(s.sh.raw, here.id, s.sh.rows[here.id].primary.rawKey);
      MergeKey(s.sh.rows, s.sh.raw, here, e.today);
    }
    forall key | key in t.sh.raw ensures NamedAfter(t, key) {
      if key in s.sh.raw {
        NamesStay(s, t, key);
      } else {
        assert Arrived(t, here.id) && KeyNames(key, e.today, here.id);
      }
    }
  }

  lemma WorkSound(c: Config, s: State, w: nat, e: Env)
    requires Sound(c, s) && Known(c, s) && Coherent(s) && w < |s.workers| && !s.workers[w].Idle?
    ensures Sound(c, WorkStep(c, s, w, e))
  {
    var t, here := WorkStep(c, s, w, e), s.workers[w];
    assert WorkerOk(s.sh.rows, here) && SoundWorker(c.setup, here);
    MoveSoundWorker(c.setup, s.sh, here, e);
    MoveSoundRows(c.setup, s.history.evidence, s.sh, here, e);
    MoveMore(c.setup, s.sh, here, e);
    WorkNames(c, s, w, e);
    assert forall v :: 0 <= v < |t.workers| && v != w ==> t.workers[v] == s.workers[v];
    forall g | g in t.chats ensures ChatKeyOk(t.sh.raw, t.chats[g]) {
      assert ChatKeyOk(s.sh.raw, s.chats[g]);
    }
  }

  // ---------- every step, every run ----------

  lemma QuietFrame(c: Config, s: State, l: Label, t: State)
    requires Step(c, s, l, t) && !l.Serve? && (l.Work? ==> s.workers[l.w].Idle?)
    ensures t.sh.raw == s.sh.raw && t.history.evidence == s.history.evidence
    ensures t.sh.rows == s.sh.rows || (l.Sweep? && l.ok)
    ensures forall w :: 0 <= w < |t.workers| ==>
        t.workers[w].Idle? || t.workers[w].Reading? || (w < |s.workers| && t.workers[w] == s.workers[w])
    ensures forall g :: g in t.chats ==> t.chats[g].AtPrimary? || (g in s.chats && t.chats[g] == s.chats[g])
  {
  }

  lemma SweepSound(c: Setup, ev: map<Id, Done>, sh: Shared, id: Id, now: int)
    requires SoundRows(c, ev, sh)
    ensures SoundRows(c, ev, sh.(rows := Finalize(sh.rows, id, StalePatch(now), now)))
  {
  }

  lemma QuietSound(c: Config, s: State, l: Label, t: State)
    requires Sound(c, s) && Step(c, s, l, t) && !l.Serve? && (l.Work? ==> s.workers[l.w].Idle?)
    ensures Sound(c, t)
  {
    StepArrivals(c, s, l, t);
    QuietFrame(c, s, l, t);
    if l.Sweep? && l.ok { SweepSound(c.setup, s.history.evidence, s.sh, s.sweep[0], l.now); }
    forall key | key in t.sh.raw ensures NamedAfter(t, key) { NamesStay(s, t, key); }
  }

  lemma StepSound(c: Config, s: State, l: Label, t: State)
    requires Sound(c, s) && Known(c, s) && Coherent(s) && Step(c, s, l, t)
    ensures Sound(c, t)
  {
    if l.Serve? {
      ServeSound(c, s, l.tag, l.chatEnv);
    } else if l.Work? && !s.workers[l.w].Idle? {
      WorkSound(c, s, l.w, l.env);
    } else {
      QuietSound(c, s, l, t);
    }
  }

  lemma ReachableSound(c: Config, s: State)
    requires Proper(c) && Reachable(c, s)
    ensures Sound(c, s)
  {
    var inv := u => Sound(c, u);
    forall u, l, t | Step(c, u, l, t) && Reachable(c, u) && inv(u) ensures inv(t) {
      ReachableAccounted(c, u);
      ReachableCoherent(c, u);
      StepSound(c, u, l, t);
    }
    Always(c, s, inv);
  }

  /** The worker gets an object exactly when the request's put succeeded and the read is answered. */
  lemma LoadSucceedsIff(c: Config, s: State, w: nat, e: Env, t: State)
    requires Proper(c) && Reachable(c, s) && Step(c, s, Work(w, e), t) && s.workers[w].Loading?
    ensures t.workers[w].Calling? && s.workers[w].id in s.sh.rows
    ensures t.workers[w].body.Some?
      <==> c.setup.archive && e.loadOk && s.sh.rows[s.workers[w].id].primary.rawKey.Some?
  {
    ReachableSound(c, s);
    ReachableCoherent(c, s);
    assert WorkerOk(s.sh.rows, s.workers[w]);
    var id := s.workers[w].id;
    assert KeyOk(s.sh.raw, id, s.sh.rows[id].primary.rawKey);
  }
}
