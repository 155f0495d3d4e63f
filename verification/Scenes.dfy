/** Stretches of runs from which particular runs are put together: requests that come through, jobs that are done. */
module Scenes {
  import opened Prelude
  import opened Json
  import opened Llm
  import opened RawStore
  import opened Rows
  import opened Pipeline
  import opened Chat
  import opened Protocol

  const TODAY: Date := Calendar(2026, 1, 1)

  /** An upstream reply with the given text. */
  function Say(content: string): Json {
    Obj([Field("choices", Arr([Obj([Field("message", Obj([Field("content", Str(content))]))])]))])
  }

  lemma SayIsRead(intLike: Json -> bool, content: string)
    ensures ToChatResponse(intLike, Say(content)) == Response(content, Say(content))
    ensures ContentOf(Some(Say(content))) == Some(content)
  {
    var message := Obj([Field("content", Str(content))]);
    var choice := Obj([Field("message", message)]);
    assert Item(Say(content), "choices") == Some(Arr([choice]));
    assert First(Arr([choice])) == Some(choice);
    assert Item(choice, "message") == Some(message) && Item(message, "content") == Some(Str(content));
    assert Lookup(choice.fields, "finish_reason") == None && GetOrNull(Say(content), "usage") == Null;
    assert Lookup(Say(content).fields, "id") == None && Lookup(Say(content).fields, "model") == None;
  }

  function Ask(id: Id): Request { Request(id, 0, Null, "default", None, None, "", "p", "c") }

  function Out(content: string): PrimaryOutcome {
    PrimaryOutcome(Succeeded, 0, content, Some(Say(content)), None, None)
  }

  /** Everything but the insert is answered, and the request is sampled. */
  function Answers(content: string, insertOk: bool): ChatEnv {
    ChatEnv(Reply(200, "", Some(Say(content))), 0, true, insertOk, true, TODAY, 0)
  }

  /** Everything is answered, except what is said otherwise. */
  function Works(content: string, loadOk: bool, mergeOk: bool): Env {
    Env(true, true, loadOk, Reply(200, "", Some(Say(content))), mergeOk, mergeOk, true, TODAY, 0, 0)
  }

  function KeyToday(c: Config, id: Id): Option<string> { if c.setup.archive then Some(KeyFor(TODAY, id)) else None }

  lemma Reach(c: Config, s: State, l: Label) returns (t: State)
    requires Reachable(c, s) && Enabled(c, s, l)
    ensures Reachable(c, t) && Step(c, s, l, t)
  {
    t := Apply(c, s, l);
    ReachableStep(c, s, l, t);
  }

  /** The process is up and open for requests. */
  lemma Opened(c: Config) returns (s: State)
    requires Proper(c)
    ensures Reachable(c, s) && s == Init(c).(phase := Serving)
  {
    s := Init(c);
    assert Run(c, s, [], s);
    s := Reach(c, s, Boot);
    assert UnfinishedIds(s.sh.rows) == {};
    s := Reach(c, s, Query([]));
    assert s.history.lost == map[];
    s := Reach(c, s, Requeue);
    assert Elements<Id>([] + []) - Elements([]) == {};
    assert s.history.lost == map[];
  }

  // ---------- requests ----------

  ghost predicate Welcome(c: Config, s: State, tag: nat, id: Id) {
    && Reachable(c, s) && s.phase.Serving? && tag !in s.chats && tag !in s.history.arrivals
    && tag !in s.history.answered && tag !in s.history.stored
    && (c.freshIds ==> !Arrived(s, id)) && (c.slashFree ==> '/' !in id)
  }

  /** A request has come, and the primary model has answered it. */
  lemma Come(c: Config, s: State, tag: nat, id: Id, content: string) returns (t: State)
    requires Welcome(c, s, tag, id)
    ensures Reachable(c, t)
    ensures t == s.(chats := s.chats[tag := AtArchive(Ask(id), Out(content))],
                    history := s.history.(arrivals := s.history.arrivals[tag := Ask(id)],
                                          origin := s.history.origin[id := Origin(Ask(id), Out(content))]))
  {
    SayIsRead(c.setup.intLike, content);
    t := Reach(c, s, Arrive(tag, Ask(id)));
    assert t.chats[tag] == AtPrimary(Ask(id));
    t := Reach(c, t, Serve(tag, Answers(content, true)));
    assert t.chats == s.chats[tag := AtArchive(Ask(id), Out(content))];
  }

  /** Its payload has been put, where there is an archive. */
  lemma Put(c: Config, s: State, tag: nat, id: Id, content: string) returns (l: Label, t: State)
    requires Reachable(c, s) && s.phase.Serving? && tag in s.chats && s.chats[tag] == AtArchive(Ask(id), Out(content))
    ensures Reachable(c, t) && Step(c, s, l, t)
    ensures t == s.(sh := s.sh.(raw := if c.setup.archive
                                       then s.sh.raw[KeyFor(TODAY, id) := PayloadOf(Ask(id), Out(content), 0)]
                                       else s.sh.raw),
                    chats := s.chats[tag := AtInsert(Ask(id), Out(content), KeyToday(c, id))])
  {
    l := Serve(tag, Answers(content, true));
    t := Reach(c, s, l);
  }

  ghost predicate Inserting(c: Config, s: State, tag: nat, id: Id, content: string) {
    && Reachable(c, s) && s.phase.Serving? && tag in s.chats
    && s.chats[tag] == AtInsert(Ask(id), Out(content), KeyToday(c, id))
  }

  function RowOf(c: Config, id: Id, content: string): Row {
    Inserted(ColumnsOf(c.setup, Ask(id), Out(content), KeyToday(c, id)))
  }

  /** Its row has been inserted. */
  lemma Insert(c: Config, s: State, tag: nat, id: Id, content: string) returns (t: State)
    requires Inserting(c, s, tag, id, content) && id !in s.sh.rows
    ensures Reachable(c, t)
    ensures t == s.(sh := s.sh.(rows := s.sh.rows[id := RowOf(c, id, content)]),
                    chats := s.chats[tag := AtGate(Ask(id), Out(content), KeyToday(c, id))],
                    history := s.history.(
                      stored := s.history.stored[tag := WrittenOf(c, Ask(id), Out(content), KeyToday(c, id))]))
  {
    t := Reach(c, s, Serve(tag, Answers(content, true)));
  }

  /** Its insert has failed, and `fail_open` lets it pass. */
  lemma Slip(c: Config, s: State, tag: nat, id: Id, content: string) returns (t: State)
    requires Inserting(c, s, tag, id, content) && !c.setup.failClosed
    ensures Reachable(c, t)
    ensures t == s.(chats := s.chats[tag := AtGate(Ask(id), Out(content), KeyToday(c, id))])
  {
    t := Reach(c, s, Serve(tag, Answers(content, false)));
  }

  /** It has been answered with status 200, and its job is in the queue. */
  lemma Leave(c: Config, s: State, tag: nat, id: Id, content: string) returns (t: State)
    requires Reachable(c, s) && s.phase.Serving? && |s.queue| < c.capacity
    requires tag in s.chats && s.chats[tag] == AtGate(Ask(id), Out(content), KeyToday(c, id))
    ensures Reachable(c, t)
    ensures t == s.(sh := s.sh.(counters := Gated(s.sh.counters, true, true)), queue := s.queue + [id],
                    chats := s.chats - {tag},
                    history := s.history.(
                      answered := s.history.answered[tag := Answered(Ask(id), Out(content), KeyToday(c, id), 200)]))
  {
    t := Reach(c, s, Serve(tag, Answers(content, true)));
    assert s.history.lost + map[] == s.history.lost;
  }

  /** All of it: from the arrival of a request to its job in the queue. */
  lemma Admit(c: Config, s: State, tag: nat, id: Id, content: string) returns (t: State)
    requires Welcome(c, s, tag, id) && id !in s.sh.rows && |s.queue| < c.capacity
    ensures Reachable(c, t) && t.phase.Serving? && t.chats == s.chats && t.queue == s.queue + [id]
    ensures t.workers == s.workers && t.sweep == s.sweep && t.sh.rows == s.sh.rows[id := RowOf(c, id, content)]
    ensures t.sh.raw == if c.setup.archive
                        then s.sh.raw[KeyFor(TODAY, id) := PayloadOf(Ask(id), Out(content), 0)] else s.sh.raw
    ensures t.history == s.history.(
      arrivals := s.history.arrivals[tag := Ask(id)],
      origin := s.history.origin[id := Origin(Ask(id), Out(content))],
      stored := s.history.stored[tag := WrittenOf(c, Ask(id), Out(content), KeyToday(c, id))],
      answered := s.history.answered[tag := Answered(Ask(id), Out(content), KeyToday(c, id), 200)])
  {
    t := Come(c, s, tag, id, content);
    var _, u := Put(c, t, tag, id, content);
    t := Insert(c, u, tag, id, content);
    t := Leave(c, t, tag, id, content);
    assert t.chats == s.chats;
  }

  // ---------- the first worker ----------

  ghost predicate Handed(c: Config, s: State, id: Id) {
    && Proper(c) && Reachable(c, s) && s.phase.Serving? && s.queue == [id] && |s.workers| == c.workers
    && s.workers[0].Idle? && id in s.sh.rows && s.sh.rows[id].primary.status == Succeeded
  }

  /** It has taken the job and read the row. */
  lemma Read(c: Config, s: State, id: Id) returns (t: State)
    requires Handed(c, s, id)
    ensures Reachable(c, t)
    ensures t == s.(queue := [], workers := s.workers[0 := Marking(id, s.sh.rows[id])])
  {
    t := Reach(c, s, Work(0, Works("", true, false)));
    assert t.workers[0] == Reading(id);
    t := Reach(c, t, Work(0, Works("", true, false)));
    assert t.history.heard == s.history.heard;
  }

  /** It has marked the row and loaded the payload, and is about to ask the candidate model. */
  lemma Load(c: Config, s: State, id: Id, loadOk: bool) returns (t: State)
    requires Handed(c, s, id)
    ensures Reachable(c, t)
    ensures t == s.(sh := s.sh.(rows := Mark(s.sh.rows, id, 0)), queue := [],
                    workers := s.workers[0 := Calling(id, s.sh.rows[id],
                                 LoadBody(c.setup, s.sh.raw, s.sh.rows[id].primary.rawKey, loadOk))])
  {
    t := Read(c, s, id);
    t := Reach(c, t, Work(0, Works("", loadOk, false)));
    assert t.workers[0] == Loading(id, s.sh.rows[id]);
    t := Reach(c, t, Work(0, Works("", loadOk, false)));
    assert t.history.heard == s.history.heard;
  }

  ghost predicate Asking(c: Config, s: State, id: Id, primary: string) {
    && Reachable(c, s) && s.phase.Serving? && s.workers != [] && s.workers[0].Calling? && s.workers[0].id == id
    && PrimaryText(s.workers[0].body) == Some(primary)
  }

  function Outcome(c: Config, primary: string, content: string, loaded: bool): Done {
    Compare(c.setup, primary, content, Say(content), 0, loaded)
  }

  lemma Replied(c: Config, sh: Shared, w: Worker, primary: string, content: string)
    requires w.Calling? && PrimaryText(w.body) == Some(primary)
    ensures var e := Works(content, true, false);
      && Move(c.setup, sh, w, e) == (sh, Evaluated(c.setup, w.id, w.rec, Outcome(c, primary, content, w.body.Some?)))
      && !Raises(c.setup, w, e) && AnswerTo(c, w, e) == {Heard(w.id, Response(content, Say(content)), 0)}
  {
    SayIsRead(c.setup.intLike, content);
  }

  /** The candidate model has answered, and the evaluator has judged. */
  lemma Decide(c: Config, s: State, id: Id, primary: string, content: string) returns (t: State)
    requires Asking(c, s, id, primary)
    ensures Reachable(c, t)
    ensures var rec, d := s.workers[0].rec, Outcome(c, primary, content, s.workers[0].body.Some?);
      t == s.(workers := s.workers[0 := Evaluated(c.setup, id, rec, d)],
              history := s.history.(heard := s.history.heard + {Heard(id, Response(content, Say(content)), 0)}))
  {
    Replied(c, s.sh, s.workers[0], primary, content);
    t := Reach(c, s, Work(0, Works(content, true, false)));
  }

  /** Its merge, if there is one, has found nothing, and the row is about to be finalized. */
  lemma Skip(c: Config, s: State, id: Id, primary: string, content: string) returns (t: State)
    requires Asking(c, s, id, primary)
    ensures Reachable(c, t)
    ensures var rec, d := s.workers[0].rec, Outcome(c, primary, content, s.workers[0].body.Some?);
      t == s.(workers := s.workers[0 := Closing(id, rec, d)],
              history := s.history.(heard := s.history.heard + {Heard(id, Response(content, Say(content)), 0)}))
  {
    t := Decide(c, s, id, primary, content);
    if t.workers[0].MergeGet? {
      var u := Reach(c, t, Work(0, Works(content, true, false)));
      assert u.history.heard == t.history.heard;
      t := u;
    }
  }

  /** The merge has read its object. */
  lemma Fetch(c: Config, s: State, p: RawStore.Payload) returns (t: State)
    requires Reachable(c, s) && s.phase.Serving? && s.workers != [] && s.workers[0].MergeGet?
    requires LoadBody(c.setup, s.sh.raw, s.workers[0].rec.primary.rawKey, true) == Some(p)
    ensures Reachable(c, t)
    ensures var w := s.workers[0]; t == s.(workers := s.workers[0 := MergePut(w.id, w.rec, w.done, p)])
  {
    t := Reach(c, s, Work(0, Works("", true, true)));
    assert t.history.heard == s.history.heard;
  }

  /** The merge has written. */
  lemma Merge(c: Config, s: State) returns (l: Label, t: State)
    requires Reachable(c, s) && s.phase.Serving? && s.workers != [] && s.workers[0].MergePut?
    requires s.workers[0].rec.primary.rawKey.Some?
    ensures Reachable(c, t) && Step(c, s, l, t)
    ensures var w := s.workers[0];
      t == s.(sh := s.sh.(raw := Merged(s.sh.raw, w.rec.primary.rawKey.value, w.payload, w.done.response, TODAY)),
              workers := s.workers[0 := Closing(w.id, w.rec,
                           w.done.(merged := Some(KeyFor(TODAY, IdOfKey(w.rec.primary.rawKey.value)))))])
  {
    l := Work(0, Works("", true, true));
    t := Reach(c, s, l);
    assert t.history.heard == s.history.heard;
  }

  /** The row has been finalized. */
  lemma Close(c: Config, s: State) returns (l: Label, t: State)
    requires Reachable(c, s) && s.phase.Serving? && s.workers != [] && s.workers[0].Closing?
    ensures Reachable(c, t) && Step(c, s, l, t) && l.Work? && l.w == 0
    ensures var w := s.workers[0];
      && t.workers == s.workers[0 := Counting(w.id, w.rec, w.done)]
      && t.sh == s.sh.(rows := Finalize(s.sh.rows, w.id, OkPatch(w.done, 0), 0))
      && t.queue == s.queue && t.chats == s.chats && t.phase == s.phase && t.sweep == s.sweep
      && t.history == s.history.(evidence := s.history.evidence[w.id := w.done])
  {
    l := Work(0, Works("", true, false));
    t := Reach(c, s, l);
    assert t.history.heard == s.history.heard;
  }

  /** The verdict has been counted, and the worker is free. */
  lemma Count(c: Config, s: State) returns (t: State)
    requires Reachable(c, s) && s.phase.Serving? && s.workers != [] && s.workers[0].Counting?
    ensures Reachable(c, t) && t.workers == s.workers[0 := Idle] && t.sh.rows == s.sh.rows && t.sh.raw == s.sh.raw
    ensures t.queue == s.queue && t.chats == s.chats && t.phase == s.phase && t.sweep == s.sweep
    ensures t.history == s.history
  {
    t := Reach(c, s, Work(0, Works("", true, false)));
    assert t.history.heard == s.history.heard;
  }

  /** A handed job, done to the commit of its row. */
  lemma Judged(c: Config, s: State, id: Id, primary: string, content: string, loadOk: bool) returns (t: State)
    requires Handed(c, s, id)
    requires PrimaryText(LoadBody(c.setup, s.sh.raw, s.sh.rows[id].primary.rawKey, loadOk)) == Some(primary)
    ensures Reachable(c, t) && t.phase.Serving? && t.queue == [] && t.chats == s.chats && t.sweep == s.sweep
    ensures var d := Outcome(c, primary, content,
                             LoadBody(c.setup, s.sh.raw, s.sh.rows[id].primary.rawKey, loadOk).Some?);
      && id in t.sh.rows && t.sh.rows.Keys == s.sh.rows.Keys && t.sh.raw == s.sh.raw
      && t.sh.rows[id] == Patched(Marked(s.sh.rows[id], 0), OkPatch(d, 0), 0)
      && |t.workers| == c.workers && t.workers[0] == Counting(id, s.sh.rows[id], d)
      && t.history.evidence == s.history.evidence[id := d]
      && t.history.arrivals == s.history.arrivals && t.history.stored == s.history.stored
      && t.history.answered == s.history.answered && t.history.origin == s.history.origin
  {
    t := Load(c, s, id, loadOk);
    t := Skip(c, t, id, primary, content);
    var _, u := Close(c, t);
    t := u;
  }
}
