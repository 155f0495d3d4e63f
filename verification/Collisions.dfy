/**
 * Where rows are judged on their own text: exactly among requests whose ids do not collide. For every pair of
 * ids that does, a run is put together in which the second request spoils the object of the first.
 */
module Collisions {
  import opened Prelude
  import opened Llm
  import opened RawStore
  import opened Rows
  import opened Pipeline
  import opened Chat
  import opened Protocol
  import opened Accounting
  import opened Evidence
  import opened Verdicts
  import opened Scenes

  /** The row a request stored is not judged on another text than the one its client was given. */
  predicate OwnText(s: State, tag: nat)
    requires tag in s.history.stored
  {
    var id := s.history.stored[tag].id;
    id in s.sh.rows && s.sh.rows[id].status == Ok && id in s.history.evidence && s.history.evidence[id].loaded ==>
      s.history.evidence[id].primary == s.history.stored[tag].origin.out.content
  }

  /** A row whose id stands alone is judged on its own text. */
  lemma AloneOwnsText(c: Config, s: State, tag: nat)
    requires Proper(c) && Reachable(c, s) && tag in s.history.stored && Alone(s, s.history.stored[tag].id)
    ensures OwnText(s, tag)
  {
    var id := s.history.stored[tag].id;
    if id in s.sh.rows && s.sh.rows[id].status == Ok { OwnTextIsJudged(c, s, id, tag); }
  }

  // ---------- a run for every collision ----------

  /** What the clients' promises permit of two requests. */
  predicate Permits(c: Config, id: Id, other: Id) {
    (id == other ==> !c.freshIds) && (c.slashFree ==> '/' !in id && '/' !in other)
  }

  /** The first request is `tag` 0 with text "{}", the second `tag` 1 with text "[]". */
  ghost predicate Told(c: Config, s: State, id: Id, other: Id) {
    && s.history.arrivals == map[0 := Ask(id), 1 := Ask(other)]
    && 0 in s.history.stored && s.history.stored[0] == WrittenOf(c, Ask(id), Out("{}"), KeyToday(c, id))
    && 0 in s.history.answered && s.history.answered[0] == Answered(Ask(id), Out("{}"), KeyToday(c, id), 200)
  }

  ghost predicate Reads(s: State, id: Id, content: string) {
    KeyFor(TODAY, id) in s.sh.raw && s.sh.raw[KeyFor(TODAY, id)].primaryResponse == Some(Say(content))
  }

  ghost predicate Queued(c: Config, s: State, id: Id) {
    && Proper(c) && Reachable(c, s) && s.phase.Serving? && s.queue == [id] && |s.workers| == c.workers
    && id in s.sh.rows && s.sh.rows[id] == RowOf(c, id, "{}")
  }

  /** The step that spoils the object: the second request's put, or the merge of its row. */
  lemma Spoils(c: Config, id: Id, other: Id) returns (s: State, l: Label, t: State)
    requires Proper(c) && c.setup.archive && Collides(id, other) && Permits(c, id, other)
    ensures Reachable(c, s) && Step(c, s, l, t) && Reads(s, id, "{}") && Reads(t, id, "[]")
    ensures Queued(c, t, id) && Told(c, t, id, other)
    ensures t.workers[0].Idle? || (t.workers[0].Closing? && t.workers[0].id == other && id != other)
  {
    if id == other { s, l, t := SpoiledByRepeat(c, id); } else { s, l, t := SpoiledByMerge(c, id, other); }
  }

  lemma SpoiledByRepeat(c: Config, id: Id) returns (s: State, l: Label, t: State)
    requires Proper(c) && c.setup.archive && Permits(c, id, id)
    ensures Reachable(c, s) && Step(c, s, l, t) && Reads(s, id, "{}") && Reads(t, id, "[]")
    ensures Queued(c, t, id) && Told(c, t, id, id) && t.workers[0].Idle?
  {
    s := Opened(c);
    s := Admit(c, s, 0, id, "{}");
    s := Come(c, s, 1, id, "[]");
    l, t := Put(c, s, 1, id, "[]");
  }

  /** A worker has loaded the second request's payload. */
  lemma OtherLoaded(c: Config, other: Id) returns (s: State)
    requires Proper(c) && c.setup.archive && (c.slashFree ==> '/' !in other)
    ensures Reachable(c, s) && s.phase.Serving? && s.queue == [] && s.chats == map[] && s.sh.rows.Keys == {other}
    ensures |s.workers| == c.workers && s.history.arrivals == map[1 := Ask(other)]
    ensures s.history.stored.Keys == {1} && s.history.answered.Keys == {1}
    ensures s.sh.raw == map[KeyFor(TODAY, other) := PayloadOf(Ask(other), Out("[]"), 0)]
    ensures s.workers[0]
      == Calling(other, RowOf(c, other, "[]"), Some(PayloadOf(Ask(other), Out("[]"), 0)))
  {
    s := Opened(c);
    assert !Arrived(s, other);
    s := Admit(c, s, 1, other, "[]");
    s := Load(c, s, other, true);
  }

  /** Its merge has read the object and is about to write. */
  lemma MergeReady(c: Config, other: Id) returns (s: State)
    requires Proper(c) && c.setup.archive && (c.slashFree ==> '/' !in other)
    ensures Reachable(c, s) && s.phase.Serving? && s.queue == [] && s.chats == map[] && s.sh.rows.Keys == {other}
    ensures |s.workers| == c.workers && s.history.arrivals == map[1 := Ask(other)]
    ensures s.history.stored.Keys == {1} && s.history.answered.Keys == {1}
    ensures s.workers[0].MergePut? && s.workers[0].id == other
    ensures s.workers[0].rec.primary.rawKey == Some(KeyFor(TODAY, other))
    ensures s.workers[0].payload.primaryResponse == Some(Say("[]"))
  {
    SayIsRead(c.setup.intLike, "[]");
    s := OtherLoaded(c, other);
    s := Decide(c, s, other, "[]", "");
    s := Fetch(c, s, PayloadOf(Ask(other), Out("[]"), 0));
  }

  lemma FirstQueued(c: Config, id: Id, other: Id) returns (s: State)
    requires Proper(c) && c.setup.archive && id != other && Permits(c, id, other)
    ensures Queued(c, s, id) && Told(c, s, id, other) && Reads(s, id, "{}")
    ensures s.workers[0].MergePut? && s.workers[0].id == other
    ensures s.workers[0].rec.primary.rawKey == Some(KeyFor(TODAY, other))
    ensures s.workers[0].payload.primaryResponse == Some(Say("[]"))
  {
    s := MergeReady(c, other);
    assert !Arrived(s, id) by {
      assert forall g :: !Carries(s, g, id);
    }
    s := Admit(c, s, 0, id, "{}");
    assert s.history.arrivals == map[0 := Ask(id), 1 := Ask(other)];
  }

  lemma SpoiledByMerge(c: Config, id: Id, other: Id) returns (s: State, l: Label, t: State)
    requires Proper(c) && c.setup.archive && Collides(id, other) && id != other && Permits(c, id, other)
    ensures Reachable(c, s) && Step(c, s, l, t) && Reads(s, id, "{}") && Reads(t, id, "[]")
    ensures Queued(c, t, id) && Told(c, t, id, other) && t.workers[0].Closing? && t.workers[0].id == other
  {
    s := FirstQueued(c, id, other);
    IdOfKeyIsSegment(TODAY, other);
    l, t := Merge(c, s);
  }

  /** The worker is free for the first row. */
  lemma Freed(c: Config, s: State, id: Id, other: Id) returns (t: State)
    requires Queued(c, s, id) && Told(c, s, id, other) && Reads(s, id, "[]")
    requires s.workers[0].Closing? && s.workers[0].id == other && id != other
    ensures Queued(c, t, id) && Told(c, t, id, other) && Reads(t, id, "[]") && t.workers[0].Idle?
  {
    var _, u := Close(c, s);
    t := Count(c, u);
  }

  /** A second request whose id collides spoils the first row: it is not judged on its own text. */
  lemma CollisionBreaks(c: Config, id: Id, other: Id) returns (s: State)
    requires Proper(c) && c.setup.archive && Collides(id, other) && Permits(c, id, other)
    ensures Reachable(c, s) && Told(c, s, id, other) && !OwnText(s, 0)
    ensures id in s.sh.rows && s.sh.rows[id].status == Ok
    ensures id in s.history.evidence && s.history.evidence[id].loaded && s.history.evidence[id].primary == "[]"
  {
    var _, _, t := Spoils(c, id, other);
    if t.workers[0].Closing? { t := Freed(c, t, id, other); }
    s := JudgedOnOther(c, t, id, other);
  }

  lemma JudgedOnOther(c: Config, s: State, id: Id, other: Id) returns (t: State)
    requires c.setup.archive && Queued(c, s, id) && Told(c, s, id, other) && Reads(s, id, "[]") && s.workers[0].Idle?
    ensures Reachable(c, t) && Told(c, t, id, other) && id in t.sh.rows && t.sh.rows[id].status == Ok
    ensures id in t.history.evidence && t.history.evidence[id].loaded && t.history.evidence[id].primary == "[]"
  {
    SayIsRead(c.setup.intLike, "[]");
    t := Judged(c, s, id, "[]", "", true);
  }

  // ---------- exactly where ----------

  /** Only these two ids have arrived, the first one once unless they are the same. */
  ghost predicate Meet(s: State, id: Id, other: Id) {
    (forall x :: Arrived(s, x) ==> x == id || x == other) && (id != other ==> ArrivedOnce(s, id))
  }

  /** In every run in which the two ids meet, the rows of the first are judged on their own text. */
  ghost predicate Harmless(c: Config, id: Id, other: Id) {
    forall s, tag ::
      Reachable(c, s) && tag in s.history.stored && Meet(s, id, other) && s.history.stored[tag].id == id ==>
        OwnText(s, tag)
  }

  /** A second id is harmless exactly if it does not collide. */
  lemma HarmlessIff(c: Config, id: Id, other: Id)
    requires Proper(c) && c.setup.archive && Permits(c, id, other)
    ensures Harmless(c, id, other) <==> !Collides(id, other)
  {
    if Collides(id, other) {
      var s := CollisionBreaks(c, id, other);
      ToldMeet(c, s, id, other);
    } else {
      forall s, tag | Reachable(c, s) && tag in s.history.stored && Meet(s, id, other) && s.history.stored[tag].id == id
        ensures OwnText(s, tag)
      {
        AloneOwnsText(c, s, tag);
      }
    }
  }

  lemma ToldMeet(c: Config, s: State, id: Id, other: Id)
    requires Told(c, s, id, other)
    ensures Meet(s, id, other)
  {
    forall x | Arrived(s, x) ensures x == id || x == other { var g :| Carries(s, g, x); }
  }

  /** With both promises every id stands alone. */
  lemma PromisesKeepAlone(c: Config, s: State, id: Id)
    requires Proper(c) && Reachable(c, s) && c.freshIds && c.slashFree
    ensures Alone(s, id)
  {
    ReachableAccounted(c, s);
    assert ArrivedOnce(s, id);
    forall other | Arrived(s, other) && other != id ensures !Collides(id, other) {
      var g :| Carries(s, g, other);
    }
  }

  lemma NothingLoaded(c: Config, s: State, tag: nat)
    requires Proper(c) && Reachable(c, s) && !c.setup.archive && tag in s.history.stored
    ensures OwnText(s, tag)
  {
    var id := s.history.stored[tag].id;
    ReachableSound(c, s);
    if id in s.sh.rows && s.sh.rows[id].status == Ok {
      assert KeyOk(s.sh.raw, id, s.sh.rows[id].primary.rawKey);
      assert SoundRow(c.setup, s.history.evidence, id, s.sh.rows[id]);
    }
  }

  ghost predicate AlwaysOwnText(c: Config) {
    forall s, tag :: Reachable(c, s) && tag in s.history.stored ==> OwnText(s, tag)
  }

  /** Every row is judged on its own text in every run exactly if clients keep both promises, or nothing is archived. */
  lemma OwnTextIff(c: Config)
    requires Proper(c)
    ensures AlwaysOwnText(c) <==> (c.freshIds && c.slashFree) || !c.setup.archive
  {
    if !c.setup.archive {
      forall s, tag | Reachable(c, s) && tag in s.history.stored ensures OwnText(s, tag) {
        NothingLoaded(c, s, tag);
      }
    } else if c.freshIds && c.slashFree {
      forall s, tag | Reachable(c, s) && tag in s.history.stored ensures OwnText(s, tag) {
        PromisesKeepAlone(c, s, s.history.stored[tag].id);
        AloneOwnsText(c, s, tag);
      }
    } else {
      var other := Collider(c);
      var s := CollisionBreaks(c, "x", other);
    }
  }

  /** An id that collides with "x", where a promise is missing. */
  lemma Collider(c: Config) returns (other: Id)
    requires !c.freshIds || !c.slashFree
    ensures Collides("x", other) && Permits(c, "x", other)
  {
    other := "x";
    assert '/' !in "x";
    if c.freshIds {
      other := "a/x";
      assert other[1] == '/' && other[1..][1..] == "x";
    }
  }

  predicate Stable(s: State, t: State, key: string)
    requires key in s.sh.raw
  {
    && key in t.sh.raw && t.sh.raw[key].request == s.sh.raw[key].request
    && t.sh.raw[key].primaryResponse == s.sh.raw[key].primaryResponse
  }

  ghost predicate AlwaysStable(c: Config) {
    forall s, ls, t, key :: Reachable(c, s) && Run(c, s, ls, t) && key in s.sh.raw ==> Stable(s, t, key)
  }

  /** The archive keeps every request and primary response in every run exactly if clients keep both promises. */
  lemma ArchiveIsStableIff(c: Config)
    requires Proper(c)
    ensures AlwaysStable(c) <==> (c.freshIds && c.slashFree) || !c.setup.archive
  {
    if !c.setup.archive {
      forall s | Reachable(c, s) ensures s.sh.raw == map[] { ReachableSound(c, s); }
    } else if c.freshIds && c.slashFree {
      forall s, ls, t, key | Reachable(c, s) && Run(c, s, ls, t) && key in s.sh.raw ensures Stable(s, t, key) {
        StableWithPromises(c, s, ls, t, key);
      }
    } else {
      ArchiveChanges(c);
    }
  }

  lemma SayDiffers(a: string, b: string)
    requires a != b
    ensures Say(a) != Say(b)
  {
    assert ContentOf(Some(Say(a))) == Some(a) by { SayIsRead(_ => true, a); }
    assert ContentOf(Some(Say(b))) == Some(b) by { SayIsRead(_ => true, b); }
  }

  lemma ArchiveChanges(c: Config)
    requires Proper(c) && c.setup.archive && !(c.freshIds && c.slashFree)
    ensures !AlwaysStable(c)
  {
    var other := Collider(c);
    var s, l, t := Spoils(c, "x", other);
    assert Run(c, t, [], t);
    assert Run(c, s, [l], t);
    SayDiffers("{}", "[]");
    assert !Stable(s, t, KeyFor(TODAY, "x"));
  }

  lemma StableWithPromises(c: Config, s: State, ls: seq<Label>, t: State, key: string)
    requires Proper(c) && c.freshIds && c.slashFree && Reachable(c, s) && Run(c, s, ls, t) && key in s.sh.raw
    ensures Stable(s, t, key)
  {
    ReachableSound(c, s);
    ReachableAccounted(c, s);
    var d: Date, id: Id :| Arrived(s, id) && KeyNames(key, d, id);
    var g :| Carries(s, g, id);
    assert AfterLastSlash(id) == id;
    ReachableThrough(c, s, ls, t);
    PromisesKeepAlone(c, t, id);
    ArchiveIsStable(c, s, ls, t, d, id);
  }
}
