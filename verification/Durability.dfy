/** Persist before acknowledge: what an answered request leaves in the table, for good. */
module Durability {
  import opened Prelude
  import opened Rows
  import opened Pipeline
  import opened Chat
  import opened Protocol
  import opened Coherence
  import Witnesses

  /** A request in progress or ended. */
  function At(s: State, tag: nat): Option<ChatState> {
    if tag in s.chats then Some(s.chats[tag])
    else if tag in s.history.answered then Some(s.history.answered[tag])
    else None
  }

  /** Past its insert: the request is about to be answered, or has been. */
  predicate PastInsert(st: ChatState) { st.AtGate? || st.Answered? }

  function WrittenBy(c: Config, st: ChatState): Written
    requires PastInsert(st)
  {
    WrittenOf(c, st.r, st.out, st.key)
  }

  ghost predicate RowStands(s: State, w: Written) {
    w.id in s.sh.rows && s.sh.rows[w.id].primary == w.columns
  }

  ghost predicate Tagged(s: State) {
    forall tag :: tag in s.chats ==> tag !in s.history.answered && Open(s.chats[tag])
  }

  ghost predicate Standing(s: State) {
    forall tag :: tag in s.history.stored ==> RowStands(s, s.history.stored[tag])
  }

  ghost predicate OneWriter(m: map<nat, Written>) {
    forall a, b :: a in m && b in m && m[a].id == m[b].id ==> a == b
  }

  ghost predicate SomeWriter(m: map<nat, Written>, id: Id) { exists tag :: tag in m && m[tag].id == id }

  ghost predicate Matched(c: Config, s: State) {
    && (forall tag :: At(s, tag).Some? && PastInsert(At(s, tag).value) ==>
          if tag in s.history.stored then s.history.stored[tag] == WrittenBy(c, At(s, tag).value)
          else !c.setup.failClosed)
    && (forall tag :: tag in s.history.stored && At(s, tag).Some? ==> PastInsert(At(s, tag).value))
  }

  ghost predicate Durable(c: Config, s: State) {
    && Tagged(s) && Standing(s) && OneWriter(s.history.stored)
    && (forall id :: id in s.sh.rows ==> SomeWriter(s.history.stored, id))
    && Matched(c, s)
  }

  lemma StoredRowsStand(c: Config, s: State, l: Label, t: State)
    requires Durable(c, s) && Step(c, s, l, t)
    ensures forall tag :: tag in s.history.stored ==> RowStands(t, s.history.stored[tag])
  {
    StepGrows(c, s, l, t);
  }

  lemma WorkFrame(c: Config, s: State, w: nat, e: Env)
    requires w < |s.workers| && !s.workers[w].Idle?
    ensures var t := WorkStep(c, s, w, e);
      && t.history.stored == s.history.stored && t.history.answered == s.history.answered
      && t.sh.rows.Keys == s.sh.rows.Keys && t.chats == s.chats
  {
  }

  lemma OtherStepFrame(c: Config, s: State, l: Label, t: State)
    requires Step(c, s, l, t) && !l.Serve? && !l.Arrive?
    ensures t.history.stored == s.history.stored && t.history.answered == s.history.answered
    ensures t.sh.rows.Keys == s.sh.rows.Keys && (t.chats == s.chats || t.chats == map[])
  {
    if l.Work? && !s.workers[l.w].Idle? { WorkFrame(c, s, l.w, l.env); }
  }

  /** Steps other than those of requests leave this bookkeeping alone. */
  lemma OtherStepDurable(c: Config, s: State, l: Label, t: State)
    requires Durable(c, s) && Step(c, s, l, t) && !l.Serve? && !l.Arrive?
    ensures Durable(c, t)
  {
    StoredRowsStand(c, s, l, t);
    OtherStepFrame(c, s, l, t);
    BookkeepingDurable(c, s, t);
  }

  lemma BookkeepingDurable(c: Config, s: State, t: State)
    requires Durable(c, s)
    requires t.history.stored == s.history.stored && t.history.answered == s.history.answered
    requires t.sh.rows.Keys == s.sh.rows.Keys && (t.chats == s.chats || t.chats == map[])
    requires forall tag :: tag in s.history.stored ==> RowStands(t, s.history.stored[tag])
    ensures Durable(c, t)
  {
    assert forall tag :: At(t, tag).Some? ==> At(t, tag) == At(s, tag);
  }

  lemma ArriveDurable(c: Config, s: State, l: Label, t: State)
    requires Durable(c, s) && Step(c, s, l, t) && l.Arrive?
    ensures Durable(c, t)
  {
    assert forall tag :: tag != l.tag ==> At(t, tag) == At(s, tag);
  }

  lemma ServeFrame(c: Config, s: State, tag: nat, e: ChatEnv, t: State)
    requires Durable(c, s) && Step(c, s, Serve(tag, e), t)
    ensures At(s, tag) == Some(s.chats[tag]) && tag !in s.history.answered
    ensures At(t, tag) == Some(ChatMove(c.setup, s.sh, LineOf(c, s), s.chats[tag], e).2)
    ensures forall g :: g != tag ==> At(t, g) == At(s, g)
    ensures forall g :: g in t.chats ==> g !in t.history.answered && Open(t.chats[g])
    ensures var here := s.chats[tag];
      if here.AtInsert? && Inserts(s.sh.rows, here.r.id, e) then
        && t.sh.rows.Keys == s.sh.rows.Keys + {here.r.id}
        && t.sh.rows[here.r.id].primary == ColumnsOf(c.setup, here.r, here.out, here.key)
        && t.history.stored
          == s.history.stored[tag := WrittenOf(c, here.r, here.out, here.key)]
      else t.sh.rows == s.sh.rows && t.history.stored == s.history.stored
  {
  }

  /** What one stretch of a request does to its own standing. */
  lemma NextStanding(c: Config, sh: Shared, l: Line, here: ChatState, e: ChatEnv)
    requires Open(here)
    ensures var next := ChatMove(c.setup, sh, l, here, e).2;
      && next.r == here.r
      && (here.AtGate? ==> next.Answered? && WrittenBy(c, next) == WrittenBy(c, here))
      && (here.AtPrimary? || here.AtArchive? ==> !PastInsert(next))
      && (here.AtInsert? && PastInsert(next) ==>
            next.AtGate? && WrittenBy(c, next) == WrittenOf(c, here.r, here.out, here.key)
            && (Inserts(sh.rows, here.r.id, e) || !c.setup.failClosed))
      && (here.AtInsert? && Inserts(sh.rows, here.r.id, e) ==> next.AtGate?)
  {
  }

  /** The bookkeeping of a request that does not insert. */
  lemma PassDurable(c: Config, s: State, t: State, tag: nat, here: ChatState, next: ChatState)
    requires Durable(c, s) && At(s, tag) == Some(here) && At(t, tag) == Some(next)
    requires forall g :: g != tag ==> At(t, g) == At(s, g)
    requires forall g :: g in t.chats ==> g !in t.history.answered && Open(t.chats[g])
    requires t.sh.rows == s.sh.rows && t.history.stored == s.history.stored
    requires PastInsert(next) ==>
      if PastInsert(here) then WrittenBy(c, next) == WrittenBy(c, here) else !c.setup.failClosed
    requires PastInsert(here) ==> PastInsert(next)
    ensures Durable(c, t)
  {
    assert Matched(c, t);
  }

  /** The bookkeeping of a request that does. */
  lemma InsertDurable(c: Config, s: State, t: State, tag: nat, here: ChatState, next: ChatState, w: Written)
    requires Durable(c, s) && At(s, tag) == Some(here) && !PastInsert(here) && At(t, tag) == Some(next)
    requires forall g :: g != tag ==> At(t, g) == At(s, g)
    requires forall g :: g in t.chats ==> g !in t.history.answered && Open(t.chats[g])
    requires w.id !in s.sh.rows && t.sh.rows.Keys == s.sh.rows.Keys + {w.id} && t.sh.rows[w.id].primary == w.columns
    requires forall g :: g in s.history.stored ==> RowStands(t, s.history.stored[g])
    requires t.history.stored == s.history.stored[tag := w]
    requires PastInsert(next) && WrittenBy(c, next) == w
    ensures Durable(c, t)
  {
    forall x | x in t.sh.rows ensures SomeWriter(t.history.stored, x) {
      if x in s.sh.rows { WriterStays(s.history.stored, tag, w, x); } else { assert tag in t.history.stored; }
    }
    forall g | g in s.history.stored ensures s.history.stored[g].id != w.id {
      assert RowStands(s, s.history.stored[g]);
    }
    OneMoreWriter(s.history.stored, tag, w);
    MatchedInsert(c, s, t, tag, here, next, w);
  }

  lemma OneMoreWriter(m: map<nat, Written>, tag: nat, w: Written)
    requires OneWriter(m) && forall g :: g in m ==> m[g].id != w.id
    ensures OneWriter(m[tag := w])
  {
  }

  lemma MatchedInsert(c: Config, s: State, t: State, tag: nat, here: ChatState, next: ChatState, w: Written)
    requires Matched(c, s) && At(s, tag) == Some(here) && !PastInsert(here) && At(t, tag) == Some(next)
    requires forall g :: g != tag ==> At(t, g) == At(s, g)
    requires t.history.stored == s.history.stored[tag := w] && PastInsert(next) && WrittenBy(c, next) == w
    ensures Matched(c, t)
  {
  }

  lemma WriterStays(m: map<nat, Written>, tag: nat, w: Written, id: Id)
    requires tag !in m && SomeWriter(m, id)
    ensures SomeWriter(m[tag := w], id)
  {
    var g :| g in m && m[g].id == id;
    assert g in m[tag := w] && m[tag := w][g].id == id;
  }

  lemma ServeDurable(c: Config, s: State, tag: nat, e: ChatEnv, t: State)
    requires Durable(c, s) && Step(c, s, Serve(tag, e), t)
    ensures Durable(c, t)
  {
    var here := s.chats[tag];
    StoredRowsStand(c, s, Serve(tag, e), t);
    ServeFrame(c, s, tag, e, t);
    NextStanding(c, s.sh, LineOf(c, s), here, e);
    var next := At(t, tag).value;
    if here.AtInsert? && Inserts(s.sh.rows, here.r.id, e) {
      InsertDurable(c, s, t, tag, here, next, WrittenOf(c, here.r, here.out, here.key));
    } else {
      PassDurable(c, s, t, tag, here, next);
    }
  }

  lemma StepDurable(c: Config, s: State, l: Label, t: State)
    requires Durable(c, s) && Step(c, s, l, t)
    ensures Durable(c, t)
  {
    match l
    case Serve(tag, e) => ServeDurable(c, s, tag, e, t);
    case Arrive(_, _) => ArriveDurable(c, s, l, t);
    case _ => OtherStepDurable(c, s, l, t);
  }

  ghost predicate Kept<T(!new)>(m: map<nat, T>, n: map<nat, T>) {
    forall tag :: tag in m ==> tag in n && n[tag] == m[tag]
  }

  lemma {:induction false} RunDurable(c: Config, s: State, ls: seq<Label>, t: State)
    requires Durable(c, s) && Run(c, s, ls, t)
    ensures Durable(c, t)
    ensures Kept(s.history.answered, t.history.answered)
    ensures Kept(s.history.stored, t.history.stored)
    decreases |ls|
  {
    if ls != [] {
      StepDurable(c, s, ls[0], Apply(c, s, ls[0]));
      HistoryKept(c, s, ls[0], Apply(c, s, ls[0]));
      RunDurable(c, Apply(c, s, ls[0]), ls[1..], t);
    }
  }

  lemma HistoryKept(c: Config, s: State, l: Label, t: State)
    requires Durable(c, s) && Step(c, s, l, t)
    ensures Kept(s.history.answered, t.history.answered)
    ensures Kept(s.history.stored, t.history.stored)
  {
    match l
    case Serve(tag, e) => ServeFrame(c, s, tag, e, t);
    case Arrive(_, _) =>
    case _ => OtherStepFrame(c, s, l, t);
  }

  lemma ReachableDurable(c: Config, s: State)
    requires Reachable(c, s)
    ensures Durable(c, s)
  {
    var ls :| Run(c, Init(c), ls, s);
    RunDurable(c, Init(c), ls, s);
  }

  /**
   * Under `fail_closed` a request that was answered, with its primary response or with the upstream's failure,
   * has its row in every later state: same primary columns, same time of arrival, through crashes and restarts.
   */
  lemma AckDurability(c: Config, s: State, tag: nat, ls: seq<Label>, t: State)
    requires c.setup.failClosed && Reachable(c, s) && Run(c, s, ls, t)
    requires tag in s.history.answered && s.history.answered[tag].Answered?
    ensures var a := s.history.answered[tag];
      && a.r.id in t.sh.rows && Recorded(c.setup.lib, a.r, a.out, a.key, t.sh.rows[a.r.id].primary)
      && RowStands(t, WrittenBy(c, a))
  {
    ColumnsRecord(c.setup, s.history.answered[tag].r, s.history.answered[tag].out, s.history.answered[tag].key);
    ReachableDurable(c, s);
    RunDurable(c, s, ls, t);
    assert At(s, tag) == Some(s.history.answered[tag]);
    assert RowStands(t, t.history.stored[tag]);
  }

  /** Under `fail_closed` no id is acknowledged twice, even if clients repeat ids. */
  lemma AckedAtMostOnce(c: Config, s: State, a: nat, b: nat)
    requires c.setup.failClosed && Reachable(c, s)
    requires a in s.history.answered && s.history.answered[a].Answered?
    requires b in s.history.answered && s.history.answered[b].Answered?
    ensures s.history.answered[a].r.id == s.history.answered[b].r.id ==> a == b
  {
    ReachableDurable(c, s);
    assert At(s, a) == Some(s.history.answered[a]) && At(s, b) == Some(s.history.answered[b]);
  }

  /** What is stored is what the request and its primary call say. */
  ghost predicate Truthful(c: Config, s: State) {
    forall tag :: tag in s.history.stored ==> var w := s.history.stored[tag];
      w.id == w.origin.r.id && Recorded(c.setup.lib, w.origin.r, w.origin.out, w.columns.rawKey, w.columns)
  }

  lemma StepTruthful(c: Config, s: State, l: Label, t: State)
    requires Truthful(c, s) && Durable(c, s) && Step(c, s, l, t)
    ensures Truthful(c, t)
  {
    match l
    case Serve(tag, e) =>
      ServeFrame(c, s, tag, e, t);
      if s.chats[tag].AtInsert? { ColumnsRecord(c.setup, s.chats[tag].r, s.chats[tag].out, s.chats[tag].key); }
    case Arrive(_, _) =>
    case _ => OtherStepFrame(c, s, l, t);
  }

  lemma ReachableTruthful(c: Config, s: State)
    requires Reachable(c, s)
    ensures Truthful(c, s)
  {
    var inv := u => Truthful(c, u);
    forall u, l, t | Step(c, u, l, t) && Reachable(c, u) && inv(u) ensures inv(t) {
      ReachableDurable(c, u);
      StepTruthful(c, u, l, t);
    }
    Always(c, s, inv);
  }

  /** Under either policy a request that stored its row keeps it, and every row was stored by exactly one request. */
  lemma StoredForGood(c: Config, s: State, ls: seq<Label>, t: State, tag: nat)
    requires Reachable(c, s) && Run(c, s, ls, t) && tag in s.history.stored
    ensures var w := s.history.stored[tag];
      && w.id == w.origin.r.id && w.id in t.sh.rows
      && Recorded(c.setup.lib, w.origin.r, w.origin.out, w.columns.rawKey, t.sh.rows[w.id].primary)
      && RowStands(t, w)
    ensures forall other ::
        other in t.history.stored && t.history.stored[other].id == s.history.stored[tag].id ==> other == tag
  {
    ReachableTruthful(c, s);
    ReachableDurable(c, s);
    RunDurable(c, s, ls, t);
  }

  /** Where `fail_open` gives the guarantee up: exactly at an insert that fails or finds the id taken. */
  lemma FailOpenGap(c: Config, s: State, tag: nat, e: ChatEnv, t: State)
    requires Reachable(c, s) && Step(c, s, Serve(tag, e), t) && s.chats[tag].AtInsert?
    ensures tag in t.history.stored <==> Inserts(s.sh.rows, s.chats[tag].r.id, e)
    ensures At(t, tag).Some?
      && (At(t, tag).value.AtGate? <==> Inserts(s.sh.rows, s.chats[tag].r.id, e) || !c.setup.failClosed)
  {
    ReachableDurable(c, s);
    assert At(s, tag) == Some(s.chats[tag]);
  }

  /** Every answered request has its row. */
  ghost predicate AlwaysDurable(c: Config) {
    forall s, tag :: Reachable(c, s) && tag in s.history.answered && s.history.answered[tag].Answered? ==>
      RowStands(s, WrittenBy(c, s.history.answered[tag]))
  }

  /** Answered requests have their rows in every run exactly under `fail_closed`. */
  lemma AckDurabilityIff(c: Config)
    requires Proper(c)
    ensures AlwaysDurable(c) <==> c.setup.failClosed
  {
    if c.setup.failClosed {
      forall s, tag | Reachable(c, s) && tag in s.history.answered && s.history.answered[tag].Answered?
        ensures RowStands(s, WrittenBy(c, s.history.answered[tag]))
      {
        assert Run(c, s, [], s);
        AckDurability(c, s, tag, [], s);
      }
    } else {
      var s := Witnesses.AnsweredWithoutRow(c);
    }
  }
}
