/** Single inputs at which a promise one might expect is broken. The exact conditions are with each component. */
module Counterexamples {
  import opened Prelude
  import Fence
  import opened RawStore
  import opened Rows
  import opened Dispatcher
  import Tape
  import Json
  import Evaluator
  import Pipeline
  import Sweeper

  /** One worker is inside its handler and nothing is queued: stopping without a drain raises. */
  method StopRaises() returns (raised: bool)
    ensures raised
  {
    var d := new InProcessDispatcher(1, 1, DropNew);
    d.Start();
    var _ := d.Enqueue("a");
    NobodyBusy(d.slots);
    d.Take(0);
    raised := d.Stop(false);
  }

  /** Two rows are waiting: closing the tape writes one of them. */
  method CloseLosesRow(row: Tape.TapeRow) returns (ghost offered: nat, written: nat)
    ensures offered == 2 && written == 1
  {
    var tape := new Tape.MismatchTape(1024);
    tape.Start();
    var _ := tape.Offer(row);
    var _ := tape.Offer(row);
    tape.Aclose(false, true);
    return |tape.offered|, |tape.file|;
  }

  /** Two unfinished rows and room for one job: two are reported, one is queued. */
  method RequeueReportsDropped(columns: PrimaryColumns) returns (reported: nat, queued: nat)
    ensures reported == 2 && queued == 1
  {
    var store := new SqlComparisonStore();
    var _ := store.InsertPending("a", columns);
    var _ := store.InsertPending("b", columns);
    var d := new InProcessDispatcher(1, 1, DropNew);
    assert UnfinishedIds(store.rows) == {"a", "b"};
    ghost var ids;
    reported, ids := Sweeper.RequeueAllUnfinished(store, d);
    queued := |d.queue|;
  }

  const LAST_OF_JUNE: Date := Calendar(2026, 6, 30)
  const FIRST_OF_JULY: Date := Calendar(2026, 7, 1)

  /** The day changes between the two writes. */
  lemma MergeAfterMidnight()
    ensures KeyFor(FIRST_OF_JULY, IdOfKey(KeyFor(LAST_OF_JUNE, "a"))) != KeyFor(LAST_OF_JUNE, "a")
  {
    MergeReturnsToItsKeyIff(LAST_OF_JUNE, FIRST_OF_JULY, "a");
  }

  /** The id has a slash in it. */
  lemma MergeOfSlashedId()
    ensures KeyFor(FIRST_OF_JULY, IdOfKey(KeyFor(FIRST_OF_JULY, "a/b"))) != KeyFor(FIRST_OF_JULY, "a/b")
  {
    assert "a/b"[1] == '/';
    MergeReturnsToItsKeyIff(FIRST_OF_JULY, FIRST_OF_JULY, "a/b");
  }

  /** Fencing the text a second time uncovers the first fence. */
  lemma SecondFence()
    ensures Fence.StripCodeFence(Fence.Wrap("{}")) == "{}"
    ensures Fence.StripCodeFence(Fence.Wrap(Fence.Wrap("{}"))) == Fence.Wrap("{}")
  {
    Fence.WrapIsTrimmed("{}");
    Fence.StripInvertsWrap("{}");
    Fence.StripInvertsWrap(Fence.Wrap("{}"));
  }

  /** Where another key is compared, the action stored at insert is still the one under "action". */
  lemma StoredUnderOtherKey(lib: Evaluator.PyLib, s: Evaluator.Settings, text: string)
    requires s.compareKey != "action"
    requires Evaluator.Parse(lib, text) == Evaluator.Parsed(Json.Obj([Json.Field("action", Json.Str("buy"))]))
    ensures Pipeline.ExtractAction(lib, text) == Some(lib.str(Json.Str("buy")))
    ensures Evaluator.Evaluation(lib, s, text, text).primaryAction == None
  {
    Pipeline.StoredActionIsShown(lib, s, text, text);
    var fields := [Json.Field("action", Json.Str("buy"))];
    assert Json.Lookup(fields, "action") == Some(Json.Str("buy")) && Json.Lookup(fields, s.compareKey) == None;
  }
}
