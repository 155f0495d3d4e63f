/** `store/mismatch_tape.py`: a bounded stream of rows with one writer, dropping the oldest on overflow. */
module Tape {
  import opened Prelude
  import opened Evaluator
  import opened Rows

  datatype TapeRow = TapeRow(
    requestId: Id, verdict: Verdict, primaryAction: Option<string>, candidateAction: Option<string>,
    primaryContent: string, candidateContent: string, primaryLatency: int, candidateLatency: int, reasons: seq<string>)

  datatype Item = Payload(row: TapeRow) | Sentinel

  datatype Fate = Written | Rejected | Evicted

  /** The rows that met a given fate, in order. */
  function RowsOf(rows: seq<TapeRow>, fates: seq<Fate>, f: Fate): seq<TapeRow>
    requires |rows| == |fates|
  {
    if rows == [] then []
    else RowsOf(rows[..|rows| - 1], fates[..|rows| - 1], f)
         + (if fates[|rows| - 1] == f then [rows[|rows| - 1]] else [])
  }

  /** A subsequence: rows of one fate keep their offer order, and none occurs twice. */
  lemma {:induction false} WrittenInOrder(rows: seq<TapeRow>, fates: seq<Fate>, f: Fate) returns (at: seq<nat>)
    requires |rows| == |fates|
    ensures |at| == |RowsOf(rows, fates, f)|
    ensures forall i :: 0 <= i < |at| ==>
        at[i] < |rows| && fates[at[i]] == f && RowsOf(rows, fates, f)[i] == rows[at[i]]
    ensures forall i, j :: 0 <= i < j < |at| ==> at[i] < at[j]
  {
    at := [];
    if rows != [] {
      var n := |rows| - 1;
      var before := RowsOf(rows[..n], fates[..n], f);
      at := WrittenInOrder(rows[..n], fates[..n], f);
      assert RowsOf(rows, fates, f) == if fates[n] == f then before + [rows[n]] else before;
      if fates[n] == f { at := at + [n]; }
    }
  }

  lemma WrittenNext(offered: seq<TapeRow>, fates: seq<Fate>, f: Fate)
    requires |fates| < |offered|
    ensures RowsOf(offered[..|fates| + 1], fates + [f], Written)
      == RowsOf(offered[..|fates|], fates, Written) + (if f.Written? then [offered[|fates|]] else [])
  {
    assert offered[..|fates| + 1][..|fates|] == offered[..|fates|];
    assert (fates + [f])[..|fates|] == fates;
  }

  lemma LastFate(rows: seq<TapeRow>, fates: seq<Fate>, f: Fate)
    requires |rows| == |fates| > 0
    ensures var n := |rows| - 1;
      multiset(RowsOf(rows, fates, f))
      == multiset(RowsOf(rows[..n], fates[..n], f)) + (if fates[n] == f then multiset{rows[n]} else multiset{})
  {
  }

  lemma LastRow(rows: seq<TapeRow>)
    requires rows != []
    ensures multiset(rows) == multiset(rows[..|rows| - 1]) + multiset{rows[|rows| - 1]}
  {
    assert rows == rows[..|rows| - 1] + [rows[|rows| - 1]];
  }

  /** Every row meets exactly one of the three fates. */
  lemma {:induction false} FatesPartition(rows: seq<TapeRow>, fates: seq<Fate>)
    requires |rows| == |fates|
    ensures multiset(rows) == multiset(RowsOf(rows, fates, Written)) + multiset(RowsOf(rows, fates, Rejected))
                              + multiset(RowsOf(rows, fates, Evicted))
  {
    if rows != [] {
      FatesPartition(rows[..|rows| - 1], fates[..|rows| - 1]);
      LastRow(rows);
      LastFate(rows, fates, Written);
      LastFate(rows, fates, Rejected);
      LastFate(rows, fates, Evicted);
    }
  }

  lemma TwoParts(all: seq<TapeRow>, n: nat)
    requires n <= |all|
    ensures multiset(all) == multiset(all[..n]) + multiset(all[n..])
  {
    assert all == all[..n] + all[n..];
  }

  lemma StreamPartition(offered: seq<TapeRow>, fates: seq<Fate>)
    requires |fates| <= |offered|
    ensures var past := offered[..|fates|];
      multiset(offered) == multiset(RowsOf(past, fates, Written)) + multiset(RowsOf(past, fates, Rejected))
                           + multiset(RowsOf(past, fates, Evicted)) + multiset(offered[|fates|..])
  {
    FatesPartition(offered[..|fates|], fates);
    TwoParts(offered, |fates|);
  }

  /** The rows waiting in a queue. */
  function Waiting(queue: seq<Item>): (r: seq<TapeRow>)
    requires forall i :: 0 <= i < |queue| ==> queue[i].Payload?
    ensures |r| == |queue| && forall i :: 0 <= i < |r| ==> queue[i] == Payload(r[i])
  {
    seq(|queue|, i requires 0 <= i < |queue| => queue[i].row)
  }

  /** The queue continues where the known fates end. */
  lemma WaitingIsRest(offered: seq<TapeRow>, n: nat, queue: seq<Item>)
    requires |offered| == n + |queue| && forall i :: 0 <= i < |queue| ==> queue[i] == Payload(offered[n + i])
    ensures Waiting(queue) == offered[n..]
  {
  }

  class MismatchTape {
    const queueSize: int
    var queue: seq<Item>
    var stopped: bool
    var writing: bool
    var file: seq<TapeRow>          // the rows committed to the mismatches table

    ghost var offered: seq<TapeRow>
    ghost var fates: seq<Fate>      // what became of the first |fates| offered rows

    /** Holds from construction up to `aclose`. */
    ghost predicate Valid()
      reads this
    {
      && !stopped && (queueSize > 0 ==> |queue| <= queueSize)
      && |offered| == |fates| + |queue|
      && (forall i :: 0 <= i < |queue| ==> queue[i] == Payload(offered[|fates| + i]))
      && file == RowsOf(offered[..|fates|], fates, Written)
      && (forall i :: 0 <= i < |fates| && fates[i].Evicted? ==> 0 < queueSize && i + 1 + queueSize <= |offered|)
    }

    constructor (queueSize: int)
      ensures Valid() && this.queueSize == queueSize && offered == [] && file == [] && !writing
    {
      this.queueSize := queueSize;
      queue, stopped, writing, file, offered, fates := [], false, false, [], [], [];
    }

    method Start()
      requires Valid()
      modifies this`writing
      ensures Valid() && writing
    {
      writing := true;
    }

    predicate Full()
      reads this
    {
      queueSize > 0 && |queue| >= queueSize
    }

    /**
     * `offer`: always accepts. A row is pushed out only when `queueSize` newer rows have been offered,
     * the new one included.
     */
    method Offer(row: TapeRow) returns (accepted: bool)
      requires Valid()
      modifies this`queue, this`offered, this`fates
      ensures Valid() && accepted && offered == old(offered) + [row]
      ensures fates == old(fates) + (if old(Full()) then [Evicted] else [])
      ensures queue == (if old(Full()) then old(queue)[1..] else old(queue)) + [Payload(row)]
    {
      if Full() {
        WrittenNext(offered + [row], fates, Evicted);
        assert (offered + [row])[..|fates|] == offered[..|fates|];
        queue, fates := queue[1..], fates + [Evicted];
      } else {
        assert (offered + [row])[..|fates|] == offered[..|fates|];
      }
      queue := queue + [Payload(row)];
      offered := offered + [row];
      accepted := true;
    }

    /** The writer wakes up from `wait_for(queue.get())`: with a timeout, or with the oldest row. */
    method WriterTurn(timeout: bool, insertOk: bool)
      requires Valid() && writing
      modifies this`queue, this`fates, this`file
      ensures Valid() && offered == old(offered)
      ensures timeout || old(queue) == [] ==> queue == old(queue) && file == old(file) && fates == old(fates)
      ensures !timeout && old(queue) != [] ==>
        && queue == old(queue)[1..] && fates == old(fates) + [if insertOk then Written else Rejected]
        && file == old(file) + (if insertOk then [old(queue)[0].row] else [])
    {
      if timeout || queue == [] { return; }
      WrittenNext(offered, fates, if insertOk then Written else Rejected);
      var item := queue[0];
      queue := queue[1..];
      if insertOk { file := file + [item.row]; }
      fates := fates + [if insertOk then Written else Rejected];
    }

    /**
     * No row is lost or doubled: those offered are the file, those rejected, those evicted and those waiting;
     * and those waiting are the latest offered, in order.
     */
    lemma Conservation()
      requires Valid()
      ensures multiset(offered) == multiset(file) + multiset(RowsOf(offered[..|fates|], fates, Rejected))
                                   + multiset(RowsOf(offered[..|fates|], fates, Evicted)) + multiset(Waiting(queue))
      ensures Waiting(queue) == offered[|offered| - |queue|..]
    {
      WaitingIsRest(offered, |fates|, queue);
      StreamPartition(offered, fates);
    }

    /**
     * `aclose`. The stop flag goes up before the sentinel is queued, so the writer, wherever it is, handles
     * at most one more item. The document promises a flush of the queue (section 11.5.2): it happens exactly
     * when no row is queued, or a single one is and the writer runs, gets its turn and the insert succeeds.
     */
    method Aclose(timeout: bool, insertOk: bool)
      requires Valid()
      modifies this
      ensures stopped && !writing && offered == old(offered)
      ensures file
        == old(file) + (if old(writing && queue != []) && !timeout && insertOk then [old(queue)[0].row] else [])
      ensures |file| == |old(file)| + |old(queue)|
        <==> old(queue) == [] || (|old(queue)| == 1 && old(writing) && !timeout && insertOk)
    {
      stopped := true;
      if !Full() { queue := queue + [Sentinel]; }
      if writing && !timeout && queue != [] {
        var item := queue[0];
        queue := queue[1..];
        if item.Payload? && insertOk { file := file + [item.row]; }
      }
      writing := false; // the loop condition reads the flag, or the sentinel ends the loop
    }
  }
}
