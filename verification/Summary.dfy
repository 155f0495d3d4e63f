/** `_percentile` and `summary` of `store/sql.py`, and `match_rate` of `store/base.py`, over exact reals. */
module Summary {
  import opened Prelude
  import opened Evaluator
  import opened Rows

  // ---------- sorted() ----------

  ghost predicate Ordered(s: seq<int>) { forall i :: 0 < i < |s| ==> s[i - 1] <= s[i] }

  lemma {:induction false} OrderedPair(s: seq<int>, i: nat, j: nat)
    requires Ordered(s) && i <= j < |s|
    ensures s[i] <= s[j]
    decreases j
  {
    if i < j { OrderedPair(s, i, j - 1); }
  }

  function Place(x: int, s: seq<int>): seq<int> {
    if s == [] || x <= s[0] then [x] + s else [s[0]] + Place(x, s[1..])
  }

  function SortInts(s: seq<int>): seq<int> {
    if s == [] then [] else Place(s[0], SortInts(s[1..]))
  }

  lemma {:induction false} PlaceKeeps(x: int, s: seq<int>)
    requires Ordered(s)
    ensures Ordered(Place(x, s)) && Place(x, s) != [] && Place(x, s)[0] == (if s == [] || x <= s[0] then x else s[0])
    ensures multiset(Place(x, s)) == multiset{x} + multiset(s)
  {
    if s != [] && x > s[0] {
      PlaceKeeps(x, s[1..]);
      assert s == [s[0]] + s[1..];
    }
  }

  lemma {:induction false} SortKeeps(s: seq<int>)
    ensures Ordered(SortInts(s)) && multiset(SortInts(s)) == multiset(s)
  {
    if s != [] {
      SortKeeps(s[1..]);
      PlaceKeeps(s[0], SortInts(s[1..]));
      assert s == [s[0]] + s[1..];
    }
  }

  lemma SameSize(a: seq<int>, b: seq<int>)
    requires multiset(a) == multiset(b)
    ensures |a| == |b|
  {
    assert |a| == |multiset(a)| && |b| == |multiset(b)|;
  }

  lemma CancelOne(a: multiset<int>, b: multiset<int>, x: int)
    requires multiset{x} + a == multiset{x} + b
    ensures a == b
  {
    assert a == (multiset{x} + a) - multiset{x};
    assert b == (multiset{x} + b) - multiset{x};
  }

  lemma FirstApart(a: seq<int>)
    requires a != []
    ensures multiset(a) == multiset{a[0]} + multiset(a[1..])
  {
    assert a == [a[0]] + a[1..];
  }

  lemma LeastFirst(a: seq<int>, x: int)
    requires Ordered(a) && x in multiset(a)
    ensures a != [] && a[0] <= x <= a[|a| - 1]
  {
    var i :| 0 <= i < |a| && a[i] == x;
    OrderedPair(a, 0, i);
    OrderedPair(a, i, |a| - 1);
  }

  lemma HeadsAgree(a: seq<int>, b: seq<int>)
    requires a != [] && b != [] && Ordered(a) && Ordered(b) && multiset(a) == multiset(b)
    ensures a[0] == b[0] && multiset(a[1..]) == multiset(b[1..])
  {
    FirstApart(a);
    FirstApart(b);
    assert a[0] in multiset(a) && b[0] in multiset(b);
    LeastFirst(a, b[0]);
    LeastFirst(b, a[0]);
    CancelOne(multiset(a[1..]), multiset(b[1..]), a[0]);
  }

  /** Ordered sequences with the same elements are equal, so sorting forgets the order of its input. */
  lemma {:induction false} OrderedUnique(a: seq<int>, b: seq<int>)
    requires Ordered(a) && Ordered(b) && multiset(a) == multiset(b)
    ensures a == b
  {
    SameSize(a, b);
    if a != [] {
      HeadsAgree(a, b);
      OrderedUnique(a[1..], b[1..]);
      assert a == [a[0]] + a[1..] && b == [b[0]] + b[1..];
    }
  }

  // ---------- _percentile ----------

  /** The point a fraction `f` of the way from `a` to `b`. */
  function Between(a: int, b: int, f: real): real { a as real + (b - a) as real * f }

  lemma BetweenGrows(a: int, b: int, f: real, g: real)
    requires a <= b && 0.0 <= f <= g <= 1.0
    ensures a as real <= Between(a, b, f) <= Between(a, b, g) <= b as real
  {
  }

  lemma Scale(c: real, x: real, y: real)
    requires 0.0 <= c && x <= y
    ensures c * x <= c * y
  {
  }

  /** `(len - 1) * q`. */
  function Rank(n: nat, q: real): (k: real)
    requires 0 < n && 0.0 <= q <= 1.0
    ensures 0.0 <= k <= (n - 1) as real
  {
    Scale((n - 1) as real, q, 1.0);
    Scale((n - 1) as real, 0.0, q);
    (n - 1) as real * q
  }

  lemma RankGrows(n: nat, p: real, q: real)
    requires 0 < n && 0.0 <= p <= q <= 1.0
    ensures Rank(n, p) <= Rank(n, q)
  {
    Scale((n - 1) as real, p, q);
  }

  function Interpolate(s: seq<int>, k: real): real
    requires s != [] && 0.0 <= k <= (|s| - 1) as real
  {
    var lo := k.Floor;
    var hi := Min(lo + 1, |s| - 1);
    Between(s[lo], s[hi], k - lo as real)
  }

  /** `_percentile`; `int(k)` truncates, which is the floor because `k` is not negative. */
  function Percentile(values: seq<int>, q: real): Option<real>
    requires 0.0 <= q <= 1.0
  {
    if values == [] then None
    else if |values| == 1 then Some(values[0] as real)
    else
      var sorted := SortInts(values);
      SortKeeps(values);
      SameSize(sorted, values);
      Some(Interpolate(sorted, Rank(|sorted|, q)))
  }

  lemma InterpolateMonotone(s: seq<int>, k: real, l: real)
    requires s != [] && Ordered(s) && 0.0 <= k <= l <= (|s| - 1) as real
    ensures s[0] as real <= Interpolate(s, k) <= Interpolate(s, l) <= s[|s| - 1] as real
  {
    var i, j := k.Floor, l.Floor;
    var ih, jh := Min(i + 1, |s| - 1), Min(j + 1, |s| - 1);
    OrderedPair(s, 0, i);
    OrderedPair(s, i, ih);
    OrderedPair(s, j, jh);
    OrderedPair(s, jh, |s| - 1);
    if i == j {
      BetweenGrows(s[i], s[ih], k - i as real, l - i as real);
    } else {
      OrderedPair(s, ih, j);
      BetweenGrows(s[i], s[ih], k - i as real, k - i as real);
      BetweenGrows(s[j], s[jh], l - j as real, l - j as real);
    }
  }

  /** The samples in another order give the same percentile. */
  lemma PercentileOrderFree(a: seq<int>, b: seq<int>, q: real)
    requires multiset(a) == multiset(b) && 0.0 <= q <= 1.0
    ensures Percentile(a, q) == Percentile(b, q)
  {
    SameSize(a, b);
    SortKeeps(a);
    SortKeeps(b);
    OrderedUnique(SortInts(a), SortInts(b));
    if |a| == 1 { assert a[0] in multiset(b); }
  }

  /** A percentile never leaves the range of the samples. */
  lemma PercentileBounded(a: seq<int>, q: real, lo: int, hi: int)
    requires a != [] && 0.0 <= q <= 1.0
    requires forall x :: x in a ==> lo <= x <= hi
    ensures Percentile(a, q).Some? && lo as real <= Percentile(a, q).value <= hi as real
  {
    if |a| == 1 {
      assert a[0] in a;
    } else {
      var s := SortInts(a);
      SortKeeps(a);
      SameSize(s, a);
      assert s[0] in multiset(s) && s[|s| - 1] in multiset(s);
      assert s[0] in a && s[|s| - 1] in a;
      InterpolateMonotone(s, Rank(|s|, q), Rank(|s|, q));
    }
  }

  /** A larger `q` never gives a smaller percentile. */
  lemma PercentileMonotone(a: seq<int>, p: real, q: real)
    requires a != [] && 0.0 <= p <= q <= 1.0
    ensures Percentile(a, p).Some? && Percentile(a, q).Some? && Percentile(a, p).value <= Percentile(a, q).value
  {
    if |a| > 1 {
      var s := SortInts(a);
      SortKeeps(a);
      SameSize(s, a);
      RankGrows(|s|, p, q);
      InterpolateMonotone(s, Rank(|s|, p), Rank(|s|, q));
    }
  }

  lemma InterpolateMeaning(s: seq<int>, k: real, i: nat, f: real)
    requires i < |s| && 0.0 <= k <= (|s| - 1) as real && k == i as real + f && 0.0 <= f <= 1.0
    ensures f == 0.0 ==> Interpolate(s, k) == s[i] as real
    ensures i + 1 < |s| ==> Interpolate(s, k) == s[i] as real + (s[i + 1] - s[i]) as real * f
  {
    if f == 1.0 {
      assert k.Floor == i + 1;
    } else {
      assert k.Floor == i && k - i as real == f;
    }
  }

  lemma PercentileOfOrdered(a: seq<int>, q: real, s: seq<int>)
    requires Ordered(s) && multiset(s) == multiset(a) && s != [] && 0.0 <= q <= 1.0
    ensures |s| == 1 ==> Percentile(a, q) == Some(s[0] as real)
    ensures |s| > 1 ==> Percentile(a, q) == Some(Interpolate(s, Rank(|s|, q)))
  {
    SameSize(a, s);
    SortKeeps(a);
    OrderedUnique(SortInts(a), s);
    if |a| == 1 { assert a[0] in multiset(s); }
  }

  /**
   * On the samples in order, s[0] <= s[1] <= ..., the percentile at q lies at (n - 1) q = i + f: for f = 0 it is
   * s[i], and otherwise it divides the distance from s[i] to s[i + 1] in the proportion f.
   */
  lemma PercentileMeaning(a: seq<int>, q: real, s: seq<int>, i: nat, f: real)
    requires Ordered(s) && multiset(s) == multiset(a) && i < |s| && 0.0 <= q <= 1.0
    requires (|s| - 1) as real * q == i as real + f && 0.0 <= f <= 1.0
    ensures f == 0.0 ==> Percentile(a, q) == Some(s[i] as real)
    ensures i + 1 < |s| ==> Percentile(a, q) == Some(s[i] as real + (s[i + 1] - s[i]) as real * f)
  {
    PercentileOfOrdered(a, q, s);
    if |s| > 1 { InterpolateMeaning(s, Rank(|s|, q), i, f); }
  }

  /** The p50 is the median. */
  lemma MedianMeaning(a: seq<int>, s: seq<int>, m: nat)
    requires Ordered(s) && multiset(s) == multiset(a)
    ensures |s| == 2 * m + 1 ==> Percentile(a, 0.5) == Some(s[m] as real)
    ensures |s| == 2 * m + 2 ==> Percentile(a, 0.5) == Some((s[m] + s[m + 1]) as real / 2.0)
  {
    if |s| == 2 * m + 1 { PercentileMeaning(a, 0.5, s, m, 0.0); }
    if |s| == 2 * m + 2 { PercentileMeaning(a, 0.5, s, m, 0.5); }
  }

  // ---------- summary ----------

  datatype SummaryStats = SummaryStats(
    total: nat, verdicts: map<Verdict, nat>,
    primaryP50: Option<real>, primaryP95: Option<real>, candidateP50: Option<real>, candidateP95: Option<real>)

  function Single(o: Option<int>): seq<int> { if o.Some? then [o.value] else [] }

  /** The values a column yields, row by row, absent ones skipped. */
  function Values(rows: seq<Row>, f: Row -> Option<int>): seq<int> {
    if rows == [] then [] else Values(rows[..|rows| - 1], f) + Single(f(rows[|rows| - 1]))
  }

  function PrimaryLatency(r: Row): Option<int> { Some(r.primary.latency) }

  function CandidateLatency(r: Row): Option<int> { r.latency }

  function HasVerdict(v: Verdict): Row -> Option<int> { (r: Row) => if r.verdict == v then Some(1) else None }

  function Count(rows: seq<Row>, v: Verdict): nat { |Values(rows, HasVerdict(v))| }

  ghost predicate SummaryOf(rows: seq<Row>, s: SummaryStats) {
    && s.total == |rows|
    && (forall v :: v in s.verdicts ==> s.verdicts[v] == Count(rows, v) > 0)
    && (forall v :: Count(rows, v) > 0 ==> v in s.verdicts)
    && s.primaryP50 == Percentile(Values(rows, PrimaryLatency), 0.5)
    && s.primaryP95 == Percentile(Values(rows, PrimaryLatency), 0.95)
    && s.candidateP50 == Percentile(Values(rows, CandidateLatency), 0.5)
    && s.candidateP95 == Percentile(Values(rows, CandidateLatency), 0.95)
  }

  lemma ValuesNext(rows: seq<Row>, i: nat, f: Row -> Option<int>)
    requires i < |rows|
    ensures Values(rows[..i + 1], f) == Values(rows[..i], f) + Single(f(rows[i]))
  {
    assert rows[..i + 1][..i] == rows[..i];
  }

  /** `summary`, over the rows the window selects, in whatever order the database returns them. */
  method Summarize(rows: seq<Row>) returns (s: SummaryStats)
    ensures SummaryOf(rows, s)
  {
    var verdicts: map<Verdict, nat> := map[];
    var primary: seq<int>, candidate: seq<int> := [], [];
    for i := 0 to |rows|
      invariant primary == Values(rows[..i], PrimaryLatency) && candidate == Values(rows[..i], CandidateLatency)
      invariant forall v :: v in verdicts ==> verdicts[v] == Count(rows[..i], v) > 0
      invariant forall v :: Count(rows[..i], v) > 0 ==> v in verdicts
    {
      var r := rows[i];
      ValuesNext(rows, i, PrimaryLatency);
      ValuesNext(rows, i, CandidateLatency);
      forall v ensures Count(rows[..i + 1], v) == Count(rows[..i], v) + (if r.verdict == v then 1 else 0) {
        ValuesNext(rows, i, HasVerdict(v));
      }
      verdicts := verdicts[r.verdict := (if r.verdict in verdicts then verdicts[r.verdict] else 0) + 1];
      primary := primary + [r.primary.latency];
      if r.latency.Some? { candidate := candidate + [r.latency.value]; }
    }
    assert rows[..|rows|] == rows;
    s := SummaryStats(|rows|, verdicts, Percentile(primary, 0.5), Percentile(primary, 0.95),
                      Percentile(candidate, 0.5), Percentile(candidate, 0.95));
  }

  function Without(rows: seq<Row>, i: nat): seq<Row>
    requires i < |rows|
  {
    rows[..i] + rows[i + 1..]
  }

  lemma {:induction false} ValuesConcat(a: seq<Row>, b: seq<Row>, f: Row -> Option<int>)
    ensures Values(a + b, f) == Values(a, f) + Values(b, f)
    decreases |b|
  {
    if b == [] {
      assert a + b == a;
    } else {
      var n := |b| - 1;
      assert (a + b)[..|a + b| - 1] == a + b[..n];
      ValuesConcat(a, b[..n], f);
    }
  }

  lemma RowsApart(a: seq<Row>, i: nat)
    requires i < |a|
    ensures multiset(a) == multiset(Without(a, i)) + multiset{a[i]}
  {
    assert a == a[..i] + [a[i]] + a[i + 1..];
  }

  lemma Bag(all: seq<int>, some: seq<int>, l: seq<int>, x: seq<int>, r: seq<int>)
    requires all == l + x + r && some == l + r
    ensures multiset(all) == multiset(some) + multiset(x)
  {
  }

  lemma ValuesThree(l: seq<Row>, row: Row, r: seq<Row>, f: Row -> Option<int>)
    ensures Values(l + [row] + r, f) == Values(l, f) + Single(f(row)) + Values(r, f)
  {
    ValuesConcat(l, [row], f);
    ValuesConcat(l + [row], r, f);
    assert [row][..0] == [];
  }

  lemma Cut(rows: seq<Row>, i: nat)
    requires i < |rows|
    ensures rows == rows[..i] + [rows[i]] + rows[i + 1..]
  {
  }

  lemma WithoutOne(rows: seq<Row>, i: nat, f: Row -> Option<int>) returns (all: seq<int>, some: seq<int>)
    requires i < |rows|
    ensures all == Values(rows, f) && some == Values(Without(rows, i), f)
    ensures multiset(all) == multiset(some) + multiset(Single(f(rows[i])))
  {
    var l, r := rows[..i], rows[i + 1..];
    Cut(rows, i);
    ValuesThree(l, rows[i], r, f);
    ValuesConcat(l, r, f);
    var a, x, b := Values(l, f), Single(f(rows[i])), Values(r, f);
    all, some := a + x + b, a + b;
    Bag(all, some, a, x, b);
  }

  /** Where a row of one list sits in a list with the same rows, and that the rest agree as well. */
  lemma Locate(a: seq<Row>, b: seq<Row>) returns (i: nat)
    requires a != [] && multiset(a) == multiset(b)
    ensures i < |b| && b[i] == a[|a| - 1]
    ensures multiset(a[..|a| - 1]) == multiset(Without(b, i))
  {
    var n := |a| - 1;
    RowsApart(a, n);
    assert Without(a, n) == a[..n];
    assert a[n] in multiset(b);
    i :| i < |b| && b[i] == a[n];
    RowsApart(b, i);
    assert multiset(a[..n]) == multiset(a) - multiset{a[n]};
    assert multiset(Without(b, i)) == multiset(b) - multiset{a[n]};
  }

  lemma {:induction false} ValuesOrderFree(a: seq<Row>, b: seq<Row>, f: Row -> Option<int>)
    requires multiset(a) == multiset(b)
    ensures multiset(Values(a, f)) == multiset(Values(b, f)) && |Values(a, f)| == |Values(b, f)|
    decreases |a|
  {
    if a == [] {
      assert |b| == |multiset(b)| == 0;
    } else {
      var i := Locate(a, b);
      var rest := Without(b, i);
      ValuesOrderFree(a[..|a| - 1], rest, f);
      var all, some := WithoutOne(b, i, f);
      Bag(Values(a, f), Values(a[..|a| - 1], f), Values(a[..|a| - 1], f), Single(f(b[i])), []);
    }
    SameSize(Values(a, f), Values(b, f));
  }

  lemma ColumnOrderFree(a: seq<Row>, b: seq<Row>, f: Row -> Option<int>)
    requires multiset(a) == multiset(b)
    ensures Percentile(Values(a, f), 0.5) == Percentile(Values(b, f), 0.5)
    ensures Percentile(Values(a, f), 0.95) == Percentile(Values(b, f), 0.95)
    ensures Values(a, f) != [] ==> Percentile(Values(a, f), 0.5).Some? && Percentile(Values(a, f), 0.95).Some?
                                   && Percentile(Values(a, f), 0.5).value <= Percentile(Values(a, f), 0.95).value
  {
    ValuesOrderFree(a, b, f);
    PercentileOrderFree(Values(a, f), Values(b, f), 0.5);
    PercentileOrderFree(Values(a, f), Values(b, f), 0.95);
    if Values(a, f) != [] { PercentileMonotone(Values(a, f), 0.5, 0.95); }
  }

  /** The summary is a function of which rows there are, not of the order they arrive in; p50 never exceeds p95. */
  lemma SummaryIsOrderFree(a: seq<Row>, b: seq<Row>, s: SummaryStats, t: SummaryStats)
    requires multiset(a) == multiset(b) && SummaryOf(a, s) && SummaryOf(b, t)
    ensures s == t
    ensures s.primaryP50.Some? ==> s.primaryP95.Some? && s.primaryP50.value <= s.primaryP95.value
    ensures s.candidateP50.Some? ==> s.candidateP95.Some? && s.candidateP50.value <= s.candidateP95.value
  {
    forall v ensures Count(a, v) == Count(b, v) { ValuesOrderFree(a, b, HasVerdict(v)); }
    assert |a| == |multiset(a)| && |b| == |multiset(b)|;
    assert s.verdicts == t.verdicts;
    ColumnOrderFree(a, b, PrimaryLatency);
    ColumnOrderFree(a, b, CandidateLatency);
  }

  // ---------- match_rate ----------

  function Tally(s: SummaryStats, v: Verdict): nat { if v in s.verdicts then s.verdicts[v] else 0 }

  function FinalizedCount(s: SummaryStats): nat {
    Tally(s, Match) + Tally(s, Mismatch) + Tally(s, InvalidJson) + Tally(s, CandidateError)
  }

  lemma RatioBounds(m: nat, n: nat)
    requires 0 < n && m <= n
    ensures 0.0 <= m as real / n as real <= 1.0
    ensures m as real / n as real == 1.0 <==> m == n
  {
  }

  /** `match_rate`. */
  function MatchRate(s: SummaryStats): real {
    if FinalizedCount(s) == 0 then 0.0 else Tally(s, Match) as real / FinalizedCount(s) as real
  }

  /** The rows with one of the four verdicts that count as finalized. */
  function Finalized(rows: seq<Row>): seq<Row> {
    if rows == [] then []
    else Finalized(rows[..|rows| - 1])
         + (if rows[|rows| - 1].verdict in {Match, Mismatch, InvalidJson, CandidateError}
            then [rows[|rows| - 1]] else [])
  }

  lemma {:induction false} FinalizedSize(rows: seq<Row>)
    ensures |Finalized(rows)|
      == Count(rows, Match) + Count(rows, Mismatch) + Count(rows, InvalidJson) + Count(rows, CandidateError)
  {
    if rows != [] { FinalizedSize(rows[..|rows| - 1]); }
  }

  lemma TallyIsCount(rows: seq<Row>, s: SummaryStats, v: Verdict)
    requires SummaryOf(rows, s)
    ensures Tally(s, v) == Count(rows, v)
  {
  }

  lemma RateIs(s: SummaryStats, m: nat, n: nat)
    requires Tally(s, Match) == m <= n == FinalizedCount(s)
    ensures MatchRate(s) == if n == 0 then 0.0 else m as real / n as real
    ensures 0.0 <= MatchRate(s) <= 1.0 && (MatchRate(s) == 1.0 <==> m > 0 && n == m)
  {
    if n > 0 { RatioBounds(m, n); }
  }

  /**
   * Of the selected rows with one of the four verdicts, the fraction that matched; 0 where there are none.
   * It is between 0 and 1, and 1 exactly when something was finalized and all of it matched.
   */
  lemma MatchRateMeaning(rows: seq<Row>, s: SummaryStats)
    requires SummaryOf(rows, s)
    ensures Finalized(rows) == [] ==> MatchRate(s) == 0.0
    ensures Finalized(rows) != [] ==> MatchRate(s) == Count(rows, Match) as real / |Finalized(rows)| as real
    ensures 0.0 <= MatchRate(s) <= 1.0
    ensures MatchRate(s) == 1.0 <==> Count(rows, Match) > 0 && |Finalized(rows)| == Count(rows, Match)
  {
    FinalizedSize(rows);
    TallyIsCount(rows, s, Match);
    TallyIsCount(rows, s, Mismatch);
    TallyIsCount(rows, s, InvalidJson);
    TallyIsCount(rows, s, CandidateError);
    RateIs(s, Count(rows, Match), |Finalized(rows)|);
  }
}
