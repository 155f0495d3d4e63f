/** `_strip_code_fence` of `evaluator/json_action.py`: the code fence regex and its lazy body. */
module Fence {
  import opened Prelude

  /** Unicode white space, for `\s` and for `str.strip` alike. */
  predicate IsSpace(c: char) {
    var n := c as int;
    9 <= n <= 13 || 28 <= n <= 32 || n == 0x85 || n == 0xa0 || n == 0x1680 || 0x2000 <= n <= 0x200a
    || n == 0x2028 || n == 0x2029 || n == 0x202f || n == 0x205f || n == 0x3000
  }

  ghost predicate AllSpace(t: string, i: nat, j: nat) {
    i <= j <= |t| && forall k :: i <= k < j ==> IsSpace(t[k])
  }

  /** The characters with the Unicode property White_Space, and the four separators from U+001C on. */
  const WHITE_SPACE: set<int> := {
    0x9, 0xa, 0xb, 0xc, 0xd, 0x1c, 0x1d, 0x1e, 0x1f, 0x20, 0x85, 0xa0, 0x1680, 0x2000, 0x2001, 0x2002, 0x2003, 0x2004,
    0x2005, 0x2006, 0x2007, 0x2008, 0x2009, 0x200a, 0x2028, 0x2029, 0x202f, 0x205f, 0x3000}

  lemma SpaceIsWhite(c: char)
    ensures IsSpace(c) <==> c as int in WHITE_SPACE
  {
  }

  predicate Ticks(t: string, i: nat) {
    i + 3 <= |t| && t[i] == '`' && t[i + 1] == '`' && t[i + 2] == '`'
  }

  /** `json` without regard to case; U+017F folds to `s` as well. */
  predicate JsonTag(t: string, i: nat) {
    && i + 4 <= |t| && t[i] in "jJ" && (t[i + 1] in "sS" || t[i + 1] as int == 0x17f)
    && t[i + 2] in "oO" && t[i + 3] in "nN"
  }

  // ---------- what the pattern means ----------

  /** One way to cut a text into the parts of the pattern. */
  datatype Cut = Cut(fence: nat, tag: nat, body: nat, end: nat, close: nat)

  /** `^\s*``` (json)? \s* body \s* ``` \s*$`, cut at the given places. */
  ghost predicate Matches(t: string, m: Cut) {
    && AllSpace(t, 0, m.fence) && Ticks(t, m.fence)
    && (m.tag == m.fence + 3 || (m.tag == m.fence + 7 && JsonTag(t, m.fence + 3)))
    && AllSpace(t, m.tag, m.body)
    && m.body <= m.end
    && AllSpace(t, m.end, m.close) && Ticks(t, m.close)
    && AllSpace(t, m.close + 3, |t|)
  }

  ghost predicate Fenced(t: string) { exists m :: Matches(t, m) }

  /** The order in which a backtracking matcher tries cuts: greedy parts long first, the lazy body short first. */
  predicate TriedBefore(m: Cut, n: Cut) {
    || m.fence > n.fence
    || (m.fence == n.fence && m.tag > n.tag)
    || (m.fence == n.fence && m.tag == n.tag && m.body > n.body)
    || (m.fence == n.fence && m.tag == n.tag && m.body == n.body && m.end < n.end)
    || (m.fence == n.fence && m.tag == n.tag && m.body == n.body && m.end == n.end && m.close > n.close)
  }

  // ---------- the search ----------

  function SkipSpace(t: string, i: nat): (j: nat)
    requires i <= |t|
    ensures AllSpace(t, i, j) && (j < |t| ==> !IsSpace(t[j]))
    decreases |t| - i
  {
    if i < |t| && IsSpace(t[i]) then SkipSpace(t, i + 1) else i
  }

  /** The part of the pattern after the body matches from `d` to the end. */
  predicate Closes(t: string, d: nat) {
    d <= |t| && var e := SkipSpace(t, d); Ticks(t, e) && SkipSpace(t, e + 3) == |t|
  }

  /** The lazy body: the first place, from `d` on, where the rest of the pattern matches. */
  function LazyEnd(t: string, d: nat): (r: Option<nat>)
    ensures r.Some? ==> d <= r.value && Closes(t, r.value) && forall k :: d <= k < r.value ==> !Closes(t, k)
    ensures r.None? ==> forall k :: d <= k ==> !Closes(t, k)
    decreases |t| - d
  {
    if d > |t| then None
    else if Closes(t, d) then Some(d)
    else LazyEnd(t, d + 1)
  }

  function Search(t: string): Option<Cut> {
    var fence := SkipSpace(t, 0);
    if !Ticks(t, fence) then None else
    var tag := if JsonTag(t, fence + 3) then fence + 7 else fence + 3;
    var body := SkipSpace(t, tag);
    var end := LazyEnd(t, body);
    if end.None? then None
    else Some(Cut(fence, tag, body, end.value, SkipSpace(t, end.value)))
  }

  /** `str.strip()`. */
  function Trim(t: string): (r: string)
    ensures Trimmed(r)
    decreases |t|
  {
    if t != [] && IsSpace(t[0]) then Trim(t[1..])
    else if t != [] && IsSpace(t[|t| - 1]) then Trim(t[..|t| - 1])
    else t
  }

  lemma SpaceInTail(t: string, i: nat, j: nat)
    requires t != [] && AllSpace(t[1..], i, j)
    ensures AllSpace(t, i + 1, j + 1)
  {
    assert forall k :: 0 < k < |t| ==> t[k] == t[1..][k - 1];
  }

  /** Trimming cuts white space off both ends and nothing else. */
  lemma {:induction false} TrimCuts(t: string) returns (i: nat, j: nat)
    ensures i <= j <= |t| && AllSpace(t, 0, i) && AllSpace(t, j, |t|) && Trim(t) == t[i..j]
    decreases |t|
  {
    i, j := 0, |t|;
    if t != [] && IsSpace(t[0]) {
      var u := t[1..];
      assert Trim(t) == Trim(u);
      i, j := TrimCuts(u);
      assert u[i..j] == t[i + 1..j + 1];
      SpaceInTail(t, 0, i);
      SpaceInTail(t, j, |u|);
      i, j := i + 1, j + 1;
    } else if t != [] && IsSpace(t[|t| - 1]) {
      var u := t[..|t| - 1];
      assert Trim(t) == Trim(u);
      i, j := TrimCuts(u);
      assert u[i..j] == t[i..j];
    }
  }

  predicate Trimmed(t: string) { t == [] || (!IsSpace(t[0]) && !IsSpace(t[|t| - 1])) }

  /** `_strip_code_fence`. */
  function StripCodeFence(t: string): string {
    match Search(t)
    case Some(m) => if m.body <= m.end <= |t| then t[m.body..m.end] else []
    case None => Trim(t)
  }

  // ---------- the search finds the cut the pattern prefers ----------

  lemma SkipIs(t: string, i: nat, j: nat)
    requires AllSpace(t, i, j) && (j < |t| ==> !IsSpace(t[j]))
    ensures SkipSpace(t, i) == j
  {
  }

  /** The rest of the pattern matches at the end of a cut's body, and at its closing fence. */
  lemma CutEnds(t: string, n: Cut)
    requires Matches(t, n)
    ensures Closes(t, n.close) && Closes(t, n.end) && SkipSpace(t, n.end) == n.close
  {
    SkipIs(t, n.end, n.close);
    SkipIs(t, n.close, n.close);
    SkipIs(t, n.close + 3, |t|);
  }

  /** The tag, where there is one, lies before the closing fence. */
  lemma TagFits(t: string, n: Cut)
    requires Matches(t, n)
    ensures JsonTag(t, n.fence + 3) ==> n.fence + 7 <= n.close
  {
    if JsonTag(t, n.fence + 3) {
      assert forall k :: n.fence + 3 <= k < n.fence + 7 ==> t[k] != '`';
      assert t[n.close] == '`';
    }
  }

  /** Every cut of a text leaves room for the search to succeed. */
  lemma CutCloses(t: string, n: Cut)
    requires Matches(t, n)
    ensures SkipSpace(t, 0) == n.fence
    ensures var tag := if JsonTag(t, n.fence + 3) then n.fence + 7 else n.fence + 3;
      n.tag <= tag <= |t| && SkipSpace(t, tag) <= n.close && (n.tag == tag ==> n.body <= SkipSpace(t, tag))
    ensures Closes(t, n.close) && Closes(t, n.end) && SkipSpace(t, n.end) == n.close
  {
    CutEnds(t, n);
    TagFits(t, n);
    SkipIs(t, 0, n.fence);
    assert t[n.close] == '`';
  }

  /** The search succeeds exactly on fenced texts, and returns the cut tried first of all that match. */
  lemma SearchIsPreferred(t: string)
    ensures Search(t).Some? <==> Fenced(t)
    ensures Search(t).Some? ==>
      && Matches(t, Search(t).value)
      && forall n :: Matches(t, n) ==> n == Search(t).value || TriedBefore(Search(t).value, n)
  {
    forall n | Matches(t, n)
      ensures Search(t).Some? && (n == Search(t).value || TriedBefore(Search(t).value, n))
    {
      CutCloses(t, n);
    }
    if Search(t).Some? {
      assert Matches(t, Search(t).value);
    }
  }

  /** No other cut of the text is tried before this one. */
  ghost predicate Preferred(t: string, m: Cut) {
    Matches(t, m) && forall n :: Matches(t, n) ==> n == m || TriedBefore(m, n)
  }

  /** The result is the body of the preferred cut of a fenced text, and any other text without its outer white space. */
  lemma StripMeaning(t: string) returns (i: nat, j: nat)
    ensures i <= j <= |t| && StripCodeFence(t) == t[i..j]
    ensures Fenced(t) ==> exists m :: Preferred(t, m) && m.body == i && m.end == j
    ensures !Fenced(t) ==>
      AllSpace(t, 0, i) && AllSpace(t, j, |t|) && (i == j || (!IsSpace(t[i]) && !IsSpace(t[j - 1])))
  {
    SearchIsPreferred(t);
    match Search(t)
    case Some(m) =>
      assert Preferred(t, m);
      i, j := m.body, m.end;
    case None =>
      i, j := TrimCuts(t);
      assert i < j ==> Trim(t)[0] == t[i] && Trim(t)[|Trim(t)| - 1] == t[j - 1];
  }

  lemma TicksAreFence(t: string, i: nat)
    ensures Ticks(t, i) <==> i + 3 <= |t| && t[i..i + 3] == "```"
  {
    if i + 3 <= |t| { assert t[i..i + 3] == [t[i], t[i + 1], t[i + 2]]; }
  }

  /** `re.IGNORECASE` on ASCII letters, and the long s. */
  function Fold(c: char): char {
    if 'A' <= c <= 'Z' then (c as int + 32) as char else if c as int == 0x17f then 's' else c
  }

  lemma TagIsCaseless(t: string, i: nat)
    ensures JsonTag(t, i)
      <==> i + 4 <= |t| && [Fold(t[i]), Fold(t[i + 1]), Fold(t[i + 2]), Fold(t[i + 3])] == "json"
  {
    assert "json" == ['j', 's', 'o', 'n'];
  }

  lemma ClosesEarlier(t: string, d: nat)
    requires 0 < d && Closes(t, d)
    ensures IsSpace(t[d - 1]) ==> Closes(t, d - 1)
  {
  }

  /** What `_strip_code_fence` returns is always trimmed. */
  lemma StripIsTrimmed(t: string)
    ensures Trimmed(StripCodeFence(t))
  {
    SearchIsPreferred(t);
    var s := Search(t);
    if s.Some? && s.value.body < s.value.end {
      var m := s.value;
      ClosesEarlier(t, m.end);
    }
  }

  // ---------- wrapping ----------

  const OPEN: string := "```json\n"
  const CLOSE: string := "\n```"

  function Wrap(b: string): string { OPEN + b + CLOSE }

  /** The cut of a wrapped text. */
  function WrapCut(b: string): Cut {
    var close := 9 + |b|;
    if b == [] then Cut(0, 7, close, close, close) else Cut(0, 7, 8, close - 1, close)
  }

  lemma WrapShape(b: string)
    ensures var t := Wrap(b);
      && |t| == |b| + 12 && Ticks(t, 0) && JsonTag(t, 3) && t[7] == '\n' && t[8 + |b|] == '\n' && Ticks(t, 9 + |b|)
      && forall k :: 0 <= k < |b| ==> t[8 + k] == b[k]
  {
  }

  /** A fence ends in backticks on both sides. */
  lemma WrapIsTrimmed(b: string)
    ensures Trimmed(Wrap(b))
  {
    WrapShape(b);
  }

  lemma WrapMatches(b: string)
    requires Trimmed(b)
    ensures Matches(Wrap(b), WrapCut(b)) && Wrap(b)[WrapCut(b).body..WrapCut(b).end] == b
  {
  }

  /** No other cut of a wrapped text ends its body earlier. */
  lemma WrapCutIsFirst(b: string, m: Cut)
    requires Trimmed(b) && Matches(Wrap(b), m) && (m == WrapCut(b) || TriedBefore(m, WrapCut(b)))
    ensures m == WrapCut(b)
  {
    var t, n := Wrap(b), WrapCut(b);
    WrapShape(b);
    WrapMatches(b);
    CutCloses(t, n);
    CutCloses(t, m);
    SkipIs(t, 7, n.body);
    assert m.fence == 0 && m.tag == 7 && m.body == n.body;
    assert m.close + 3 <= |t| && AllSpace(t, m.close + 3, |t|);
    assert !IsSpace(t[|t| - 1]);
    assert m.close == n.close;
    if b != [] { assert t[7 + |b|] == b[|b| - 1]; }
  }

  /** A trimmed text comes back from its fence unchanged, inner backticks and all. */
  lemma StripInvertsWrap(b: string)
    requires Trimmed(b)
    ensures StripCodeFence(Wrap(b)) == b
  {
    WrapMatches(b);
    SearchIsPreferred(Wrap(b));
    WrapCutIsFirst(b, Search(Wrap(b)).value);
  }

  /** Wrapping a trimmed text changes what the evaluator reads exactly when the text was fenced already. */
  lemma WrapIsNeutralIff(b: string)
    requires Trimmed(b)
    ensures StripCodeFence(Wrap(b)) == StripCodeFence(b) <==> !Fenced(b)
  {
    StripInvertsWrap(b);
    SearchIsPreferred(b);
  }

  /** Stripping first makes wrapping neutral for every text. */
  lemma WrapAfterStrip(t: string)
    ensures StripCodeFence(Wrap(StripCodeFence(t))) == StripCodeFence(t)
  {
    StripIsTrimmed(t);
    StripInvertsWrap(StripCodeFence(t));
  }
}
