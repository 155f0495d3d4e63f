/** `store/raw.py`: the dated object key, and the archive of full payloads. */
module RawStore {
  import opened Prelude
  import opened Json

  datatype Calendar = Calendar(year: nat, month: nat, day: nat)

  /** A day with a four digit year. */
  type Date = d: Calendar | 1000 <= d.year <= 9999 && 1 <= d.month <= 12 && 1 <= d.day <= 31
    witness Calendar(2026, 1, 1)

  const DIGITS: string := "0123456789"

  function Two(n: nat): (r: string)
    requires n < 100
    ensures |r| == 2 && '/' !in r
  {
    assert forall c :: c in DIGITS ==> c != '/';
    [DIGITS[n / 10], DIGITS[n % 10]]
  }

  /** `%Y/%m/%d/`. */
  function Folder(d: Date): (r: string)
    ensures |r| == 11 && r[10] == '/'
  {
    Two(d.year / 100) + Two(d.year % 100) + "/" + Two(d.month) + "/" + Two(d.day) + "/"
  }

  const SUFFIX: string := ".json.gz"

  /** `_key_for` on a given day. */
  function KeyFor(d: Date, id: string): string
  {
    "raw/" + Folder(d) + id + SUFFIX
  }

  /** `rsplit("/", 1)[-1]`. */
  function AfterLastSlash(s: string): string {
    if '/' !in s then s else AfterLastSlash(s[1..])
  }

  function RemoveSuffix(s: string, suffix: string): string {
    if |suffix| <= |s| && s[|s| - |suffix|..] == suffix then s[..|s| - |suffix|] else s
  }

  /** How the merge finds the request id in an object key. */
  function IdOfKey(key: string): string { RemoveSuffix(AfterLastSlash(key), SUFFIX) }

  // ---------- printing and reading keys ----------

  lemma TwoInjective(m: nat, n: nat)
    requires m < 100 && n < 100 && Two(m) == Two(n)
    ensures m == n
  {
  }

  lemma FolderParts(d: Date)
    ensures Folder(d)[0..2] == Two(d.year / 100) && Folder(d)[2..4] == Two(d.year % 100)
    ensures Folder(d)[5..7] == Two(d.month) && Folder(d)[8..10] == Two(d.day)
  {
  }

  /** A day and an id are both legible from the key, whatever the id contains. */
  lemma KeyInjective(d: Date, i: string, e: Date, j: string)
    ensures KeyFor(d, i) == KeyFor(e, j) <==> d == e && i == j
  {
    if KeyFor(d, i) == KeyFor(e, j) {
      var k, l := KeyFor(d, i), KeyFor(e, j);
      assert k[4..15] == Folder(d) && l[4..15] == Folder(e);
      assert k[15..|k| - 8] == i && l[15..|l| - 8] == j;
      FolderParts(d);
      FolderParts(e);
      TwoInjective(d.year / 100, e.year / 100);
      TwoInjective(d.year % 100, e.year % 100);
      TwoInjective(d.month, e.month);
      TwoInjective(d.day, e.day);
    }
  }

  function Value(digits: string): int {
    if digits == [] then 0 else 10 * Value(digits[..|digits| - 1]) + (digits[|digits| - 1] as int - '0' as int)
  }

  /** The text is the number in decimal digits. */
  predicate Reads(digits: string, n: nat) { (forall c :: c in digits ==> '0' <= c <= '9') && Value(digits) == n }

  lemma TwoReads(n: nat)
    requires n < 100
    ensures Reads(Two(n), n)
  {
    var t := Two(n);
    forall i | 0 <= i < 10 ensures DIGITS[i] as int - '0' as int == i && '0' <= DIGITS[i] <= '9' {}
    assert t[..1][..0] == [] && Value(t[..1]) == n / 10;
  }

  lemma FourReads(n: nat)
    requires n < 10000
    ensures Reads(Two(n / 100) + Two(n % 100), n)
  {
    var a, b := Two(n / 100), Two(n % 100);
    var t := a + b;
    TwoReads(n / 100);
    TwoReads(n % 100);
    assert t[..3] == a + b[..1] && t[..3][..2] == a && b[..1][..0] == [];
    assert Value(b) == 10 * Value(b[..1]) + (b[1] as int - '0' as int);
    assert Value(t) == 10 * Value(t[..3]) + (b[1] as int - '0' as int);
    assert Value(t[..3]) == 10 * Value(a) + (b[0] as int - '0' as int);
    assert Value(b[..1]) == b[0] as int - '0' as int;
  }

  /** `raw/YYYY/MM/DD/<id>.json.gz`, read from the left. */
  lemma KeyLayout(d: Date, id: string)
    ensures var k := KeyFor(d, id);
      && |k| == |id| + 23 && k[..4] == "raw/" && k[8] == k[11] == k[14] == '/' && k[15..] == id + ".json.gz"
      && Reads(k[4..8], d.year) && Reads(k[9..11], d.month) && Reads(k[12..14], d.day)
  {
    var k := KeyFor(d, id);
    FolderParts(d);
    FourReads(d.year);
    TwoReads(d.month);
    TwoReads(d.day);
    assert k[4..15] == Folder(d);
    assert k[4..8] == Folder(d)[0..4] == Two(d.year / 100) + Two(d.year % 100);
    assert k[9..11] == Folder(d)[5..7] && k[12..14] == Folder(d)[8..10];
  }

  lemma {:induction false} AfterSlash(p: string, s: string)
    requires p != [] && p[|p| - 1] == '/'
    ensures AfterLastSlash(p + s) == AfterLastSlash(s)
    decreases |p|
  {
    assert '/' in p + s by { assert (p + s)[|p| - 1] == '/'; }
    assert (p + s)[1..] == p[1..] + s;
    if |p| == 1 {
      assert p[1..] + s == s;
    } else {
      AfterSlash(p[1..], s);
    }
  }

  lemma {:induction false} SuffixStays(id: string)
    ensures AfterLastSlash(id + SUFFIX) == AfterLastSlash(id) + SUFFIX
  {
    var s := id + SUFFIX;
    assert '/' !in SUFFIX;
    if '/' in id {
      assert s[1..] == id[1..] + SUFFIX;
      assert '/' in s by { var k :| 0 <= k < |id| && id[k] == '/'; assert s[k] == '/'; }
      SuffixStays(id[1..]);
    }
  }

  /** What the merge takes for the id is the last segment of the id. */
  lemma IdOfKeyIsSegment(d: Date, id: string)
    ensures IdOfKey(KeyFor(d, id)) == AfterLastSlash(id)
  {
    var p := "raw/" + Folder(d);
    assert p[|p| - 1] == '/';
    assert KeyFor(d, id) == p + (id + SUFFIX);
    AfterSlash(p, id + SUFFIX);
    SuffixStays(id);
    var tail := AfterLastSlash(id);
    assert (tail + SUFFIX)[|tail|..] == SUFFIX && (tail + SUFFIX)[..|tail|] == tail;
  }

  /** The last segment: what follows the last slash, or everything. */
  lemma {:induction false} SegmentMeaning(s: string) returns (p: string)
    ensures s == p + AfterLastSlash(s) && '/' !in AfterLastSlash(s) && (p == [] || p[|p| - 1] == '/')
  {
    p := [];
    if '/' in s {
      p := SegmentMeaning(s[1..]);
      assert p == [] ==> s[0] == '/';
      p := [s[0]] + p;
    }
  }

  lemma SegmentIsClean(s: string)
    ensures '/' !in AfterLastSlash(s)
  {
    var _ := SegmentMeaning(s);
  }

  /** Reading the id back from a key works exactly for ids without a slash. */
  lemma IdRecoveredIff(d: Date, id: string)
    ensures IdOfKey(KeyFor(d, id)) == id <==> '/' !in id
  {
    IdOfKeyIsSegment(d, id);
    SegmentIsClean(id);
  }

  /**
   * The merge puts the payload back under the key it read exactly when the day has not changed and the id
   * has no slash; otherwise the update lands on another object.
   */
  lemma MergeReturnsToItsKeyIff(written: Date, today: Date, id: string)
    ensures KeyFor(today, IdOfKey(KeyFor(written, id))) == KeyFor(written, id) <==> today == written && '/' !in id
  {
    KeyInjective(today, IdOfKey(KeyFor(written, id)), written, id);
    IdRecoveredIff(written, id);
  }

  // ---------- the archive ----------

  datatype Payload = Payload(
    request: Json, primaryModel: string, candidateModel: string,
    primaryResponse: Option<Json>, candidateResponse: Option<Json>, writtenAt: int)

  type Archive = map<string, Payload>

  /** `FilesystemRawStore` and `SpacesRawStore`; `up` says whether the backend answers this call. */
  class ObjectStore {
    var objects: Archive

    constructor ()
      ensures objects == map[]
    {
      objects := map[];
    }

    method Put(id: string, p: Payload, today: Date, up: bool) returns (key: Option<string>)
      modifies this
      ensures key == if up then Some(KeyFor(today, id)) else None
      ensures objects == if up then old(objects)[KeyFor(today, id) := p] else old(objects)
    {
      if !up { return None; }
      objects := objects[KeyFor(today, id) := p];
      return Some(KeyFor(today, id));
    }

    method Get(key: string, up: bool) returns (p: Option<Payload>)
      ensures p == if up && key in objects then Some(objects[key]) else None
    {
      if up && key in objects { return Some(objects[key]); }
      return None;
    }
  }
}
