/** `util/hashing.py`: the canonical request form and the hash over it. */
module Canonical {
  import opened Json
  import opened Encoding

  // ---------- key order ----------

  /** Code point order on strings, as `sorted` uses it. */
  predicate Less(a: string, b: string) {
    b != [] && (a == [] || a[0] < b[0] || (a[0] == b[0] && Less(a[1..], b[1..])))
  }

  lemma {:induction false} LessTotal(a: string, b: string)
    ensures Less(a, b) || a == b || Less(b, a)
    ensures Less(a, b) ==> !Less(b, a) && a != b
  {
    if a != [] && b != [] && a[0] == b[0] {
      LessTotal(a[1..], b[1..]);
      assert a == [a[0]] + a[1..] && b == [b[0]] + b[1..];
    }
  }

  lemma {:induction false} LessTransitive(a: string, b: string, c: string)
    requires Less(a, b) && Less(b, c)
    ensures Less(a, c)
  {
    if a != [] && a[0] == b[0] && b[0] == c[0] {
      LessTransitive(a[1..], b[1..], c[1..]);
    }
  }

  /** A proper prefix, or smaller at the first difference. */
  lemma {:induction false} LessMeaning(a: string, b: string)
    ensures Less(a, b) <==>
      exists k :: 0 <= k <= |a| && k < |b| && a[..k] == b[..k] && (k == |a| || a[k] < b[k])
  {
    forall k | 0 < k <= |a| && k <= |b| && a[..k] == b[..k] ensures a[0] == b[0] { assert a[..k][0] == b[..k][0]; }
    if a != [] && b != [] && a[0] == b[0] {
      LessMeaning(a[1..], b[1..]);
      if Less(a[1..], b[1..]) {
        var k :| 0 <= k <= |a[1..]| && k < |b[1..]| && a[1..][..k] == b[1..][..k]
                 && (k == |a[1..]| || a[1..][k] < b[1..][k]);
        assert a[..k + 1] == [a[0]] + a[1..][..k] && b[..k + 1] == [b[0]] + b[1..][..k];
        assert k + 1 <= |a|;
      }
      if k :| 0 <= k <= |a| && k < |b| && a[..k] == b[..k] && (k == |a| || a[k] < b[k]) {
        assert k > 0;
        assert a[1..][..k - 1] == a[..k][1..] && b[1..][..k - 1] == b[..k][1..];
        assert k - 1 <= |a[1..]|;
      }
    } else {
      assert a[..0] == b[..0];
    }
  }

  // ---------- canonical form ----------

  ghost predicate DistinctKeys(fs: seq<Field>) {
    forall i, j :: 0 <= i < j < |fs| ==> fs[i].key != fs[j].key
  }

  ghost predicate Sorted(fs: seq<Field>) {
    forall i, j :: 0 <= i < j < |fs| ==> Less(fs[i].key, fs[j].key)
  }

  /** A Python dict never holds a key twice. */
  ghost predicate WellFormed(j: Json) {
    match j
    case Arr(xs) => forall x | x in xs :: WellFormed(x)
    case Obj(fs) => DistinctKeys(fs) && forall f | f in fs :: WellFormed(f.value)
    case _ => true
  }

  function Insert(f: Field, fs: seq<Field>): seq<Field> {
    if fs == [] || Less(f.key, fs[0].key) then [f] + fs
    else [fs[0]] + Insert(f, fs[1..])
  }

  function Sort(fs: seq<Field>): seq<Field> {
    if fs == [] then [] else Insert(fs[0], Sort(fs[1..]))
  }

  /** `_canonicalize`. */
  function Canonicalize(j: Json): Json {
    match j
    case Arr(xs) => Arr(CanonicalItems(xs))
    case Obj(fs) => Obj(Sort(CanonicalFields(fs)))
    case _ => j
  }

  function CanonicalItems(xs: seq<Json>): (r: seq<Json>)
    ensures |r| == |xs| && forall i :: 0 <= i < |xs| ==> r[i] == Canonicalize(xs[i])
  {
    if xs == [] then [] else [Canonicalize(xs[0])] + CanonicalItems(xs[1..])
  }

  function CanonicalFields(fs: seq<Field>): (r: seq<Field>)
    ensures |r| == |fs|
    ensures forall i :: 0 <= i < |fs| ==> r[i] == Field(fs[i].key, Canonicalize(fs[i].value))
  {
    if fs == [] then [] else [Field(fs[0].key, Canonicalize(fs[0].value))] + CanonicalFields(fs[1..])
  }

  lemma {:induction false} InsertSorts(f: Field, fs: seq<Field>)
    requires Sorted(fs) && forall g | g in fs :: g.key != f.key
    ensures Sorted(Insert(f, fs))
    ensures forall g :: g in Insert(f, fs) <==> g == f || g in fs
  {
    if fs == [] {
    } else if Less(f.key, fs[0].key) {
      forall i | 0 < i < |fs| ensures Less(f.key, fs[i].key) { LessTransitive(f.key, fs[0].key, fs[i].key); }
    } else {
      LessTotal(f.key, fs[0].key);
      InsertSorts(f, fs[1..]);
      var r := Insert(f, fs[1..]);
      assert fs == [fs[0]] + fs[1..];
      forall g | g in r ensures Less(fs[0].key, g.key) {
        if g in fs[1..] { var i :| 0 < i < |fs| && fs[i] == g; }
      }
    }
  }

  /** `sorted(obj)` on distinct keys: sorted, and the same members. */
  lemma {:induction false} SortCorrect(fs: seq<Field>)
    requires DistinctKeys(fs)
    ensures Sorted(Sort(fs))
    ensures forall g :: g in Sort(fs) <==> g in fs
  {
    if fs != [] {
      SortCorrect(fs[1..]);
      assert forall g | g in Sort(fs[1..]) :: g.key != fs[0].key by {
        forall g | g in Sort(fs[1..]) ensures g.key != fs[0].key {
          assert g in fs[1..];
          var i :| 0 < i < |fs| && fs[i] == g;
        }
      }
      InsertSorts(fs[0], Sort(fs[1..]));
      assert fs == [fs[0]] + fs[1..];
    }
  }

  /** Sorted field lists with the same members are the same list. */
  lemma {:induction false} SortedUnique(a: seq<Field>, b: seq<Field>)
    requires Sorted(a) && Sorted(b)
    requires forall g :: g in a <==> g in b
    ensures a == b
  {
    if b != [] { assert b[0] in a; }
    if a != [] {
      assert a[0] in b;
      LessTotal(a[0].key, b[0].key);
      assert a[0] == b[0];
      forall g ensures g in a[1..] <==> g in b[1..] {
        if g in a[1..] {
          var i :| 0 < i < |a| && a[i] == g;
          LessTotal(a[0].key, a[i].key);
          assert g in b && g != b[0];
        }
        if g in b[1..] {
          var i :| 0 < i < |b| && b[i] == g;
          LessTotal(b[0].key, b[i].key);
          assert g in a && g != a[0];
        }
      }
      SortedUnique(a[1..], b[1..]);
      assert a == [a[0]] + a[1..] && b == [b[0]] + b[1..];
    }
  }

  // ---------- equality up to key order ----------

  /** Equal except for the order of keys, at every depth. */
  ghost predicate SameUpToKeyOrder(a: Json, b: Json)
    decreases a
  {
    match a
    case Arr(xs) =>
      b.Arr? && |b.items| == |xs| && forall i | 0 <= i < |xs| :: SameUpToKeyOrder(xs[i], b.items[i])
    case Obj(fs) =>
      && b.Obj?
      && (forall f | f in fs :: exists g :: g in b.fields && Pairs(f, g))
      && (forall g | g in b.fields :: exists f :: f in fs && Pairs(f, g))
    case _ => a == b
  }

  ghost predicate Pairs(f: Field, g: Field)
    decreases f
  {
    f.key == g.key && SameUpToKeyOrder(f.value, g.value)
  }

  /** The canonical forms agree exactly on trees that differ only in key order. */
  lemma {:induction false} CanonicalIffSame(a: Json, b: Json)
    requires WellFormed(a) && WellFormed(b)
    ensures Canonicalize(a) == Canonicalize(b) <==> SameUpToKeyOrder(a, b)
    decreases a
  {
    match a
    case Arr(xs) =>
      if b.Arr? && |b.items| == |xs| {
        forall i | 0 <= i < |xs|
          ensures Canonicalize(xs[i]) == Canonicalize(b.items[i]) <==> SameUpToKeyOrder(xs[i], b.items[i])
        {
          assert xs[i] in xs && b.items[i] in b.items;
          CanonicalIffSame(xs[i], b.items[i]);
        }
      } else if b.Arr? {
        assert |CanonicalItems(xs)| != |CanonicalItems(b.items)|;
      }
    case Obj(fs) =>
      if b.Obj? { CanonicalObjects(a, b); }
    case _ =>
  }

  lemma {:induction false} CanonicalObjects(a: Json, b: Json)
    requires a.Obj? && b.Obj? && WellFormed(a) && WellFormed(b)
    ensures Canonicalize(a) == Canonicalize(b) <==> SameUpToKeyOrder(a, b)
    decreases a, 0
  {
    var fs, gs := a.fields, b.fields;
    var cf, cg := CanonicalFields(fs), CanonicalFields(gs);
    forall f, g | f in fs && g in gs
      ensures Image(f) == Image(g) <==> Pairs(f, g)
    {
      CanonicalIffSame(f.value, g.value);
    }
    SameMembers(fs, gs, cf, cg, Pairs);
    SortCorrect(cf);
    SortCorrect(cg);
    if forall g :: g in cf <==> g in cg {
      SortedUnique(Sort(cf), Sort(cg));
    }
  }

  function Image(f: Field): Field { Field(f.key, Canonicalize(f.value)) }

  /** When `r` holds exactly where two images agree, matching members is having the same images. */
  lemma SameMembers(fs: seq<Field>, gs: seq<Field>, cf: seq<Field>, cg: seq<Field>, r: (Field, Field) -> bool)
    requires cf == CanonicalFields(fs) && cg == CanonicalFields(gs)
    requires forall f, g :: f in fs && g in gs ==> (Image(f) == Image(g) <==> r(f, g))
    ensures (forall f | f in fs :: exists g :: g in gs && r(f, g))
      && (forall g | g in gs :: exists f :: f in fs && r(f, g))
      <==> (forall c :: c in cf <==> c in cg)
  {
    forall c ensures c in cf <==> exists f :: f in fs && Image(f) == c { Images(fs, c); }
    forall c ensures c in cg <==> exists g :: g in gs && Image(g) == c { Images(gs, c); }
    if forall c :: c in cf <==> c in cg {
      forall f | f in fs ensures exists g :: g in gs && r(f, g) {
        assert Image(f) in cf;
      }
      forall g | g in gs ensures exists f :: f in fs && r(f, g) {
        assert Image(g) in cg;
      }
    }
  }

  lemma Images(fs: seq<Field>, c: Field)
    ensures c in CanonicalFields(fs) <==> exists f :: f in fs && Image(f) == c
  {
    var cf := CanonicalFields(fs);
    assert forall i :: 0 <= i < |fs| ==> cf[i] == Image(fs[i]);
    if f :| f in fs && Image(f) == c {
      var i :| 0 <= i < |fs| && fs[i] == f;
      assert cf[i] == c;
    }
  }

  /** A canonical form is well formed and sorted at every depth. */
  ghost predicate SortedTree(j: Json) {
    match j
    case Arr(xs) => forall x | x in xs :: SortedTree(x)
    case Obj(fs) => Sorted(fs) && forall f | f in fs :: SortedTree(f.value)
    case _ => true
  }

  lemma {:induction false} CanonicalIsSorted(j: Json)
    requires WellFormed(j)
    ensures WellFormed(Canonicalize(j)) && SortedTree(Canonicalize(j))
  {
    match j
    case Arr(xs) =>
      forall x | x in CanonicalItems(xs) ensures WellFormed(x) && SortedTree(x) {
        var i :| 0 <= i < |xs| && CanonicalItems(xs)[i] == x;
        assert xs[i] in xs;
        CanonicalIsSorted(xs[i]);
      }
    case Obj(fs) =>
      var cf := CanonicalFields(fs);
      SortCorrect(cf);
      forall f | f in Sort(cf) ensures WellFormed(f.value) && SortedTree(f.value) {
        var i :| 0 <= i < |cf| && cf[i] == f;
        assert fs[i] in fs;
        CanonicalIsSorted(fs[i].value);
      }
      forall i, k | 0 <= i < k < |Sort(cf)| ensures Sort(cf)[i].key != Sort(cf)[k].key {
        LessTotal(Sort(cf)[i].key, Sort(cf)[k].key);
      }
    case _ =>
  }

  lemma {:induction false} SortedIsFixed(j: Json)
    requires SortedTree(j)
    ensures Canonicalize(j) == j
  {
    match j
    case Arr(xs) =>
      forall i | 0 <= i < |xs| ensures CanonicalItems(xs)[i] == xs[i] {
        assert xs[i] in xs;
        SortedIsFixed(xs[i]);
      }
    case Obj(fs) =>
      forall i | 0 <= i < |fs| ensures CanonicalFields(fs)[i] == fs[i] {
        assert fs[i] in fs;
        SortedIsFixed(fs[i].value);
      }
      assert CanonicalFields(fs) == fs;
      forall i, k | 0 <= i < k < |fs| ensures fs[i].key != fs[k].key { LessTotal(fs[i].key, fs[k].key); }
      SortCorrect(fs);
      SortedUnique(Sort(fs), fs);
    case _ =>
  }

  /** `_canonicalize` is idempotent. */
  lemma CanonicalIdempotent(j: Json)
    requires WellFormed(j)
    ensures Canonicalize(Canonicalize(j)) == Canonicalize(j)
  {
    CanonicalIsSorted(j);
    SortedIsFixed(Canonicalize(j));
  }

  // ---------- request_hash ----------

  /** The text under the hash: `json.dumps(_canonicalize(body), sort_keys=True, ...)`. */
  function HashedText(body: Json): string { Encode(Canonicalize(Canonicalize(body))) }

  /** `request_hash`, for any digest. */
  function RequestHash(digest: string -> string, body: Json): string { digest(HashedText(body)) }

  lemma {:induction false} CanonicalIsPrintable(j: Json)
    requires WellFormed(j) && Printable(j)
    ensures Printable(Canonicalize(j))
  {
    match j
    case Arr(xs) =>
      forall x | x in CanonicalItems(xs) ensures Printable(x) {
        var i :| 0 <= i < |xs| && CanonicalItems(xs)[i] == x;
        assert xs[i] in xs;
        CanonicalIsPrintable(xs[i]);
      }
    case Obj(fs) =>
      var cf := CanonicalFields(fs);
      assert DistinctKeys(cf);
      SortCorrect(cf);
      forall f | f in Sort(cf) ensures Printable(f.value) {
        var i :| 0 <= i < |cf| && cf[i] == f;
        assert fs[i] in fs;
        CanonicalIsPrintable(fs[i].value);
      }
    case _ =>
  }

  /** From the hashed text the canonical form of the body is read back, to the last character. */
  lemma HashedTextIsRead(body: Json)
    requires WellFormed(body) && Printable(body)
    ensures ReadValue(HashedText(body)) == Got(Canonicalize(body), "")
  {
    CanonicalIdempotent(body);
    CanonicalIsPrintable(body);
    ReadEncode(Canonicalize(body), "");
    assert HashedText(body) + "" == HashedText(body);
  }

  /** The hashed texts agree exactly on bodies that differ only in key order. */
  lemma HashedTextIffSame(a: Json, b: Json)
    requires WellFormed(a) && WellFormed(b) && Printable(a) && Printable(b)
    ensures HashedText(a) == HashedText(b) <==> SameUpToKeyOrder(a, b)
  {
    HashedTextIsRead(a);
    HashedTextIsRead(b);
    CanonicalIffSame(a, b);
  }

  /** Two bodies share a hash exactly if they differ in key order at most, or the digest collides on their texts. */
  lemma RequestHashIdentifies(digest: string -> string, a: Json, b: Json)
    requires WellFormed(a) && WellFormed(b) && Printable(a) && Printable(b)
    ensures RequestHash(digest, a) == RequestHash(digest, b)
      <==> SameUpToKeyOrder(a, b) || (HashedText(a) != HashedText(b) && digest(HashedText(a)) == digest(HashedText(b)))
  {
    HashedTextIffSame(a, b);
  }
}
