/**
 * The compact text that `json.dumps` writes with these separators and without ASCII escapes, and a reader that gets
 * the value back from it.
 */
module Encoding {
  import opened Prelude
  import opened Json

  // ---------- the compact encoder (sections 4, 5 and 7 of RFC 8259) ----------

  predicate NumberChar(c: char) { c in "0123456789+-.eE" }

  predicate NumberToken(t: string) {
    NotFinite(t) || (t != [] && (t[0] in "0123456789-") && forall c | c in t :: NumberChar(c))
  }

  /** Every number is a token that `json.dumps` prints. */
  ghost predicate Printable(j: Json) {
    match j
    case Num(t) => NumberToken(t)
    case Arr(xs) => forall x | x in xs :: Printable(x)
    case Obj(fs) => forall f | f in fs :: Printable(f.value)
    case _ => true
  }

  const HEX: string := "0123456789abcdef"

  /** One character of a JSON string, escaped as `json.dumps(..., ensure_ascii=False)` does. */
  function Escape(c: char): string {
    if c == '\"' then "\\\""
    else if c == '\\' then "\\\\"
    else if c == '\n' then "\\n"
    else if c == '\r' then "\\r"
    else if c == '\t' then "\\t"
    else if c == 8 as char then "\\b"
    else if c == 12 as char then "\\f"
    else if c < ' ' then "\\u00" + [HEX[(c as int) / 16], HEX[(c as int) % 16]]
    else [c]
  }

  function StringTail(s: string): string {
    if s == [] then "\"" else Escape(s[0]) + StringTail(s[1..])
  }

  function Encode(j: Json): string
    decreases j, 0
  {
    match j
    case Null => "null"
    case Bool(b) => if b then "true" else "false"
    case Num(t) => t
    case Str(s) => "\"" + StringTail(s)
    case Arr(xs) => if xs == [] then "[]" else "[" + Encode(xs[0]) + ItemsTail(xs[1..])
    case Obj(fs) => if fs == [] then "{}" else "{" + EncodeField(fs[0]) + FieldsTail(fs[1..])
  }

  function EncodeField(f: Field): string
    decreases f, 1
  {
    "\"" + StringTail(f.key) + ":" + Encode(f.value)
  }

  function ItemsTail(xs: seq<Json>): string
    decreases xs, 0
  {
    if xs == [] then "]" else "," + Encode(xs[0]) + ItemsTail(xs[1..])
  }

  function FieldsTail(fs: seq<Field>): string
    decreases fs, 0
  {
    if fs == [] then "}" else "," + EncodeField(fs[0]) + FieldsTail(fs[1..])
  }

  predicate Delimited(rest: string) { rest == [] || rest[0] in ",]}" }

  // ---------- splitting concatenations ----------

  lemma Regroup(p: string, x: string, y: string)
    ensures (p + x) + y == p + (x + y)
  {
  }

  // ---------- a reader of JSON texts (sections 3 to 7 of RFC 8259), which skips no white space ----------

  /** A value at the front of a text, and what follows it. */
  datatype Got<T> = Got(value: T, rest: string) | Bad

  predicate Front(p: string, t: string) { |p| <= |t| && t[..|p|] == p }

  function HexValue(c: char): Option<int> {
    if '0' <= c <= '9' then Some(c as int - '0' as int)
    else if 'a' <= c <= 'f' then Some(c as int - 'a' as int + 10)
    else if 'A' <= c <= 'F' then Some(c as int - 'A' as int + 10)
    else None
  }

  /** The character behind four hexadecimal digits. Surrogate pairs are not read. */
  function ReadHex(t: string): Option<char>
    requires |t| == 4
  {
    var a, b, c, d := HexValue(t[0]), HexValue(t[1]), HexValue(t[2]), HexValue(t[3]);
    if a.None? || b.None? || c.None? || d.None? then None
    else
      var n := 4096 * a.value + 256 * b.value + 16 * c.value + d.value;
      if 0 <= n < 0xd800 || 0xe000 <= n < 0x10000 then Some(n as char) else None
  }

  /** The character behind a backslash, by its letter. */
  function ShortEscape(c: char): Option<char> {
    match c
    case '\"' => Some('\"')
    case '\\' => Some('\\')
    case '/' => Some('/')
    case 'b' => Some(8 as char)
    case 'f' => Some(12 as char)
    case 'n' => Some('\n')
    case 'r' => Some('\r')
    case 't' => Some('\t')
    case _ => None
  }

  /** One character of a string, possibly escaped. */
  function ReadChar(t: string): (r: Got<char>)
    ensures r.Got? ==> |r.rest| < |t|
  {
    if t == [] || t[0] < ' ' || t[0] == '\"' then Bad
    else if t[0] != '\\' then Got(t[0], t[1..])
    else if |t| < 2 then Bad
    else if t[1] == 'u' then
      if |t| < 6 then Bad
      else match ReadHex(t[2..6]) case Some(c) => Got(c, t[6..]) case None => Bad
    else match ShortEscape(t[1]) case Some(c) => Got(c, t[2..]) case None => Bad
  }

  /** A string, from behind its opening quotation mark. */
  function ReadString(t: string): (r: Got<string>)
    ensures r.Got? ==> |r.rest| < |t|
    decreases |t|
  {
    if t != [] && t[0] == '\"' then Got("", t[1..])
    else match ReadChar(t)
      case Bad => Bad
      case Got(c, u) => match ReadString(u) case Bad => Bad case Got(s, v) => Got([c] + s, v)
  }

  /** How many characters of a number stand at the front. */
  function NumberLength(t: string): (n: nat)
    ensures n <= |t|
  {
    if t != [] && NumberChar(t[0]) then 1 + NumberLength(t[1..]) else 0
  }

  function ReadWord(word: string, value: Json, t: string): (r: Got<Json>)
    requires word != []
    ensures r.Got? ==> |r.rest| < |t|
  {
    if Front(word, t) then Got(value, t[|word|..]) else Bad
  }

  function ReadNumber(t: string): (r: Got<Json>)
    ensures r.Got? ==> |r.rest| < |t|
  {
    if Front("-I", t) then ReadWord("-Infinity", Num("-Infinity"), t) else
    var n := NumberLength(t);
    if n > 0 && NumberToken(t[..n]) then Got(Num(t[..n]), t[n..]) else Bad
  }

  function ReadValue(t: string): (r: Got<Json>)
    ensures r.Got? ==> |r.rest| < |t|
    decreases |t|, 2
  {
    if t == [] then Bad else ReadAt(t[0], t)
  }

  /** A value, by its first character. */
  function ReadAt(c: char, t: string): (r: Got<Json>)
    requires t != [] && c == t[0]
    ensures r.Got? ==> |r.rest| < |t|
    decreases |t|, 1
  {
    if c == '-' || '0' <= c <= '9' then ReadNumber(t) else
    match c
    case 'n' => ReadWord("null", Null, t)
    case 't' => ReadWord("true", Bool(true), t)
    case 'f' => ReadWord("false", Bool(false), t)
    case 'N' => ReadWord("NaN", Num("NaN"), t)
    case 'I' => ReadWord("Infinity", Num("Infinity"), t)
    case '\"' => (match ReadString(t[1..]) case Bad => Bad case Got(s, u) => Got(Str(s), u))
    case '[' => ReadArray(t[1..])
    case '{' => ReadObject(t[1..])
    case _ => Bad
  }

  predicate Starts(c: char, t: string) { t != [] && t[0] == c }

  /** An array, from behind its bracket. */
  function ReadArray(t: string): (r: Got<Json>)
    ensures r.Got? ==> |r.rest| < |t|
    decreases |t|, 4
  {
    if Starts(']', t) then Got(Arr([]), t[1..])
    else match ReadItems(t) case Bad => Bad case Got(xs, u) => Got(Arr(xs), u)
  }

  /** One item or more, up to the closing bracket. */
  function ReadItems(t: string): (r: Got<seq<Json>>)
    ensures r.Got? ==> |r.rest| < |t|
    decreases |t|, 3
  {
    match ReadValue(t)
    case Bad => Bad
    case Got(x, u) =>
      if Starts(']', u) then Got([x], u[1..])
      else if Starts(',', u) then match ReadItems(u[1..]) case Bad => Bad case Got(xs, w) => Got([x] + xs, w)
      else Bad
  }

  /** An object, from behind its brace. */
  function ReadObject(t: string): (r: Got<Json>)
    ensures r.Got? ==> |r.rest| < |t|
    decreases |t|, 5
  {
    if Starts('}', t) then Got(Obj([]), t[1..])
    else match ReadFields(t) case Bad => Bad case Got(fs, u) => Got(Obj(fs), u)
  }

  /** One member or more, up to the closing brace. */
  function ReadFields(t: string): (r: Got<seq<Field>>)
    ensures r.Got? ==> |r.rest| < |t|
    decreases |t|, 4
  {
    match ReadField(t)
    case Bad => Bad
    case Got(f, u) =>
      if Starts('}', u) then Got([f], u[1..])
      else if Starts(',', u) then match ReadFields(u[1..]) case Bad => Bad case Got(fs, w) => Got([f] + fs, w)
      else Bad
  }

  function ReadField(t: string): (r: Got<Field>)
    ensures r.Got? ==> |r.rest| < |t|
    decreases |t|, 3
  {
    if !Starts('\"', t) then Bad
    else match ReadString(t[1..])
      case Bad => Bad
      case Got(key, u) =>
        if !Starts(':', u) then Bad
        else match ReadValue(u[1..]) case Bad => Bad case Got(x, w) => Got(Field(key, x), w)
  }

  // ---------- what is encoded is read back ----------

  /** Nothing is escaped that need not be; the short forms are used where there are any, and else lower case digits. */
  lemma EscapeMeaning(c: char)
    ensures c != '\"' && c != '\\' && c >= ' ' ==> Escape(c) == [c]
    ensures c == '\"' || c == '\\' || c < ' ' ==>
      && |Escape(c)| == (if c as int in {8, 9, 10, 12, 13, 34, 92} then 2 else 6)
      && forall k :: 2 <= k < |Escape(c)| ==> Escape(c)[k] in HEX
  {
  }

  /** An escaped character is read back. */
  lemma ReadEscape(c: char, r: string)
    ensures ReadChar(Escape(c) + r) == Got(c, r)
  {
    var e := Escape(c);
    assert (e + r)[|e|..] == r && (e + r)[0] == e[0];
    if |e| >= 2 { assert (e + r)[1] == e[1]; }
    if |e| == 6 {
      var h := (e + r)[2..6];
      assert h == [e[2], e[3], e[4], e[5]];
      assert HexValue(HEX[(c as int) / 16]) == Some((c as int) / 16);
      HexReads((c as int) / 16);
      HexReads((c as int) % 16);
      assert ReadHex(h) == Some(c);
    }
  }

  lemma HexReads(n: int)
    requires 0 <= n < 16
    ensures HexValue(HEX[n]) == Some(n)
  {
  }

  /** So is a string. */
  lemma {:induction false} ReadStringTail(s: string, r: string)
    ensures ReadString(StringTail(s) + r) == Got(s, r)
  {
    if s == [] {
      assert ("\"" + r)[1..] == r;
    } else {
      var e := Escape(s[0]);
      Regroup(e, StringTail(s[1..]), r);
      ReadEscape(s[0], StringTail(s[1..]) + r);
      ReadStringTail(s[1..], r);
      assert e[0] != '\"' && (e + (StringTail(s[1..]) + r))[0] == e[0];
      assert s == [s[0]] + s[1..];
    }
  }

  lemma FrontIs(p: string, r: string)
    ensures Front(p, p + r) && (p + r)[|p|..] == r
    ensures p != [] ==> p + r != [] && (p + r)[0] == p[0]
  {
  }

  /** A number token is read up to where it ends. */
  lemma {:induction false} NumberEnds(t: string, r: string)
    requires (forall c | c in t :: NumberChar(c)) && Delimited(r)
    ensures NumberLength(t + r) == |t|
  {
    if t == [] {
      assert t + r == r;
    } else {
      assert (t + r)[0] == t[0] && (t + r)[1..] == t[1..] + r;
      NumberEnds(t[1..], r);
    }
  }

  lemma ReadDigits(t: string, r: string)
    requires NumberToken(t) && !NotFinite(t) && Delimited(r)
    ensures ReadNumber(t + r) == Got(Num(t), r)
  {
    var u := t + r;
    NumberEnds(t, r);
    assert u[..|t|] == t && u[|t|..] == r;
    if |u| > 1 {
      assert u[1] == if |t| > 1 then t[1] else r[0];
      assert |t| > 1 ==> t[1] in t;
      assert u[1] == u[..2][1] != "-I"[1];
    }
  }

  lemma ReadToken(t: string, r: string)
    requires NumberToken(t) && Delimited(r)
    ensures t + r != [] && ReadAt((t + r)[0], t + r) == Got(Num(t), r)
  {
    var u := t + r;
    FrontIs(t, r);
    if !NotFinite(t) {
      ReadDigits(t, r);
    } else if t == "-Infinity" {
      assert u[..2] == "-I" && Front("-I", u);
    } else if t == "NaN" {
      assert ReadAt('N', u) == ReadWord("NaN", Num("NaN"), u);
    } else {
      assert ReadAt('I', u) == ReadWord("Infinity", Num("Infinity"), u);
    }
  }

  function Start(j: Json): char
    requires Printable(j)
  {
    match j
    case Null => 'n'
    case Bool(b) => if b then 't' else 'f'
    case Num(t) => t[0]
    case Str(_) => '\"'
    case Arr(_) => '['
    case Obj(_) => '{'
  }

  /** The first character tells which kind of value follows. */
  lemma EncodeStart(j: Json, rest: string)
    requires Printable(j)
    ensures |Encode(j)| > 0 && |Encode(j) + rest| > 0 && (Encode(j) + rest)[0] == Start(j)
  {
  }

  lemma ItemsRest(xs: seq<Json>, r: string)
    ensures Delimited(ItemsTail(xs) + r)
    ensures xs != [] ==> ItemsTail(xs) + r == "," + AfterBracket(xs, r)
    ensures xs == [] ==> ItemsTail(xs) + r == "]" + r
  {
    if xs != [] {
      Regroup(Encode(xs[0]), ItemsTail(xs[1..]), r);
      Regroup("," + Encode(xs[0]), ItemsTail(xs[1..]), r);
    }
  }

  lemma FieldsRest(fs: seq<Field>, r: string)
    ensures Delimited(FieldsTail(fs) + r)
    ensures fs != [] ==> FieldsTail(fs) + r == "," + AfterBrace(fs, r)
    ensures fs == [] ==> FieldsTail(fs) + r == "}" + r
  {
    if fs != [] {
      Regroup(EncodeField(fs[0]), FieldsTail(fs[1..]), r);
      Regroup("," + EncodeField(fs[0]), FieldsTail(fs[1..]), r);
    }
  }

  lemma ArrayRest(xs: seq<Json>, r: string)
    ensures Encode(Arr(xs)) + r == "[" + AfterBracket(xs, r)
  {
    if xs != [] {
      Regroup(Encode(xs[0]), ItemsTail(xs[1..]), r);
      Regroup("[" + Encode(xs[0]), ItemsTail(xs[1..]), r);
    }
  }

  /** What follows the opening bracket of an array, down to the end of the text. */
  function AfterBracket(xs: seq<Json>, r: string): string {
    if xs == [] then "]" + r else Encode(xs[0]) + (ItemsTail(xs[1..]) + r)
  }

  lemma ObjectRest(fs: seq<Field>, r: string)
    ensures Encode(Obj(fs)) + r == "{" + AfterBrace(fs, r)
  {
    if fs != [] {
      Regroup(EncodeField(fs[0]), FieldsTail(fs[1..]), r);
      Regroup("{" + EncodeField(fs[0]), FieldsTail(fs[1..]), r);
    }
  }

  /** What follows the opening brace of an object, down to the end of the text. */
  function AfterBrace(fs: seq<Field>, r: string): string {
    if fs == [] then "}" + r else EncodeField(fs[0]) + (FieldsTail(fs[1..]) + r)
  }

  lemma FieldRest(f: Field, r: string)
    ensures EncodeField(f) + r == "\"" + (StringTail(f.key) + (":" + (Encode(f.value) + r)))
  {
    Regroup(":", Encode(f.value), r);
    Regroup(StringTail(f.key), ":" + Encode(f.value), r);
  }

  lemma ReadWords(j: Json, r: string)
    requires j.Null? || j.Bool?
    ensures ReadValue(Encode(j) + r) == Got(j, r)
  {
    FrontIs(Encode(j), r);
    var u := Encode(j) + r;
    match j
    case Null => assert ReadAt('n', u) == ReadWord("null", Null, u);
    case Bool(b) => assert ReadAt(u[0], u) == if b then ReadWord("true", j, u) else ReadWord("false", j, u);
  }

  lemma ReadText(s: string, r: string)
    ensures ReadValue(Encode(Str(s)) + r) == Got(Str(s), r)
  {
    Regroup("\"", StringTail(s), r);
    FrontIs("\"", StringTail(s) + r);
    ReadStringTail(s, r);
  }

  lemma ReadNumberText(t: string, r: string)
    requires NumberToken(t) && Delimited(r)
    ensures ReadValue(Encode(Num(t)) + r) == Got(Num(t), r)
  {
    ReadToken(t, r);
    assert (t + r)[0] == t[0];
  }

  lemma ArrayOpens(xs: seq<Json>, r: string)
    requires ReadArray(AfterBracket(xs, r)) == Got(Arr(xs), r)
    ensures ReadValue(Encode(Arr(xs)) + r) == Got(Arr(xs), r)
  {
    ArrayRest(xs, r);
    FrontIs("[", AfterBracket(xs, r));
  }

  lemma ObjectOpens(fs: seq<Field>, r: string)
    requires ReadObject(AfterBrace(fs, r)) == Got(Obj(fs), r)
    ensures ReadValue(Encode(Obj(fs)) + r) == Got(Obj(fs), r)
  {
    ObjectRest(fs, r);
    FrontIs("{", AfterBrace(fs, r));
  }

  /** What is encoded, and followed by a delimiter, is read back as it was. */
  lemma {:induction false} ReadEncode(j: Json, r: string)
    requires Printable(j) && Delimited(r)
    ensures ReadValue(Encode(j) + r) == Got(j, r)
    decreases j, 1
  {
    match j
    case Num(t) => ReadNumberText(t, r);
    case Str(s) => ReadText(s, r);
    case Arr(xs) =>
      ReadAfterBracket(xs, r);
      ArrayOpens(xs, r);
    case Obj(fs) =>
      ReadAfterBrace(fs, r);
      ObjectOpens(fs, r);
    case _ => ReadWords(j, r);
  }

  lemma ArrayOfItems(t: string, xs: seq<Json>, r: string)
    requires !Starts(']', t) && ReadItems(t) == Got(xs, r)
    ensures ReadArray(t) == Got(Arr(xs), r)
  {
  }

  lemma {:induction false} ReadAfterBracket(xs: seq<Json>, r: string)
    requires forall x | x in xs :: Printable(x)
    ensures ReadArray(AfterBracket(xs, r)) == Got(Arr(xs), r)
    decreases xs, 3
  {
    if xs == [] {
      FrontIs("]", r);
    } else {
      EncodeStart(xs[0], ItemsTail(xs[1..]) + r);
      ReadItemsTail(xs, r);
      ArrayOfItems(AfterBracket(xs, r), xs, r);
    }
  }

  lemma ItemsEnd(t: string, x: Json, r: string)
    requires ReadValue(t) == Got(x, "]" + r)
    ensures ReadItems(t) == Got([x], r)
  {
    FrontIs("]", r);
  }

  lemma ItemsGoOn(t: string, x: Json, u: string, xs: seq<Json>, r: string)
    requires ReadValue(t) == Got(x, "," + u) && ReadItems(u) == Got(xs, r)
    ensures ReadItems(t) == Got([x] + xs, r)
  {
    FrontIs(",", u);
  }

  lemma {:induction false} ReadItemsTail(xs: seq<Json>, r: string)
    requires xs != [] && forall x | x in xs :: Printable(x)
    ensures ReadItems(AfterBracket(xs, r)) == Got(xs, r)
    decreases xs, 2
  {
    var x, rest, t := xs[0], xs[1..], AfterBracket(xs, r);
    assert xs == [x] + rest;
    ItemsRest(rest, r);
    ReadEncode(x, ItemsTail(rest) + r);
    if rest == [] {
      ItemsEnd(t, x, r);
      assert xs == [x];
    } else {
      ReadItemsTail(rest, r);
      ItemsGoOn(t, x, AfterBracket(rest, r), rest, r);
    }
  }

  lemma {:induction false} ReadEncodedField(f: Field, r: string)
    requires Printable(f.value) && Delimited(r)
    ensures ReadField(EncodeField(f) + r) == Got(f, r)
    decreases f, 3
  {
    FieldRest(f, r);
    var u := Encode(f.value) + r;
    FrontIs("\"", StringTail(f.key) + (":" + u));
    ReadStringTail(f.key, ":" + u);
    FrontIs(":", u);
    ReadEncode(f.value, r);
  }

  lemma {:induction false} ReadAfterBrace(fs: seq<Field>, r: string)
    requires forall f | f in fs :: Printable(f.value)
    ensures ReadObject(AfterBrace(fs, r)) == Got(Obj(fs), r)
    decreases fs, 5
  {
    if fs == [] {
      FrontIs("}", r);
    } else {
      FieldRest(fs[0], FieldsTail(fs[1..]) + r);
      FrontIs("\"", StringTail(fs[0].key) + (":" + (Encode(fs[0].value) + (FieldsTail(fs[1..]) + r))));
      ReadFieldsTail(fs, r);
    }
  }

  lemma FieldsEnd(t: string, f: Field, r: string)
    requires ReadField(t) == Got(f, "}" + r)
    ensures ReadFields(t) == Got([f], r)
  {
    FrontIs("}", r);
  }

  lemma FieldsGoOn(t: string, f: Field, w: string, fs: seq<Field>, r: string)
    requires ReadField(t) == Got(f, "," + w) && ReadFields(w) == Got(fs, r)
    ensures ReadFields(t) == Got([f] + fs, r)
  {
    FrontIs(",", w);
  }

  lemma {:induction false} ReadFieldsTail(fs: seq<Field>, r: string)
    requires fs != [] && forall f | f in fs :: Printable(f.value)
    ensures ReadFields(AfterBrace(fs, r)) == Got(fs, r)
    decreases fs, 4
  {
    var f, rest, t := fs[0], fs[1..], AfterBrace(fs, r);
    assert fs == [f] + rest;
    FieldsRest(rest, r);
    ReadEncodedField(f, FieldsTail(rest) + r);
    if rest == [] {
      FieldsEnd(t, f, r);
      assert fs == [f];
    } else {
      ReadFieldsTail(rest, r);
      FieldsGoOn(t, f, AfterBrace(rest, r), rest, r);
    }
  }

  /** An encoded value followed by a delimiter can be read back in one way only. */
  lemma EncodePrefix(a: Json, b: Json, r: string, t: string)
    requires Printable(a) && Printable(b) && Delimited(r) && Delimited(t)
    requires Encode(a) + r == Encode(b) + t
    ensures a == b && r == t
  {
    ReadEncode(a, r);
    ReadEncode(b, t);
  }
}
