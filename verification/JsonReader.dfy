/**
 * A reader of JSON texts without white space, after the grammar of RFC 8259, and the round trip: the
 * text of every tree reads back as that tree, and a canonical text reads back as the value it was made
 * of, with the entries of every object in the collation's order.
 */
module JsonReader {
  import opened Outcomes
  import opened JsonText
  import opened CanonicalJson

  /** The code units of an ASCII word. */
  function Word(s: string): (t: Text)
    ensures |t| == |s|
  {
    seq(|s|, i requires 0 <= i < |s| => if s[i] as int < 128 then s[i] as int else 0xFFFD)
  }

  predicate Begins(t: Text, c: char) {
    t != [] && t[0] == c as int
  }

  /* ---------- Strings: section 7 of RFC 8259 ---------- */

  function HexValue(u: Unit): Option<nat> {
    if '0' as int <= u <= '9' as int then Some(u - '0' as int)
    else if 'a' as int <= u <= 'f' as int then Some(u - 'a' as int + 10)
    else if 'A' as int <= u <= 'F' as int then Some(u - 'A' as int + 10)
    else None
  }

  function HexUnit(t: Text): (u: Option<Unit>)
    requires |t| == 4
  {
    var a, b, c, d := HexValue(t[0]), HexValue(t[1]), HexValue(t[2]), HexValue(t[3]);
    if a.Some? && b.Some? && c.Some? && d.Some? && a.value < 16 && b.value < 16 && c.value < 16 && d.value < 16
    then Some(((a.value * 16 + b.value) * 16 + c.value) * 16 + d.value) else None
  }

  /** The unit that a two-character escape stands for. */
  function Short(u: Unit): Option<Unit> {
    if u == '"' as int || u == '\\' as int || u == '/' as int then Some(u)
    else if u == 'b' as int then Some(0x08)
    else if u == 't' as int then Some(0x09)
    else if u == 'n' as int then Some(0x0A)
    else if u == 'f' as int then Some(0x0C)
    else if u == 'r' as int then Some(0x0D)
    else None
  }

  /** One unit of a string's content and how long its text is. */
  function ReadUnit(t: Text): (r: Option<(Unit, nat)>)
    ensures r.Some? ==> 0 < r.value.1 <= |t|
  {
    if t == [] then None
    else if t[0] != '\\' as int then if t[0] < 0x20 || t[0] == '"' as int then None else Some((t[0], 1))
    else if |t| < 2 then None
    else if t[1] == 'u' as int then
      if |t| < 6 then None
      else
        var u := HexUnit(t[2..6]);
        if u.Some? then Some((u.value, 6)) else None
    else
      var u := Short(t[1]);
      if u.Some? then Some((u.value, 2)) else None
  }

  /** The content of a string whose opening quote has been read, and what follows the closing one. */
  function ReadString(t: Text): (r: Option<(Text, Text)>)
    ensures r.Some? ==> |r.value.1| < |t|
    decreases |t|
  {
    if Begins(t, '"') then Some(([], t[1..]))
    else
      match ReadUnit(t)
      case None => None
      case Some(u) =>
        match ReadString(t[u.1..])
        case None => None
        case Some(s) => Some(([u.0] + s.0, s.1))
  }

  /* ---------- Values ---------- */

  function NumberLength(t: Text): (n: nat)
    ensures n <= |t|
  {
    if t == [] || !NumberUnit(t[0]) then 0 else 1 + NumberLength(t[1..])
  }

  function ReadValue(t: Text): (r: Option<(Json, Text)>)
    ensures r.Some? ==> |r.value.1| < |t|
    decreases |t|, 1
  {
    if Begins(t, '"') then
      match ReadString(t[1..])
      case None => None
      case Some(s) => Some((JString(s.0), s.1))
    else if Begins(t, '[') then
      if Begins(t[1..], ']') then Some((JArray([]), t[2..]))
      else
        match ReadItems(t[1..])
        case None => None
        case Some(s) => Some((JArray(s.0), s.1))
    else if Begins(t, '{') then
      if Begins(t[1..], '}') then Some((JObject([]), t[2..]))
      else
        match ReadFields(t[1..])
        case None => None
        case Some(s) => Some((JObject(s.0), s.1))
    else if Word("null") <= t then Some((JNull, t[4..]))
    else if Word("true") <= t then Some((JBool(true), t[4..]))
    else if Word("false") <= t then Some((JBool(false), t[5..]))
    else if NumberLength(t) > 0 then Some((JNumber(t[..NumberLength(t)]), t[NumberLength(t)..]))
    else None
  }

  /** The items of a list that is not empty, past its closing bracket. */
  function ReadItems(t: Text): (r: Option<(seq<Json>, Text)>)
    ensures r.Some? ==> |r.value.1| < |t|
    decreases |t|, 2
  {
    match ReadValue(t)
    case None => None
    case Some(v) =>
      if Begins(v.1, ']') then Some(([v.0], v.1[1..]))
      else if Begins(v.1, ',') then
        match ReadItems(v.1[1..])
        case None => None
        case Some(s) => Some(([v.0] + s.0, s.1))
      else None
  }

  /** The entries of an object that is not empty, past its closing brace. */
  function ReadFields(t: Text): (r: Option<(seq<Field>, Text)>)
    ensures r.Some? ==> |r.value.1| < |t|
    decreases |t|, 2
  {
    if !Begins(t, '"') then None
    else
      match ReadString(t[1..])
      case None => None
      case Some(k) =>
        if !Begins(k.1, ':') then None
        else
          match ReadValue(k.1[1..])
          case None => None
          case Some(v) =>
            if Begins(v.1, '}') then Some(([Field(k.0, v.0)], v.1[1..]))
            else if Begins(v.1, ',') then
              match ReadFields(v.1[1..])
              case None => None
              case Some(s) => Some(([Field(k.0, v.0)] + s.0, s.1))
            else None
  }

  /* ---------- Strings read back ---------- */

  lemma HexReadsBack(u: Unit)
    ensures HexUnit(Hex4(u)) == Some(u)
  {
    var t := Hex4(u);
    assert HexValue(t[0]) == Some(u / 16 / 16 / 16) && HexValue(t[1]) == Some(u / 16 / 16 % 16);
    assert HexValue(t[2]) == Some(u / 16 % 16) && HexValue(t[3]) == Some(u % 16);
  }

  lemma UnitReadsBack(u: Unit, lone: bool, r: Text)
    ensures ReadUnit(EscapeUnit(u, lone) + r) == Some((u, |EscapeUnit(u, lone)|))
    ensures !Begins(EscapeUnit(u, lone) + r, '"')
  {
    var e := EscapeUnit(u, lone);
    var t := e + r;
    assert t[0] == e[0];
    if |e| == 6 {
      assert t[1] == e[1] && t[2..6] == Hex4(u);
      HexReadsBack(u);
    } else if |e| == 2 {
      assert t[1] == e[1];
    }
  }

  lemma {:induction false} ContentReadsBack(s: Text, i: nat, r: Text)
    requires i <= |s|
    ensures ReadString(EscapeFrom(s, i) + ([QUOTE] + r)) == Some((s[i..], r))
    decreases |s| - i
  {
    if i == |s| {
      assert EscapeFrom(s, i) + ([QUOTE] + r) == [QUOTE] + r;
      assert ([QUOTE] + r)[1..] == r;
    } else {
      var e, rest := EscapeUnit(s[i], Lone(s, i)), EscapeFrom(s, i + 1) + ([QUOTE] + r);
      Assoc(e, EscapeFrom(s, i + 1), [QUOTE] + r);
      UnitReadsBack(s[i], Lone(s, i), rest);
      assert (e + rest)[|e|..] == rest;
      ContentReadsBack(s, i + 1, r);
      assert [s[i]] + s[i + 1..] == s[i..];
    }
  }

  lemma QuotedReadsBack(s: Text, r: Text)
    ensures Begins(Quoted(s) + r, '"') && ReadString((Quoted(s) + r)[1..]) == Some((s, r))
  {
    QuotedSplits(s, r);
    assert (Quoted(s) + r)[1..] == EscapeFrom(s, 0) + ([QUOTE] + r);
    ContentReadsBack(s, 0, r);
    assert s[0..] == s;
  }

  /* ---------- Values read back ---------- */

  lemma {:induction false} NumberStops(a: Text, r: Text)
    requires (forall i :: 0 <= i < |a| ==> NumberUnit(a[i])) && Delimited(r)
    ensures NumberLength(a + r) == |a|
  {
    if a == [] {
      assert a + r == r;
    } else {
      assert (a + r)[1..] == a[1..] + r;
      NumberStops(a[1..], r);
    }
  }

  lemma NumberReadsBack(a: Text, r: Text)
    requires NumberLiteral(a) && Delimited(r)
    ensures ReadValue(a + r) == Some((JNumber(a), r))
  {
    var t := a + r;
    NumberStops(a, r);
    assert t[0] == a[0] && NumberUnit(t[0]);
    assert Word("null")[0] == 110 && Word("true")[0] == 116 && Word("false")[0] == 102;
    assert t[..|a|] == a && t[|a|..] == r;
  }

  lemma WordReadsBack(v: Json, r: Text)
    requires v.JNull? || v.JBool?
    ensures ReadValue(Encode(v) + r) == Some((v, r))
  {
    var e := Encode(v);
    var t := e + r;
    var word := if v.JNull? then Word("null") else if v.b then Word("true") else Word("false");
    assert e == word;
    assert t[0] == e[0] && word <= t;
    assert t[|e|..] == r;
    assert Word("null")[0] == 110 && Word("true")[0] == 116 && Word("false")[0] == 102;
  }

  lemma ListReadsBack(a: seq<Json>, r: Text)
    requires Encodable(JArray(a))
    requires a != [] ==> ReadItems(EncodeItems(a) + ([CLOSE_LIST] + r)) == Some((a, r))
    ensures ReadValue(Encode(JArray(a)) + r) == Some((JArray(a), r))
  {
    var t := EncodeItems(a) + ([CLOSE_LIST] + r);
    Assoc([OPEN_LIST] + EncodeItems(a), [CLOSE_LIST], r);
    Assoc([OPEN_LIST], EncodeItems(a), [CLOSE_LIST] + r);
    assert (Encode(JArray(a)) + r)[1..] == t;
    if a == [] {
      assert t == [CLOSE_LIST] + r && t[1..] == r;
    } else {
      ItemsBegin(a, r);
    }
  }

  lemma ObjectReadsBack(a: seq<Field>, r: Text)
    requires Encodable(JObject(a))
    requires a != [] ==> ReadFields(EncodeFields(a) + ([CLOSE_OBJECT] + r)) == Some((a, r))
    ensures ReadValue(Encode(JObject(a)) + r) == Some((JObject(a), r))
  {
    var t := EncodeFields(a) + ([CLOSE_OBJECT] + r);
    Assoc([OPEN_OBJECT] + EncodeFields(a), [CLOSE_OBJECT], r);
    Assoc([OPEN_OBJECT], EncodeFields(a), [CLOSE_OBJECT] + r);
    assert (Encode(JObject(a)) + r)[1..] == t;
    if a == [] {
      assert t == [CLOSE_OBJECT] + r && t[1..] == r;
    } else {
      FieldsSplit(a, r);
      QuotedFirst(a[0].key, [COLON] + (Encode(a[0].value) + AfterField(a, r)));
    }
  }

  /** The text of every tree, up to a delimiter, reads back as that tree. */
  lemma {:induction false} ReadsBack(v: Json, r: Text)
    requires Encodable(v) && Delimited(r)
    ensures ReadValue(Encode(v) + r) == Some((v, r))
    decreases v, 1
  {
    match v {
      case JNumber(a) => NumberReadsBack(a, r);
      case JString(s) => QuotedReadsBack(s, r);
      case JArray(a) =>
        if a != [] { ItemsReadBack(a, r); }
        ListReadsBack(a, r);
      case JObject(a) =>
        if a != [] { FieldsReadBack(a, r); }
        ObjectReadsBack(a, r);
      case _ => WordReadsBack(v, r);
    }
  }

  lemma ItemsBegin(a: seq<Json>, r: Text)
    requires a != [] && Encodable(JArray(a))
    ensures !Begins(EncodeItems(a) + ([CLOSE_LIST] + r), ']')
  {
    ItemsSplit(a, r);
    assert Encodable(a[0]);
    FirstUnit(a[0], AfterItem(a, r));
  }

  lemma {:induction false} ItemsReadBack(a: seq<Json>, r: Text)
    requires a != [] && (forall i :: 0 <= i < |a| ==> Encodable(a[i]))
    ensures ReadItems(EncodeItems(a) + ([CLOSE_LIST] + r)) == Some((a, r))
    decreases a, 0
  {
    ItemsSplit(a, r);
    var rest := AfterItem(a, r);
    ReadsBack(a[0], rest);
    if |a| == 1 {
      assert rest[1..] == r && a == [a[0]];
    } else {
      assert rest[1..] == EncodeItems(a[1..]) + ([CLOSE_LIST] + r);
      ItemsReadBack(a[1..], r);
      assert [a[0]] + a[1..] == a;
    }
  }

  lemma {:induction false} FieldsReadBack(a: seq<Field>, r: Text)
    requires a != [] && (forall i :: 0 <= i < |a| ==> Encodable(a[i].value))
    ensures ReadFields(EncodeFields(a) + ([CLOSE_OBJECT] + r)) == Some((a, r))
    decreases a, 0
  {
    FieldsSplit(a, r);
    var rest := AfterField(a, r);
    QuotedReadsBack(a[0].key, [COLON] + (Encode(a[0].value) + rest));
    assert ([COLON] + (Encode(a[0].value) + rest))[1..] == Encode(a[0].value) + rest;
    assert a[0] == Field(a[0].key, a[0].value);
    ReadsBack(a[0].value, rest);
    if |a| == 1 {
      assert rest[1..] == r && a == [a[0]];
    } else {
      assert rest[1..] == EncodeFields(a[1..]) + ([CLOSE_OBJECT] + r);
      FieldsReadBack(a[1..], r);
      assert [a[0]] + a[1..] == a;
    }
  }

  /* ---------- Canonical texts ---------- */

  /** The entries of every object stand in the order of their keys' ranks. */
  predicate InOrder(c: Collation, v: Json)
    decreases v
  {
    match v
    case JArray(items) => forall i :: 0 <= i < |items| ==> InOrder(c, items[i])
    case JObject(fields) =>
      && (forall i, j :: 0 <= i < j < |fields| ==> c(fields[i].key) <= c(fields[j].key))
      && forall i :: 0 <= i < |fields| ==> InOrder(c, fields[i].value)
    case _ => true
  }

  predicate Climbing(c: Collation, s: seq<Field>) {
    forall i, j :: 0 <= i < j < |s| ==> c(s[i].key) <= c(s[j].key)
  }

  lemma {:induction false} InsertClimbs(c: Collation, f: Field, s: seq<Field>)
    requires Climbing(c, s)
    ensures Climbing(c, Insert(c, f, s))
  {
    if s != [] && c(f.key) > c(s[0].key) {
      InsertClimbs(c, f, s[1..]);
      var r := Insert(c, f, s[1..]);
      forall j | 0 <= j < |r| ensures c(s[0].key) <= c(r[j].key) {
        assert r[j] in r;
      }
    }
  }

  lemma {:induction false} SortedClimbs(c: Collation, s: seq<Field>)
    ensures Climbing(c, Sorted(c, s))
  {
    if s != [] {
      SortedClimbs(c, s[1..]);
      InsertClimbs(c, s[0], Sorted(c, s[1..]));
    }
  }

  lemma {:induction false} InsertDistinct(c: Collation, f: Field, s: seq<Field>)
    requires DistinctKeys(s) && forall x :: x in s ==> x.key != f.key
    ensures DistinctKeys(Insert(c, f, s))
  {
    if s != [] && c(f.key) > c(s[0].key) {
      InsertDistinct(c, f, s[1..]);
      var r := Insert(c, f, s[1..]);
      forall j | 0 <= j < |r| ensures s[0].key != r[j].key {
        assert r[j] in r;
        assert r[j] == f || r[j] in s[1..];
      }
    }
  }

  lemma {:induction false} SortedDistinct(c: Collation, s: seq<Field>)
    requires DistinctKeys(s)
    ensures DistinctKeys(Sorted(c, s))
  {
    if s != [] {
      SortedDistinct(c, s[1..]);
      InsertDistinct(c, s[0], Sorted(c, s[1..]));
    }
  }

  /** Sorting loses and invents nothing: the normal form is the same value, with entries in order. */
  lemma {:induction false} NormalFormIsTheValue(c: Collation, v: Json)
    requires Valid(v)
    ensures Same(v, Normalize(c, v)) && InOrder(c, Normalize(c, v))
    decreases v
  {
    match v {
      case JArray(items) =>
        forall i | 0 <= i < |items| ensures Same(items[i], Normalize(c, items[i])) && InOrder(c, Normalize(c, items[i])) {
          NormalFormIsTheValue(c, items[i]);
        }
      case JObject(a) =>
        forall i | 0 <= i < |a| ensures Same(a[i].value, Normalize(c, a[i].value)) && InOrder(c, Normalize(c, a[i].value)) {
          NormalFormIsTheValue(c, a[i].value);
        }
        SortedIsTheObject(c, a);
      case _ =>
    }
  }

  lemma SortedIsTheObject(c: Collation, a: seq<Field>)
    requires DistinctKeys(a)
    requires forall i :: 0 <= i < |a| ==> Same(a[i].value, Normalize(c, a[i].value)) && InOrder(c, Normalize(c, a[i].value))
    ensures Same(JObject(a), Normalize(c, JObject(a))) && InOrder(c, Normalize(c, JObject(a)))
  {
    var n := NormalizeFields(c, a);
    var s := Sorted(c, n);
    SortedClimbs(c, n);
    SortedDistinct(c, n);
    forall i | 0 <= i < |a| ensures var j := IndexOf(s, a[i].key); j < |s| && Same(a[i].value, s[j].value) {
      assert n[i] in s;
      var j :| 0 <= j < |s| && s[j] == n[i];
      IndexOfUnique(s, j);
    }
    forall j | 0 <= j < |s| ensures IndexOf(a, s[j].key) < |a| && InOrder(c, s[j].value) {
      assert s[j] in n;
      var i :| 0 <= i < |n| && n[i] == s[j];
      IndexOfUnique(a, i);
    }
  }

  /** Reading a canonical text gives back the value it was made of, with the entries of every object in order. */
  lemma CanonicalReadsBack(c: Collation, v: Json)
    requires Valid(v)
    ensures var r := ReadValue(Canonical(c, v));
      r.Some? && r.value.1 == [] && Same(v, r.value.0) && InOrder(c, r.value.0)
  {
    NormalizeEncodable(c, v);
    NormalFormIsTheValue(c, v);
    ReadsBack(Normalize(c, v), []);
    assert Canonical(c, v) + [] == Canonical(c, v);
  }

  /** A lone surrogate is written out, so that the text itself is well formed; a pair is left as it is. */
  lemma SurrogateTexts(h: Unit, l: Unit)
    requires 0xD800 <= h <= 0xDBFF && 0xDC00 <= l <= 0xDFFF
    ensures EscapeFrom([h], 0) == Word("\\u") + Hex4(h) && EscapeFrom([l], 0) == Word("\\u") + Hex4(l)
    ensures EscapeFrom([h, l], 0) == [h, l]
  {
    assert EscapeFrom([h], 1) == [] && EscapeFrom([l], 1) == [] && EscapeFrom([h, l], 2) == [];
    assert EscapeFrom([h, l], 1) == [l] + EscapeFrom([h, l], 2);
  }
}
