/**
 * JavaScript values and the text JSON.stringify gives them, with the entries of an object in their
 * stored order. Texts are sequences of UTF-16 code units. Main result: no text followed by a
 * delimiter can be read back in two ways.
 */
module JsonText {
  type Unit = u: int | 0 <= u < 0x1_0000
  type Text = seq<Unit>

  /** A JavaScript value. `JMissing` stands for the values JSON.stringify has no text for. */
  datatype Json =
    | JMissing
    | JNull
    | JBool(b: bool)
    | JNumber(literal: Text)
    | JString(text: Text)
    | JArray(items: seq<Json>)
    | JObject(fields: seq<Field>)

  /** One entry of an object, in enumeration order. */
  datatype Field = Field(key: Text, value: Json)

  const QUOTE: Unit := 34
  const COMMA: Unit := 44
  const COLON: Unit := 58
  const OPEN_LIST: Unit := 91
  const BACKSLASH: Unit := 92
  const CLOSE_LIST: Unit := 93
  const OPEN_OBJECT: Unit := 123
  const CLOSE_OBJECT: Unit := 125
  const NULL: Text := [110, 117, 108, 108]
  const TRUE: Text := [116, 114, 117, 101]
  const FALSE: Text := [102, 97, 108, 115, 101]

  /* ---------- Numbers ---------- */

  predicate NumberUnit(u: Unit) {
    48 <= u <= 57 || u == 43 || u == 45 || u == 46 || u == 69 || u == 101
  }

  /** JSON.stringify of a finite number: a non-empty word over digits, sign, point and exponent. */
  predicate NumberLiteral(t: Text) {
    |t| > 0 && forall i :: 0 <= i < |t| ==> NumberUnit(t[i])
  }

  /* ---------- Strings (section 7 of RFC 8259) ---------- */

  function HexDigit(d: int): (u: Unit)
    requires 0 <= d < 16
    ensures 48 <= u <= 57 || 97 <= u <= 102
  {
    if d < 10 then 48 + d else 87 + d
  }

  function Hex4(u: Unit): (t: Text)
    ensures |t| == 4
  {
    [HexDigit(u / 16 / 16 / 16), HexDigit(u / 16 / 16 % 16), HexDigit(u / 16 % 16), HexDigit(u % 16)]
  }

  predicate High(u: Unit) { 0xD800 <= u <= 0xDBFF }
  predicate Low(u: Unit) { 0xDC00 <= u <= 0xDFFF }

  /** A surrogate that is not part of a high-low pair. */
  predicate Lone(s: Text, i: nat)
    requires i < |s|
  {
    || (High(s[i]) && !(i + 1 < |s| && Low(s[i + 1])))
    || (Low(s[i]) && !(i > 0 && High(s[i - 1])))
  }

  /** What one code unit becomes inside the quotes. */
  function EscapeUnit(u: Unit, lone: bool): (t: Text)
    ensures |t| > 0
  {
    if u == QUOTE || u == BACKSLASH then [BACKSLASH, u]
    else if u == 8 then [BACKSLASH, 98]
    else if u == 9 then [BACKSLASH, 116]
    else if u == 10 then [BACKSLASH, 110]
    else if u == 12 then [BACKSLASH, 102]
    else if u == 13 then [BACKSLASH, 114]
    else if u < 32 || lone then [BACKSLASH, 117] + Hex4(u)
    else [u]
  }

  function EscapeFrom(s: Text, i: nat): Text
    requires i <= |s|
    decreases |s| - i
  {
    if i == |s| then [] else EscapeUnit(s[i], Lone(s, i)) + EscapeFrom(s, i + 1)
  }

  function Quoted(s: Text): Text {
    [QUOTE] + EscapeFrom(s, 0) + [QUOTE]
  }

  /* ---------- Values ---------- */

  function Encode(v: Json): Text
    decreases v, 1
  {
    match v
    case JMissing => []
    case JNull => NULL
    case JBool(b) => if b then TRUE else FALSE
    case JNumber(t) => t
    case JString(s) => Quoted(s)
    case JArray(items) => [OPEN_LIST] + EncodeItems(items) + [CLOSE_LIST]
    case JObject(fields) => [OPEN_OBJECT] + EncodeFields(fields) + [CLOSE_OBJECT]
  }

  function EncodeItems(items: seq<Json>): Text
    decreases items, 0
  {
    if items == [] then []
    else Encode(items[0]) + (if |items| == 1 then [] else [COMMA] + EncodeItems(items[1..]))
  }

  function EncodeField(f: Field): Text
    decreases f, 2
  {
    Quoted(f.key) + [COLON] + Encode(f.value)
  }

  function EncodeFields(fields: seq<Field>): Text
    decreases fields, 0
  {
    if fields == [] then []
    else EncodeField(fields[0]) + (if |fields| == 1 then [] else [COMMA] + EncodeFields(fields[1..]))
  }

  /* ---------- Unique decoding ---------- */

  /** What may follow a value inside a text. */
  predicate Delimited(t: Text) {
    t == [] || t[0] == COMMA || t[0] == CLOSE_LIST || t[0] == CLOSE_OBJECT
  }

  /** A tree whose leaves have a text; keys may repeat. */
  predicate Encodable(v: Json)
    decreases v
  {
    match v
    case JMissing => false
    case JNumber(t) => NumberLiteral(t)
    case JArray(items) => forall i :: 0 <= i < |items| ==> Encodable(items[i])
    case JObject(fields) => forall i :: 0 <= i < |fields| ==> Encodable(fields[i].value)
    case _ => true
  }

  lemma Cancel(a: Text, r: Text, b: Text, t: Text)
    requires a + r == b + t && |a| == |b|
    ensures a == b && r == t
  {
    assert a == (a + r)[..|a|] && b == (b + t)[..|b|];
    assert r == (a + r)[|a|..] && t == (b + t)[|b|..];
  }

  lemma DropUnit(u: Unit, r: Text, t: Text)
    requires [u] + r == [u] + t
    ensures r == t
  {
    Cancel([u], r, [u], t);
  }

  lemma Assoc(a: Text, b: Text, c: Text)
    ensures (a + b) + c == a + (b + c)
  {
  }

  lemma HexDigitInjective(d: int, e: int)
    requires 0 <= d < 16 && 0 <= e < 16 && HexDigit(d) == HexDigit(e)
    ensures d == e
  {
  }

  lemma Hex4Injective(u: Unit, w: Unit)
    requires Hex4(u) == Hex4(w)
    ensures u == w
  {
    var a, b := Hex4(u), Hex4(w);
    assert a[0] == b[0] && a[1] == b[1] && a[2] == b[2] && a[3] == b[3];
    HexDigitInjective(u / 16 / 16 / 16, w / 16 / 16 / 16);
    HexDigitInjective(u / 16 / 16 % 16, w / 16 / 16 % 16);
    HexDigitInjective(u / 16 % 16, w / 16 % 16);
    HexDigitInjective(u % 16, w % 16);
  }

  lemma EscapeUnitDecodes(u: Unit, p: bool, r: Text, w: Unit, q: bool, t: Text)
    requires EscapeUnit(u, p) + r == EscapeUnit(w, q) + t
    ensures u == w && r == t
  {
    var a, b := EscapeUnit(u, p), EscapeUnit(w, q);
    var x := a + r;
    assert x[0] == a[0] && x[0] == b[0];
    assert a[0] == BACKSLASH ==> x[1] == a[1] && x[1] == b[1];
    assert |a| == |b|;
    Cancel(a, r, b, t);
    if |a| == 6 {
      assert a[2..] == Hex4(u) && b[2..] == Hex4(w);
      Hex4Injective(u, w);
    }
  }

  lemma {:induction false} EscapeDecodes(a: Text, i: nat, r: Text, b: Text, t: Text)
    requires i <= |a| && i <= |b| && a[..i] == b[..i]
    requires EscapeFrom(a, i) + ([QUOTE] + r) == EscapeFrom(b, i) + ([QUOTE] + t)
    ensures a == b && r == t
    decreases |a| - i
  {
    var x := EscapeFrom(a, i) + ([QUOTE] + r);
    assert x[0] == QUOTE <==> i == |a|;
    assert x[0] == QUOTE <==> i == |b|;
    if i == |a| {
      assert a == a[..i] && b == b[..i];
      assert x == [QUOTE] + r && x == [QUOTE] + t;
      DropUnit(QUOTE, r, t);
    } else {
      var ra, rb := EscapeFrom(a, i + 1) + ([QUOTE] + r), EscapeFrom(b, i + 1) + ([QUOTE] + t);
      Assoc(EscapeUnit(a[i], Lone(a, i)), EscapeFrom(a, i + 1), [QUOTE] + r);
      Assoc(EscapeUnit(b[i], Lone(b, i)), EscapeFrom(b, i + 1), [QUOTE] + t);
      EscapeUnitDecodes(a[i], Lone(a, i), ra, b[i], Lone(b, i), rb);
      assert a[..i + 1] == a[..i] + [a[i]] && b[..i + 1] == b[..i] + [b[i]];
      EscapeDecodes(a, i + 1, r, b, t);
    }
  }

  lemma QuotedSplits(a: Text, r: Text)
    ensures Quoted(a) + r == [QUOTE] + (EscapeFrom(a, 0) + ([QUOTE] + r))
  {
  }

  lemma QuotedFirst(a: Text, r: Text)
    ensures (Quoted(a) + r)[0] == QUOTE
  {
  }

  lemma QuotedDecodes(a: Text, r: Text, b: Text, t: Text)
    requires Quoted(a) + r == Quoted(b) + t
    ensures a == b && r == t
  {
    QuotedSplits(a, r);
    QuotedSplits(b, t);
    DropUnit(QUOTE, EscapeFrom(a, 0) + ([QUOTE] + r), EscapeFrom(b, 0) + ([QUOTE] + t));
    EscapeDecodes(a, 0, r, b, t);
  }

  lemma UnitAfter(a: Text, r: Text, b: Text, t: Text)
    requires a + r == b + t && |a| < |b|
    ensures r != [] && r[0] == b[|a|]
  {
    assert (a + r)[|a|] == r[0] && (b + t)[|a|] == b[|a|];
  }

  lemma NumberDecodes(a: Text, r: Text, b: Text, t: Text)
    requires NumberLiteral(a) && NumberLiteral(b) && Delimited(r) && Delimited(t)
    requires a + r == b + t
    ensures a == b && r == t
  {
    if |a| < |b| { UnitAfter(a, r, b, t); }
    if |b| < |a| { UnitAfter(b, t, a, r); }
    Cancel(a, r, b, t);
  }

  /** What the first unit of a value's text says about the value. */
  predicate StartsAs(v: Json, u: Unit) {
    match v
    case JMissing => false
    case JNull => u == 110
    case JBool(b) => u == if b then 116 else 102
    case JNumber(_) => NumberUnit(u)
    case JString(_) => u == QUOTE
    case JArray(_) => u == OPEN_LIST
    case JObject(_) => u == OPEN_OBJECT
  }

  lemma FirstUnit(v: Json, r: Text)
    requires Encodable(v)
    ensures |Encode(v)| > 0 && (Encode(v) + r)[0] == Encode(v)[0] && StartsAs(v, Encode(v)[0])
  {
  }

  /** The text from the second item of a list on, up to and past the closing bracket. */
  function AfterItem(a: seq<Json>, r: Text): Text
    requires a != []
  {
    if |a| == 1 then [CLOSE_LIST] + r else [COMMA] + (EncodeItems(a[1..]) + ([CLOSE_LIST] + r))
  }

  lemma ItemsSplit(a: seq<Json>, r: Text)
    requires a != []
    ensures EncodeItems(a) + ([CLOSE_LIST] + r) == Encode(a[0]) + AfterItem(a, r)
  {
    if |a| > 1 {
      Assoc(Encode(a[0]), [COMMA] + EncodeItems(a[1..]), [CLOSE_LIST] + r);
      Assoc([COMMA], EncodeItems(a[1..]), [CLOSE_LIST] + r);
    }
  }

  function AfterField(a: seq<Field>, r: Text): Text
    requires a != []
  {
    if |a| == 1 then [CLOSE_OBJECT] + r else [COMMA] + (EncodeFields(a[1..]) + ([CLOSE_OBJECT] + r))
  }

  lemma FieldsSplit(a: seq<Field>, r: Text)
    requires a != []
    ensures EncodeFields(a) + ([CLOSE_OBJECT] + r)
         == Quoted(a[0].key) + ([COLON] + (Encode(a[0].value) + AfterField(a, r)))
  {
    var rest := AfterField(a, r);
    if |a| > 1 {
      Assoc(EncodeField(a[0]), [COMMA] + EncodeFields(a[1..]), [CLOSE_OBJECT] + r);
      Assoc([COMMA], EncodeFields(a[1..]), [CLOSE_OBJECT] + r);
    }
    assert EncodeFields(a) + ([CLOSE_OBJECT] + r) == EncodeField(a[0]) + rest;
    Assoc(Quoted(a[0].key) + [COLON], Encode(a[0].value), rest);
    Assoc(Quoted(a[0].key), [COLON], Encode(a[0].value) + rest);
  }

  /** Two values followed by delimiters have the same text only if they and what follows are equal. */
  lemma {:induction false} Decodes(v: Json, r: Text, w: Json, t: Text)
    requires Encodable(v) && Encodable(w) && Delimited(r) && Delimited(t)
    requires Encode(v) + r == Encode(w) + t
    ensures v == w && r == t
    decreases v, 1
  {
    FirstUnit(v, r);
    FirstUnit(w, t);
    match v {
      case JNumber(a) => NumberDecodes(a, r, w.literal, t);
      case JString(a) => QuotedDecodes(a, r, w.text, t);
      case JArray(a) =>
        var b := w.items;
        Assoc([OPEN_LIST] + EncodeItems(a), [CLOSE_LIST], r);
        Assoc([OPEN_LIST], EncodeItems(a), [CLOSE_LIST] + r);
        Assoc([OPEN_LIST] + EncodeItems(b), [CLOSE_LIST], t);
        Assoc([OPEN_LIST], EncodeItems(b), [CLOSE_LIST] + t);
        DropUnit(OPEN_LIST, EncodeItems(a) + ([CLOSE_LIST] + r), EncodeItems(b) + ([CLOSE_LIST] + t));
        ItemsDecode(a, r, b, t);
      case JObject(a) =>
        var b := w.fields;
        Assoc([OPEN_OBJECT] + EncodeFields(a), [CLOSE_OBJECT], r);
        Assoc([OPEN_OBJECT], EncodeFields(a), [CLOSE_OBJECT] + r);
        Assoc([OPEN_OBJECT] + EncodeFields(b), [CLOSE_OBJECT], t);
        Assoc([OPEN_OBJECT], EncodeFields(b), [CLOSE_OBJECT] + t);
        DropUnit(OPEN_OBJECT, EncodeFields(a) + ([CLOSE_OBJECT] + r), EncodeFields(b) + ([CLOSE_OBJECT] + t));
        FieldsDecode(a, r, b, t);
      case _ => Cancel(Encode(v), r, Encode(w), t);
    }
  }

  lemma {:induction false} ItemsDecode(a: seq<Json>, r: Text, b: seq<Json>, t: Text)
    requires forall i :: 0 <= i < |a| ==> Encodable(a[i])
    requires forall i :: 0 <= i < |b| ==> Encodable(b[i])
    requires EncodeItems(a) + ([CLOSE_LIST] + r) == EncodeItems(b) + ([CLOSE_LIST] + t)
    ensures a == b && r == t
    decreases a, 0
  {
    if a != [] { ItemsSplit(a, r); FirstUnit(a[0], AfterItem(a, r)); }
    if b != [] { ItemsSplit(b, t); FirstUnit(b[0], AfterItem(b, t)); }
    if a == [] || b == [] {
      assert a == b == [];
      assert [] + ([CLOSE_LIST] + r) == [CLOSE_LIST] + r && [] + ([CLOSE_LIST] + t) == [CLOSE_LIST] + t;
      DropUnit(CLOSE_LIST, r, t);
    } else {
      Decodes(a[0], AfterItem(a, r), b[0], AfterItem(b, t));
      assert a == [a[0]] + a[1..] && b == [b[0]] + b[1..];
      assert AfterItem(a, r)[0] == AfterItem(b, t)[0];
      assert |a| == 1 <==> |b| == 1;
      if |a| == 1 {
        DropUnit(CLOSE_LIST, r, t);
      } else {
        DropUnit(COMMA, EncodeItems(a[1..]) + ([CLOSE_LIST] + r), EncodeItems(b[1..]) + ([CLOSE_LIST] + t));
        ItemsDecode(a[1..], r, b[1..], t);
      }
    }
  }

  lemma {:induction false} FieldsDecode(a: seq<Field>, r: Text, b: seq<Field>, t: Text)
    requires forall i :: 0 <= i < |a| ==> Encodable(a[i].value)
    requires forall i :: 0 <= i < |b| ==> Encodable(b[i].value)
    requires EncodeFields(a) + ([CLOSE_OBJECT] + r) == EncodeFields(b) + ([CLOSE_OBJECT] + t)
    ensures a == b && r == t
    decreases a, 0
  {
    if a != [] { FieldsSplit(a, r); QuotedFirst(a[0].key, [COLON] + (Encode(a[0].value) + AfterField(a, r))); }
    if b != [] { FieldsSplit(b, t); QuotedFirst(b[0].key, [COLON] + (Encode(b[0].value) + AfterField(b, t))); }
    if a == [] || b == [] {
      assert a == b == [];
      assert [] + ([CLOSE_OBJECT] + r) == [CLOSE_OBJECT] + r && [] + ([CLOSE_OBJECT] + t) == [CLOSE_OBJECT] + t;
      DropUnit(CLOSE_OBJECT, r, t);
    } else {
      var va, vb := Encode(a[0].value) + AfterField(a, r), Encode(b[0].value) + AfterField(b, t);
      QuotedDecodes(a[0].key, [COLON] + va, b[0].key, [COLON] + vb);
      DropUnit(COLON, va, vb);
      Decodes(a[0].value, AfterField(a, r), b[0].value, AfterField(b, t));
      AfterFieldDecodes(a, r, b, t);
      assert a == [a[0]] + a[1..] && b == [b[0]] + b[1..];
      if |a| > 1 {
        FieldsDecode(a[1..], r, b[1..], t);
      }
    }
  }

  /** What follows the first entry says whether there is another, and what it is then followed by. */
  lemma AfterFieldDecodes(a: seq<Field>, r: Text, b: seq<Field>, t: Text)
    requires a != [] && b != [] && AfterField(a, r) == AfterField(b, t)
    ensures |a| == 1 <==> |b| == 1
    ensures if |a| == 1 then r == t
      else EncodeFields(a[1..]) + ([CLOSE_OBJECT] + r) == EncodeFields(b[1..]) + ([CLOSE_OBJECT] + t)
  {
    assert AfterField(a, r)[0] == AfterField(b, t)[0];
    if |a| == 1 {
      DropUnit(CLOSE_OBJECT, r, t);
    } else {
      DropUnit(COMMA, EncodeFields(a[1..]) + ([CLOSE_OBJECT] + r), EncodeFields(b[1..]) + ([CLOSE_OBJECT] + t));
    }
  }
}
