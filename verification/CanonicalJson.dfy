/**
 * canonicalJson of command-repository.ts: the JSON text of a value with the entries of every object
 * sorted by `localeCompare`. The collation is a parameter, so the results hold for every locale.
 */
module CanonicalJson {
  import opened JsonText

  /**
   * `localeCompare` as a total preorder on strings: every total preorder on a countable set is the
   * comparison of some real rank, and two different strings may share a rank.
   */
  type Collation = Text -> real

  /** A finite JSON tree: no missing value anywhere, and an object never has one key twice. */
  predicate Valid(v: Json)
    decreases v
  {
    match v
    case JMissing => false
    case JNumber(t) => NumberLiteral(t)
    case JArray(items) => forall i :: 0 <= i < |items| ==> Valid(items[i])
    case JObject(fields) =>
      && DistinctKeys(fields)
      && forall i :: 0 <= i < |fields| ==> Valid(fields[i].value)
    case _ => true
  }

  predicate DistinctKeys(fields: seq<Field>) {
    forall i, j :: 0 <= i < j < |fields| ==> fields[i].key != fields[j].key
  }

  /** One step of a stable sort: an entry goes before every entry of its own rank. */
  function Insert(c: Collation, f: Field, s: seq<Field>): (r: seq<Field>)
    ensures |r| == |s| + 1
    ensures forall x :: x in r <==> x == f || x in s
  {
    if s == [] || c(f.key) <= c(s[0].key) then [f] + s
    else
      assert s == [s[0]] + s[1..];
      [s[0]] + Insert(c, f, s[1..])
  }

  function Sorted(c: Collation, fields: seq<Field>): (r: seq<Field>)
    ensures |r| == |fields|
    ensures forall x :: x in r <==> x in fields
  {
    if fields == [] then []
    else
      assert fields == [fields[0]] + fields[1..];
      Insert(c, fields[0], Sorted(c, fields[1..]))
  }

  /** The tree with the entries of every object sorted. */
  function Normalize(c: Collation, v: Json): Json
    decreases v, 1
  {
    match v
    case JArray(items) => JArray(NormalizeItems(c, items))
    case JObject(fields) => JObject(Sorted(c, NormalizeFields(c, fields)))
    case _ => v
  }

  function NormalizeItems(c: Collation, items: seq<Json>): (r: seq<Json>)
    ensures |r| == |items|
    ensures forall i :: 0 <= i < |r| ==> r[i] == Normalize(c, items[i])
    decreases items, 0
  {
    if items == [] then [] else [Normalize(c, items[0])] + NormalizeItems(c, items[1..])
  }

  function NormalizeFields(c: Collation, fields: seq<Field>): (r: seq<Field>)
    ensures |r| == |fields|
    ensures forall i :: 0 <= i < |r| ==> r[i] == Field(fields[i].key, Normalize(c, fields[i].value))
    decreases fields, 0
  {
    if fields == [] then []
    else [Field(fields[0].key, Normalize(c, fields[0].value))] + NormalizeFields(c, fields[1..])
  }

  function Canonical(c: Collation, v: Json): Text {
    Encode(Normalize(c, v))
  }

  /* ---------- Equal up to the order of object entries ---------- */

  /** The position of the entry with key `k`, or the length when there is none. */
  function IndexOf(fields: seq<Field>, k: Text): (i: nat)
    ensures i <= |fields|
    ensures i < |fields| ==> fields[i].key == k
    ensures forall j :: 0 <= j < i ==> fields[j].key != k
  {
    if fields == [] || fields[0].key == k then 0 else 1 + IndexOf(fields[1..], k)
  }

  /** Lists agree item by item; objects have the same keys and agree key by key. */
  predicate Same(v: Json, w: Json)
    decreases v
  {
    match v
    case JArray(a) =>
      && w.JArray? && |a| == |w.items|
      && forall i :: 0 <= i < |a| ==> Same(a[i], w.items[i])
    case JObject(a) =>
      && w.JObject?
      && (forall i :: 0 <= i < |a| ==>
            var j := IndexOf(w.fields, a[i].key);
            j < |w.fields| && Same(a[i].value, w.fields[j].value))
      && (forall j :: 0 <= j < |w.fields| ==> IndexOf(a, w.fields[j].key) < |a|)
    case _ => v == w
  }

  lemma IndexOfUnique(fields: seq<Field>, i: nat)
    requires DistinctKeys(fields) && i < |fields|
    ensures IndexOf(fields, fields[i].key) == i
  {
  }

  /* ---------- Equal texts come from equal trees ---------- */

  lemma {:induction false} NormalizeEncodable(c: Collation, v: Json)
    requires Valid(v)
    ensures Encodable(Normalize(c, v))
    decreases v
  {
    match v {
      case JArray(items) =>
        forall i | 0 <= i < |items| ensures Encodable(NormalizeItems(c, items)[i]) {
          NormalizeEncodable(c, items[i]);
        }
      case JObject(fields) =>
        forall i | 0 <= i < |fields| ensures Encodable(NormalizeFields(c, fields)[i].value) {
          NormalizeEncodable(c, fields[i].value);
        }
        SortedEncodable(c, NormalizeFields(c, fields));
      case _ =>
    }
  }

  lemma SortedEncodable(c: Collation, s: seq<Field>)
    requires forall i :: 0 <= i < |s| ==> Encodable(s[i].value)
    ensures Encodable(JObject(Sorted(c, s)))
  {
    var r := Sorted(c, s);
    forall i | 0 <= i < |r| ensures Encodable(r[i].value) {
      assert r[i] in s;
    }
  }

  /** If two objects sort to the same entries, an entry of one is an entry of the other. */
  lemma SameSorted(c: Collation, a: seq<Field>, b: seq<Field>, i: nat) returns (j: nat)
    requires Sorted(c, a) == Sorted(c, b) && i < |a|
    ensures j < |b| && b[j] == a[i]
  {
    assert a[i] in Sorted(c, a);
    assert a[i] in b;
    j :| 0 <= j < |b| && b[j] == a[i];
  }

  lemma {:induction false} EqualNormalFormsAreSame(c: Collation, v: Json, w: Json)
    requires Valid(v) && Valid(w) && Normalize(c, v) == Normalize(c, w)
    ensures Same(v, w)
    decreases v
  {
    match v {
      case JArray(a) =>
        forall i | 0 <= i < |a| ensures Same(a[i], w.items[i]) {
          assert NormalizeItems(c, a)[i] == NormalizeItems(c, w.items)[i];
          EqualNormalFormsAreSame(c, a[i], w.items[i]);
        }
      case JObject(a) =>
        var b := w.fields;
        var na, nb := NormalizeFields(c, a), NormalizeFields(c, b);
        forall i | 0 <= i < |a|
          ensures var j := IndexOf(b, a[i].key); j < |b| && Same(a[i].value, b[j].value)
        {
          var j := SameSorted(c, na, nb, i);
          IndexOfUnique(b, j);
          EqualNormalFormsAreSame(c, a[i].value, b[j].value);
        }
        forall j | 0 <= j < |b| ensures IndexOf(a, b[j].key) < |a| {
          var i := SameSorted(c, nb, na, j);
          IndexOfUnique(a, i);
        }
      case _ =>
    }
  }

  lemma EqualTextsHaveEqualNormalForms(c: Collation, v: Json, w: Json)
    requires Valid(v) && Valid(w) && Canonical(c, v) == Canonical(c, w)
    ensures Normalize(c, v) == Normalize(c, w)
  {
    NormalizeEncodable(c, v);
    NormalizeEncodable(c, w);
    var x, y := Normalize(c, v), Normalize(c, w);
    assert Encode(x) + [] == Encode(y) + [];
    Decodes(x, [], y, []);
  }

  /** Whatever the collation does, one canonical text is never the text of two different trees. */
  lemma CanonicalIsFaithful(c: Collation, v: Json, w: Json)
    requires Valid(v) && Valid(w) && Canonical(c, v) == Canonical(c, w)
    ensures Same(v, w)
  {
    EqualTextsHaveEqualNormalForms(c, v, w);
    EqualNormalFormsAreSame(c, v, w);
  }

  /* ---------- Equal trees have equal texts, unless two keys collate alike ---------- */

  /** No object holds two entries whose keys the collation cannot tell apart. */
  predicate Distinguished(c: Collation, v: Json)
    decreases v
  {
    match v
    case JArray(items) => forall i :: 0 <= i < |items| ==> Distinguished(c, items[i])
    case JObject(fields) =>
      && DistinctRanks(c, fields)
      && forall i :: 0 <= i < |fields| ==> Distinguished(c, fields[i].value)
    case _ => true
  }

  predicate DistinctRanks(c: Collation, fields: seq<Field>) {
    forall i, j :: 0 <= i < j < |fields| ==> c(fields[i].key) != c(fields[j].key)
  }

  predicate Ascending(c: Collation, s: seq<Field>) {
    forall i, j :: 0 <= i < j < |s| ==> c(s[i].key) < c(s[j].key)
  }

  lemma {:induction false} InsertAscending(c: Collation, f: Field, s: seq<Field>)
    requires Ascending(c, s) && forall x :: x in s ==> c(x.key) != c(f.key)
    ensures Ascending(c, Insert(c, f, s))
  {
    if s != [] && c(f.key) > c(s[0].key) {
      InsertAscending(c, f, s[1..]);
      var r := Insert(c, f, s[1..]);
      forall j | 0 <= j < |r| ensures c(s[0].key) < c(r[j].key) {
        assert r[j] in r;
      }
    }
  }

  lemma {:induction false} SortedAscending(c: Collation, s: seq<Field>)
    requires DistinctRanks(c, s)
    ensures Ascending(c, Sorted(c, s))
  {
    if s != [] {
      SortedAscending(c, s[1..]);
      InsertAscending(c, s[0], Sorted(c, s[1..]));
    }
  }

  /** An ascending sequence is determined by its elements. */
  lemma {:induction false} AscendingUnique(c: Collation, a: seq<Field>, b: seq<Field>)
    requires Ascending(c, a) && Ascending(c, b)
    requires forall x :: x in a <==> x in b
    ensures a == b
  {
    assert a != [] ==> a[0] in b;
    assert b != [] ==> b[0] in a;
    if a != [] {
      assert a[0] == b[0];
      assert a == [a[0]] + a[1..] && b == [b[0]] + b[1..];
      forall x ensures x in a[1..] <==> x in b[1..] {
        assert x in a[1..] ==> x != a[0] && x in b;
        assert x in b[1..] ==> x != b[0] && x in a;
      }
      AscendingUnique(c, a[1..], b[1..]);
    }
  }

  /** Two objects with the same entries in any order sort to the same sequence. */
  lemma SortedAlike(c: Collation, a: seq<Field>, b: seq<Field>)
    requires DistinctRanks(c, a) && DistinctRanks(c, b)
    requires forall x :: x in a <==> x in b
    ensures Sorted(c, a) == Sorted(c, b)
  {
    SortedAscending(c, a);
    SortedAscending(c, b);
    AscendingUnique(c, Sorted(c, a), Sorted(c, b));
  }

  /** The same keys, told apart in one object, are told apart in the other. */
  lemma RanksCarryOver(c: Collation, a: seq<Field>, b: seq<Field>)
    requires DistinctRanks(c, a) && DistinctKeys(b)
    requires forall j :: 0 <= j < |b| ==> IndexOf(a, b[j].key) < |a|
    ensures DistinctRanks(c, b)
  {
    forall i, j | 0 <= i < j < |b| ensures c(b[i].key) != c(b[j].key) {
      var k, l := IndexOf(a, b[i].key), IndexOf(a, b[j].key);
      assert a[k].key == b[i].key && a[l].key == b[j].key;
    }
  }

  lemma {:induction false} SameTreesNormalizeAlike(c: Collation, v: Json, w: Json)
    requires Valid(v) && Valid(w) && Same(v, w) && Distinguished(c, v)
    ensures Normalize(c, v) == Normalize(c, w)
    decreases v
  {
    match v {
      case JArray(a) =>
        forall i | 0 <= i < |a| ensures NormalizeItems(c, a)[i] == NormalizeItems(c, w.items)[i] {
          SameTreesNormalizeAlike(c, a[i], w.items[i]);
        }
        assert NormalizeItems(c, a) == NormalizeItems(c, w.items);
      case JObject(a) =>
        var b := w.fields;
        var na, nb := NormalizeFields(c, a), NormalizeFields(c, b);
        forall i | 0 <= i < |a|
          ensures var j := IndexOf(b, a[i].key); j < |b| && na[i] == nb[j]
        {
          var j := IndexOf(b, a[i].key);
          SameTreesNormalizeAlike(c, a[i].value, b[j].value);
        }
        SameEntries(a, b, na, nb);
        RanksCarryOver(c, a, b);
        SortedAlike(c, na, nb);
      case _ =>
    }
  }

  lemma SameEntries(a: seq<Field>, b: seq<Field>, na: seq<Field>, nb: seq<Field>)
    requires |na| == |a| && |nb| == |b| && DistinctKeys(b)
    requires forall i :: 0 <= i < |a| ==> var j := IndexOf(b, a[i].key); j < |b| && na[i] == nb[j]
    requires forall j :: 0 <= j < |b| ==> IndexOf(a, b[j].key) < |a|
    ensures forall x :: x in na <==> x in nb
  {
    forall j | 0 <= j < |b| ensures nb[j] in na {
      var i := IndexOf(a, b[j].key);
      IndexOfUnique(b, j);
      assert na[i] == nb[j];
    }
    forall i | 0 <= i < |a| ensures na[i] in nb {
      var j := IndexOf(b, a[i].key);
      assert nb[j] == na[i];
    }
  }

  /* ---------- Keys that collate alike really do break canonicity ---------- */

  /** The entries of one rank, in order: what a stable sort may not reorder. */
  function OfRank(c: Collation, rank: real, s: seq<Field>): seq<Field> {
    if s == [] then []
    else (if c(s[0].key) == rank then [s[0]] else []) + OfRank(c, rank, s[1..])
  }

  lemma {:induction false} OfRankConcat(c: Collation, rank: real, a: seq<Field>, b: seq<Field>)
    ensures OfRank(c, rank, a + b) == OfRank(c, rank, a) + OfRank(c, rank, b)
  {
    if a == [] {
      assert a + b == b;
    } else {
      assert (a + b)[1..] == a[1..] + b && (a + b)[0] == a[0];
      OfRankConcat(c, rank, a[1..], b);
      var first := if c(a[0].key) == rank then [a[0]] else [];
      assert OfRank(c, rank, a + b) == first + (OfRank(c, rank, a[1..]) + OfRank(c, rank, b));
    }
  }

  lemma {:induction false} InsertStable(c: Collation, rank: real, f: Field, s: seq<Field>)
    ensures OfRank(c, rank, Insert(c, f, s)) == OfRank(c, rank, [f] + s)
  {
    assert ([f] + s)[1..] == s;
    if s != [] && c(f.key) > c(s[0].key) {
      var r := Insert(c, f, s[1..]);
      InsertStable(c, rank, f, s[1..]);
      assert ([s[0]] + r)[1..] == r;
      assert ([f] + s[1..])[1..] == s[1..];
    }
  }

  lemma {:induction false} SortedStable(c: Collation, rank: real, s: seq<Field>)
    ensures OfRank(c, rank, Sorted(c, s)) == OfRank(c, rank, s)
  {
    if s != [] {
      var r := Sorted(c, s[1..]);
      SortedStable(c, rank, s[1..]);
      InsertStable(c, rank, s[0], r);
      assert ([s[0]] + r)[1..] == r;
    }
  }

  lemma OfRankAt(c: Collation, s: seq<Field>, i: nat)
    requires i < |s|
    ensures var rank := c(s[i].key);
      var p := |OfRank(c, rank, s[..i])|;
      p < |OfRank(c, rank, s)| && OfRank(c, rank, s)[p] == s[i]
  {
    assert s == s[..i] + s[i..];
    OfRankConcat(c, c(s[i].key), s[..i], s[i..]);
  }

  /** Replacing the entry at `i` by another of its rank shows in the sorted result. */
  lemma SwapShows(c: Collation, s: seq<Field>, t: seq<Field>, i: nat)
    requires i < |s| && i < |t| && s[..i] == t[..i]
    requires c(s[i].key) == c(t[i].key) && s[i] != t[i]
    ensures Sorted(c, s) != Sorted(c, t)
  {
    SortedStable(c, c(s[i].key), s);
    SortedStable(c, c(s[i].key), t);
    OfRankAt(c, s, i);
    OfRankAt(c, t, i);
  }

  lemma {:induction false} SameReflexive(v: Json)
    requires Valid(v)
    ensures Same(v, v)
    decreases v
  {
    match v {
      case JArray(items) =>
        forall i | 0 <= i < |items| ensures Same(items[i], items[i]) { SameReflexive(items[i]); }
      case JObject(fields) =>
        forall i | 0 <= i < |fields|
          ensures IndexOf(fields, fields[i].key) == i && Same(fields[i].value, fields[i].value)
        {
          IndexOfUnique(fields, i);
          SameReflexive(fields[i].value);
        }
      case _ =>
    }
  }

  /** The object with its entries at `i` and `j` exchanged. */
  function Exchanged(fields: seq<Field>, i: nat, j: nat): (g: seq<Field>)
    requires i < j < |fields|
    ensures |g| == |fields|
  {
    fields[i := fields[j]][j := fields[i]]
  }

  /** Where the entry at `k` goes when `i` and `j` are exchanged, and back. */
  function Partner(k: nat, i: nat, j: nat): nat {
    if k == i then j else if k == j then i else k
  }

  lemma ExchangedValid(fields: seq<Field>, i: nat, j: nat)
    requires Valid(JObject(fields)) && i < j < |fields|
    ensures Valid(JObject(Exchanged(fields, i, j)))
  {
    var g := Exchanged(fields, i, j);
    forall k | 0 <= k < |g| ensures g[k] == fields[Partner(k, i, j)] {
    }
    forall k, l | 0 <= k < l < |g| ensures g[k].key != g[l].key {
      assert Partner(k, i, j) != Partner(l, i, j);
    }
  }

  lemma ExchangedIsSame(fields: seq<Field>, i: nat, j: nat)
    requires Valid(JObject(fields)) && i < j < |fields|
    ensures Same(JObject(fields), JObject(Exchanged(fields, i, j)))
  {
    var g := Exchanged(fields, i, j);
    ExchangedValid(fields, i, j);
    forall k | 0 <= k < |fields|
      ensures var l := IndexOf(g, fields[k].key); l < |g| && Same(fields[k].value, g[l].value)
      ensures IndexOf(fields, g[k].key) < |fields|
    {
      IndexOfUnique(g, Partner(k, i, j));
      IndexOfUnique(fields, Partner(k, i, j));
      SameReflexive(fields[k].value);
    }
  }

  lemma ExchangedDiffers(c: Collation, fields: seq<Field>, i: nat, j: nat)
    requires DistinctKeys(fields) && i < j < |fields| && c(fields[i].key) == c(fields[j].key)
    ensures Normalize(c, JObject(Exchanged(fields, i, j))) != Normalize(c, JObject(fields))
  {
    SwapShows(c, NormalizeFields(c, fields), NormalizeFields(c, Exchanged(fields, i, j)), i);
  }

  lemma ReplacedIsSame(fields: seq<Field>, i: nat, x: Json)
    requires Valid(JObject(fields)) && i < |fields| && Valid(x) && Same(fields[i].value, x)
    ensures var w := JObject(fields[i := Field(fields[i].key, x)]); Valid(w) && Same(JObject(fields), w)
  {
    var g := fields[i := Field(fields[i].key, x)];
    forall k | 0 <= k < |fields| ensures Valid(g[k].value) && Same(fields[k].value, g[k].value) {
      SameReflexive(fields[k].value);
    }
    SameKeysInPlace(fields, g);
  }

  /** Objects that agree entry by entry, in place. */
  lemma SameKeysInPlace(fields: seq<Field>, g: seq<Field>)
    requires DistinctKeys(fields) && |g| == |fields|
    requires forall k :: 0 <= k < |fields| ==> g[k].key == fields[k].key && Same(fields[k].value, g[k].value)
    ensures Same(JObject(fields), JObject(g))
  {
    forall k | 0 <= k < |fields| ensures IndexOf(g, fields[k].key) == k && IndexOf(fields, g[k].key) == k {
      IndexOfUnique(g, k);
      IndexOfUnique(fields, k);
    }
  }

  lemma ReplacedDiffers(c: Collation, fields: seq<Field>, i: nat, x: Json)
    requires DistinctKeys(fields) && i < |fields| && Normalize(c, x) != Normalize(c, fields[i].value)
    ensures Normalize(c, JObject(fields[i := Field(fields[i].key, x)])) != Normalize(c, JObject(fields))
  {
    var g := fields[i := Field(fields[i].key, x)];
    var a, b := NormalizeFields(c, fields), NormalizeFields(c, g);
    if Sorted(c, a) == Sorted(c, b) {
      var k := SameSorted(c, a, b, i);
    }
  }

  lemma ReplacedItem(c: Collation, items: seq<Json>, i: nat, x: Json)
    requires Valid(JArray(items)) && i < |items| && Valid(x)
    requires Same(items[i], x) && Normalize(c, x) != Normalize(c, items[i])
    ensures var w := JArray(items[i := x]);
      Valid(w) && Same(JArray(items), w) && Normalize(c, w) != Normalize(c, JArray(items))
  {
    var g := items[i := x];
    forall k | 0 <= k < |items| ensures Same(items[k], g[k]) { SameReflexive(items[k]); }
    assert NormalizeItems(c, items)[i] != NormalizeItems(c, g)[i];
  }

  lemma {:induction false} CollidingKeysBreakCanonicity(c: Collation, v: Json) returns (w: Json)
    requires Valid(v) && !Distinguished(c, v)
    ensures Valid(w) && Same(v, w) && Normalize(c, w) != Normalize(c, v)
    decreases v
  {
    match v {
      case JArray(items) =>
        var i :| 0 <= i < |items| && !Distinguished(c, items[i]);
        var x := CollidingKeysBreakCanonicity(c, items[i]);
        w := JArray(items[i := x]);
        ReplacedItem(c, items, i, x);
      case JObject(fields) =>
        if DistinctRanks(c, fields) {
          var i :| 0 <= i < |fields| && !Distinguished(c, fields[i].value);
          var x := CollidingKeysBreakCanonicity(c, fields[i].value);
          w := JObject(fields[i := Field(fields[i].key, x)]);
          ReplacedIsSame(fields, i, x);
          ReplacedDiffers(c, fields, i, x);
        } else {
          var i, j :| 0 <= i < j < |fields| && c(fields[i].key) == c(fields[j].key);
          w := JObject(Exchanged(fields, i, j));
          ExchangedValid(fields, i, j);
          ExchangedIsSame(fields, i, j);
          ExchangedDiffers(c, fields, i, j);
        }
    }
  }

  /**
   * The canonical text of a tree is the same for all its entry orders exactly when no object in it
   * has two keys that `localeCompare` ranks alike.
   */
  lemma CanonicalExactly(c: Collation, v: Json)
    requires Valid(v)
    ensures Distinguished(c, v) <==> (forall w :: Valid(w) && Same(v, w) ==> Canonical(c, w) == Canonical(c, v))
  {
    if Distinguished(c, v) {
      forall w | Valid(w) && Same(v, w) ensures Canonical(c, w) == Canonical(c, v) {
        SameTreesNormalizeAlike(c, v, w);
      }
    } else {
      var w := CollidingKeysBreakCanonicity(c, v);
      if Canonical(c, w) == Canonical(c, v) {
        EqualTextsHaveEqualNormalForms(c, w, v);
      }
    }
  }

  /**
   * A concrete failure of the function: Unicode collation ranks the composed and the decomposed
   * spelling of an accented letter alike, so an object with both keys has two canonical texts. No
   * command has such keys; `KnownKeysAreDistinguished` is about the trees that commands are.
   */
  lemma TwoSpellingsOfOneLetter(c: Collation)
    requires c([0xE9]) == c([0x65, 0x301])
    ensures var v := JObject([Field([0xE9], JNull), Field([0x65, 0x301], JNull)]);
      var w := JObject([Field([0x65, 0x301], JNull), Field([0xE9], JNull)]);
      Valid(v) && Valid(w) && Same(v, w) && Canonical(c, v) != Canonical(c, w)
  {
    var f := [Field([0xE9], JNull), Field([0x65, 0x301], JNull)];
    var g := [Field([0x65, 0x301], JNull), Field([0xE9], JNull)];
    assert f[0].key[0] != f[1].key[0];
    assert Exchanged(f, 0, 1) == g;
    ExchangedValid(f, 0, 1);
    ExchangedIsSame(f, 0, 1);
    ExchangedDiffers(c, f, 0, 1);
    if Canonical(c, JObject(f)) == Canonical(c, JObject(g)) {
      EqualTextsHaveEqualNormalForms(c, JObject(f), JObject(g));
    }
  }

  /** On trees whose keys the collation tells apart, equal texts and equal trees are the same thing. */
  lemma CanonicalIffSame(c: Collation, v: Json, w: Json)
    requires Valid(v) && Valid(w) && Distinguished(c, v)
    ensures Canonical(c, v) == Canonical(c, w) <==> Same(v, w)
  {
    if Canonical(c, v) == Canonical(c, w) { CanonicalIsFaithful(c, v, w); }
    if Same(v, w) { SameTreesNormalizeAlike(c, v, w); }
  }

  /* ---------- Trees with known keys ---------- */

  /** Every object in the tree takes its keys from `keys`. */
  predicate KeysWithin(v: Json, keys: set<Text>)
    decreases v
  {
    match v
    case JArray(items) => forall i :: 0 <= i < |items| ==> KeysWithin(items[i], keys)
    case JObject(fields) => forall i :: 0 <= i < |fields| ==> fields[i].key in keys && KeysWithin(fields[i].value, keys)
    case _ => true
  }

  ghost predicate RanksApart(c: Collation, keys: set<Text>) {
    forall a, b :: a in keys && b in keys && a != b ==> c(a) != c(b)
  }

  /** A collation that tells the known keys apart tells apart the keys of every tree made of them. */
  lemma {:induction false} KnownKeysAreDistinguished(c: Collation, v: Json, keys: set<Text>)
    requires Valid(v) && KeysWithin(v, keys) && RanksApart(c, keys)
    ensures Distinguished(c, v)
    decreases v
  {
    match v {
      case JArray(items) =>
        forall i | 0 <= i < |items| ensures Distinguished(c, items[i]) {
          KnownKeysAreDistinguished(c, items[i], keys);
        }
      case JObject(fields) =>
        forall i | 0 <= i < |fields| ensures Distinguished(c, fields[i].value) {
          KnownKeysAreDistinguished(c, fields[i].value, keys);
        }
      case _ =>
    }
  }
}
