/** The order of object keys in the canonical text, and the literal tokens of the text. */
module StableOrder {
  import opened Basics
  import opened Sorting
  import opened StableJson

  // ---- code unit order ----

  /** `a` is a proper prefix of `b`, or has the smaller code unit where they first differ. */
  ghost predicate Before(a: Text, b: Text) {
    exists k :: DifferFirstAt(a, b, k) && k < |b| && (k == |a| || a[k] < b[k])
  }

  predicate DifferFirstAt(a: Text, b: Text, k: int) {
    0 <= k <= |a| && k <= |b| && (forall i :: 0 <= i < k ==> a[i] == b[i]) && (k < |a| && k < |b| ==> a[k] != b[k])
  }

  lemma {:induction false} TextLeqIsCodeUnitOrder(a: Text, b: Text)
    ensures TextLeq(a, b) <==> a == b || Before(a, b)
    ensures Before(a, b) ==> a != b && !Before(b, a)
  {
    if a == [] {
      if b != [] {
        assert DifferFirstAt(a, b, 0);
      }
    } else if b == [] {
    } else if a[0] != b[0] {
      HeadsDecide(a, b);
      HeadsDecide(b, a);
    } else {
      TextLeqIsCodeUnitOrder(a[1..], b[1..]);
      TailsDecide(a, b);
      TailsDecide(b, a);
      assert a == [a[0]] + a[1..] && b == [b[0]] + b[1..];
    }
  }

  lemma HeadsDecide(a: Text, b: Text)
    requires a != [] && b != [] && a[0] != b[0]
    ensures Before(a, b) <==> a[0] < b[0]
  {
    assert DifferFirstAt(a, b, 0);
  }

  lemma TailsDecide(a: Text, b: Text)
    requires a != [] && b != [] && a[0] == b[0]
    ensures Before(a, b) <==> Before(a[1..], b[1..])
  {
    if Before(a, b) {
      var k :| DifferFirstAt(a, b, k) && k < |b| && (k == |a| || a[k] < b[k]);
      assert k > 0;
      assert forall i :: 0 <= i < k - 1 ==> a[1..][i] == a[i + 1] && b[1..][i] == b[i + 1];
      assert DifferFirstAt(a[1..], b[1..], k - 1);
    }
    if Before(a[1..], b[1..]) {
      var k :| DifferFirstAt(a[1..], b[1..], k) && k < |b[1..]| && (k == |a[1..]| || a[1..][k] < b[1..][k]);
      assert forall i :: 1 <= i < k + 1 ==> a[1..][i - 1] == a[i] && b[1..][i - 1] == b[i];
      assert DifferFirstAt(a, b, k + 1);
    }
  }

  // ---- the canonical value, and its plain text ----

  /** Keys strictly ascend in every object, at every depth. */
  ghost predicate KeysAscend(j: Json) {
    match j
    case Arr(items) => forall i :: 0 <= i < |items| ==> KeysAscend(items[i])
    case Obj(fields) =>
      && (forall i, k :: 0 <= i < k < |fields| ==> Before(fields[i].key, fields[k].key))
      && (forall i :: 0 <= i < |fields| ==> KeysAscend(fields[i].value))
    case _ => true
  }

  /** JSON.stringify: fields in the order they have. */
  function Plain(j: Json): Text {
    match j
    case Null => NULL_TEXT
    case Bool(b) => if b then TRUE_TEXT else FALSE_TEXT
    case Num(token) => token
    case Str(s) => Quoted(s)
    case Arr(items) => [OPEN_BRACKET] + PlainItems(items) + [CLOSE_BRACKET]
    case Obj(fields) => [OPEN_BRACE] + JoinFields(PlainFields(fields)) + [CLOSE_BRACE]
  }

  function PlainItems(items: seq<Json>): Text {
    if items == [] then []
    else if |items| == 1 then Plain(items[0])
    else Plain(items[0]) + [COMMA] + PlainItems(items[1..])
  }

  function PlainFields(fields: seq<Field>): seq<Printed> {
    if fields == [] then [] else [PlainOf(fields[0])] + PlainFields(fields[1..])
  }

  function PlainOf(field: Field): Printed {
    Printed(field.key, Plain(field.value))
  }

  predicate FieldLeq(f: Field, g: Field) {
    TextLeq(f.key, g.key)
  }

  /** The same value with the fields of every object in key order. */
  function Canonical(j: Json): Json {
    match j
    case Arr(items) => Arr(CanonicalItems(items))
    case Obj(fields) => Obj(Sort(CanonicalFields(fields), FieldLeq))
    case _ => j
  }

  function CanonicalItems(items: seq<Json>): seq<Json> {
    if items == [] then [] else [Canonical(items[0])] + CanonicalItems(items[1..])
  }

  function CanonicalFields(fields: seq<Field>): seq<Field> {
    if fields == [] then [] else [CanonicalOf(fields[0])] + CanonicalFields(fields[1..])
  }

  function CanonicalOf(field: Field): Field {
    Field(field.key, Canonical(field.value))
  }

  // ---- stableStringify prints the canonical value ----

  lemma {:induction false} StablePrintsCanonical(j: Json)
    ensures Stable(j) == Plain(Canonical(j))
    decreases j, 0
  {
    match j
    case Arr(items) => ItemsPrintCanonical(items);
    case Obj(fields) =>
      FieldsPrintCanonical(fields);
      PlainSort(CanonicalFields(fields));
    case _ =>
  }

  lemma {:induction false} ItemsPrintCanonical(items: seq<Json>)
    ensures StableItems(items) == PlainItems(CanonicalItems(items)) && |CanonicalItems(items)| == |items|
    decreases items, 1
  {
    if items != [] {
      StablePrintsCanonical(items[0]);
      ItemsPrintCanonical(items[1..]);
      assert CanonicalItems(items)[1..] == CanonicalItems(items[1..]);
    }
  }

  lemma {:induction false} FieldsPrintCanonical(fields: seq<Field>)
    ensures StableFields(fields) == PlainFields(CanonicalFields(fields))
    decreases fields, 1
  {
    if fields != [] {
      StablePrintsCanonical(fields[0].value);
      FieldsPrintCanonical(fields[1..]);
      assert CanonicalFields(fields)[1..] == CanonicalFields(fields[1..]);
      assert CanonicalFields(fields)[0] == CanonicalOf(fields[0]);
    }
  }

  lemma {:induction false} PlainInsert(f: Field, fields: seq<Field>)
    ensures PlainFields(Insert(f, fields, FieldLeq)) == Insert(PlainOf(f), PlainFields(fields), KeyLeq)
  {
    hide Plain, TextLeq;
    if fields == [] || FieldLeq(f, fields[0]) {
      assert ([f] + fields)[1..] == fields;
    } else {
      PlainInsert(f, fields[1..]);
      var rest := Insert(f, fields[1..], FieldLeq);
      assert ([fields[0]] + rest)[1..] == rest;
      assert PlainFields(fields)[1..] == PlainFields(fields[1..]);
    }
  }

  lemma {:induction false} PlainSort(fields: seq<Field>)
    ensures PlainFields(Sort(fields, FieldLeq)) == Sort(PlainFields(fields), KeyLeq)
  {
    hide Plain, PlainOf, TextLeq;
    if fields != [] {
      PlainSort(fields[1..]);
      PlainInsert(fields[0], Sort(fields[1..], FieldLeq));
      assert PlainFields(fields)[1..] == PlainFields(fields[1..]);
    }
  }

  // ---- the canonical value ascends and is the same value ----

  lemma {:induction false} CanonicalFieldsAre(fields: seq<Field>)
    ensures |CanonicalFields(fields)| == |fields|
    ensures forall i :: 0 <= i < |fields| ==> CanonicalFields(fields)[i] == CanonicalOf(fields[i])
  {
    if fields != [] {
      CanonicalFieldsAre(fields[1..]);
    }
  }

  lemma {:induction false} CanonicalItemsAre(items: seq<Json>)
    ensures |CanonicalItems(items)| == |items|
    ensures forall i :: 0 <= i < |items| ==> CanonicalItems(items)[i] == Canonical(items[i])
  {
    if items != [] {
      CanonicalItemsAre(items[1..]);
    }
  }

  lemma FieldLeqIsTotal()
    ensures TotalPreorder(FieldLeq)
  {
    forall f, g ensures FieldLeq(f, g) || FieldLeq(g, f) {
      TextLeqIsTotal(f.key, g.key);
    }
    forall f, g, h | FieldLeq(f, g) && FieldLeq(g, h) ensures FieldLeq(f, h) {
      TextLeqIsTransitive(f.key, g.key, h.key);
    }
  }

  lemma {:induction false} InsertKeepsDistinct(f: Field, fields: seq<Field>)
    requires DistinctKeys(fields) && forall i :: 0 <= i < |fields| ==> fields[i].key != f.key
    ensures DistinctKeys(Insert(f, fields, FieldLeq))
  {
    hide FieldLeq;
    if fields != [] && !FieldLeq(f, fields[0]) {
      var rest := Insert(f, fields[1..], FieldLeq);
      InsertKeepsDistinct(f, fields[1..]);
      InsertPermutes(f, fields[1..], FieldLeq);
      forall k | 0 <= k < |rest|
        ensures rest[k].key != fields[0].key
      {
        assert rest[k] in rest;
      }
    }
  }

  lemma {:induction false} InsertMeansTheSame(f: Field, fields: seq<Field>)
    requires forall i :: 0 <= i < |fields| ==> fields[i].key != f.key
    ensures MeaningOfFields(Insert(f, fields, FieldLeq)) == MeaningOfFields(fields)[f.key := Meaning(f.value)]
  {
    hide FieldLeq, Meaning;
    if fields == [] || FieldLeq(f, fields[0]) {
      assert ([f] + fields)[1..] == fields;
    } else {
      var rest := Insert(f, fields[1..], FieldLeq);
      InsertMeansTheSame(f, fields[1..]);
      assert ([fields[0]] + rest)[1..] == rest;
    }
  }

  lemma {:induction false} SortKeepsDistinct(fields: seq<Field>)
    requires DistinctKeys(fields)
    ensures DistinctKeys(Sort(fields, FieldLeq)) && MeaningOfFields(Sort(fields, FieldLeq)) == MeaningOfFields(fields)
  {
    hide FieldLeq, Meaning;
    if fields != [] {
      SortKeepsDistinct(fields[1..]);
      var rest := Sort(fields[1..], FieldLeq);
      SortPermutes(fields[1..], FieldLeq);
      forall k | 0 <= k < |rest|
        ensures rest[k].key != fields[0].key
      {
        assert rest[k] in fields[1..];
      }
      InsertKeepsDistinct(fields[0], rest);
      InsertMeansTheSame(fields[0], rest);
    }
  }

  lemma {:induction false} CanonicalAscends(j: Json)
    requires Valid(j)
    ensures KeysAscend(Canonical(j))
    decreases j, 0
  {
    match j
    case Arr(items) =>
      CanonicalItemsAre(items);
      forall i | 0 <= i < |items|
        ensures KeysAscend(Canonical(items[i]))
      {
        CanonicalAscends(items[i]);
      }
    case Obj(fields) =>
      CanonicalFieldsAre(fields);
      forall i | 0 <= i < |fields|
        ensures KeysAscend(CanonicalFields(fields)[i].value)
      {
        CanonicalAscends(fields[i].value);
      }
      SortedAscends(CanonicalFields(fields));
    case _ =>
  }

  lemma SortedAscends(fields: seq<Field>)
    requires DistinctKeys(fields) && forall i :: 0 <= i < |fields| ==> KeysAscend(fields[i].value)
    ensures KeysAscend(Obj(Sort(fields, FieldLeq)))
  {
    var sorted := Sort(fields, FieldLeq);
    FieldLeqIsTotal();
    SortSorts(fields, FieldLeq);
    SortPermutes(fields, FieldLeq);
    SortKeepsDistinct(fields);
    hide Sort, Before;
    forall i, k | 0 <= i < k < |sorted|
      ensures Before(sorted[i].key, sorted[k].key)
    {
      assert FieldLeq(sorted[i], sorted[k]);
      TextLeqIsCodeUnitOrder(sorted[i].key, sorted[k].key);
    }
    forall i | 0 <= i < |sorted|
      ensures KeysAscend(sorted[i].value)
    {
      assert sorted[i] in fields;
    }
  }

  lemma {:induction false} CanonicalMeansTheSame(j: Json)
    requires Valid(j)
    ensures Meaning(Canonical(j)) == Meaning(j)
    decreases j, 0
  {
    match j
    case Arr(items) => ItemsMeanTheSame(items);
    case Obj(fields) =>
      FieldsMeanTheSame(fields);
      CanonicalFieldsAre(fields);
      SortKeepsDistinct(CanonicalFields(fields));
    case _ =>
  }

  lemma {:induction false} ItemsMeanTheSame(items: seq<Json>)
    requires forall i :: 0 <= i < |items| ==> Valid(items[i])
    ensures MeaningOfItems(CanonicalItems(items)) == MeaningOfItems(items)
    decreases items, 1
  {
    if items != [] {
      CanonicalMeansTheSame(items[0]);
      ItemsMeanTheSame(items[1..]);
      assert CanonicalItems(items)[1..] == CanonicalItems(items[1..]);
    }
  }

  lemma {:induction false} FieldsMeanTheSame(fields: seq<Field>)
    requires forall i :: 0 <= i < |fields| ==> Valid(fields[i].value)
    ensures MeaningOfFields(CanonicalFields(fields)) == MeaningOfFields(fields)
    decreases fields, 1
  {
    if fields != [] {
      CanonicalMeansTheSame(fields[0].value);
      FieldsMeanTheSame(fields[1..]);
      assert CanonicalFields(fields)[1..] == CanonicalFields(fields[1..]);
      assert CanonicalFields(fields)[0] == CanonicalOf(fields[0]);
    }
  }

  /** stableStringify(j) is the plain text of a value that is the same as `j` and whose keys strictly ascend in code unit
      order at every depth. */
  lemma {:induction false} StableTextAscends(j: Json) returns (k: Json)
    requires Valid(j)
    ensures Stable(j) == Plain(k) && Meaning(k) == Meaning(j) && KeysAscend(k)
  {
    k := Canonical(j);
    StablePrintsCanonical(j);
    CanonicalMeansTheSame(j);
    CanonicalAscends(j);
  }

  // ---- the tokens, letter by letter ----

  function Utf16(s: string): Text {
    seq(|s|, i requires 0 <= i < |s| => if s[i] < '\U{10000}' then s[i] as int else 0)
  }

  lemma TokensAre()
    ensures NULL_TEXT == Utf16("null") && TRUE_TEXT == Utf16("true") && FALSE_TEXT == Utf16("false")
    ensures [OPEN_BRACE] == Utf16("{") && [CLOSE_BRACE] == Utf16("}") && [COLON] == Utf16(":") && [COMMA] == Utf16(",")
    ensures [OPEN_BRACKET] == Utf16("[") && [CLOSE_BRACKET] == Utf16("]") && [QUOTE] == Utf16("\"")
  {
  }

  /** The escapes of section 7 of RFC 8259 that JSON.stringify uses; every other unit but a lone surrogate stands for itself. */
  lemma EscapesAre(u: Unit)
    ensures u == 8 ==> EscapeUnit(u) == Utf16("\\b")
    ensures u == 9 ==> EscapeUnit(u) == Utf16("\\t")
    ensures u == 10 ==> EscapeUnit(u) == Utf16("\\n")
    ensures u == 12 ==> EscapeUnit(u) == Utf16("\\f")
    ensures u == 13 ==> EscapeUnit(u) == Utf16("\\r")
    ensures u == 34 ==> EscapeUnit(u) == Utf16("\\\"")
    ensures u == 92 ==> EscapeUnit(u) == Utf16("\\\\")
    ensures (u < 32 && u !in {8, 9, 10, 12, 13}) || 0xD800 <= u < 0xE000 ==>
              var hex := Utf16("0123456789abcdef");
              EscapeUnit(u) == Utf16("\\u") + [hex[u / 4096], hex[u / 256 % 16], hex[u / 16 % 16], hex[u % 16]]
    ensures u >= 32 && u != 34 && u != 92 && !(0xD800 <= u < 0xE000) ==> EscapeUnit(u) == [u]
  {
    var hex := Utf16("0123456789abcdef");
    assert forall n :: 0 <= n < 16 ==> HexDigit(n) == hex[n];
  }
}
