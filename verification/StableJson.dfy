/** The canonical text of a JSON value, and a parser that gets the value back. */
module StableJson {
  import opened Basics
  import opened Sorting

  /** Strings are sequences of UTF-16 code units. */
  type Unit = u: int | 0 <= u < 0x10000
  type Text = seq<Unit>

  const QUOTE: Unit := 34
  const COMMA: Unit := 44
  const COLON: Unit := 58
  const BACKSLASH: Unit := 92
  const OPEN_BRACKET: Unit := 91
  const CLOSE_BRACKET: Unit := 93
  const OPEN_BRACE: Unit := 123
  const CLOSE_BRACE: Unit := 125
  const LETTER_U: Unit := 117
  const NULL_TEXT: Text := [110, 117, 108, 108]
  const TRUE_TEXT: Text := [116, 114, 117, 101]
  const FALSE_TEXT: Text := [102, 97, 108, 115, 101]

  datatype Field = Field(key: Text, value: Json)

  /** A value in memory: object fields have an order. A number is given by its shortest decimal text, which two numbers
      share exactly when they are equal. */
  datatype Json = Null | Bool(b: bool) | Num(token: Text) | Str(s: Text) | Arr(items: seq<Json>) | Obj(fields: seq<Field>)

  /** A value up to the order of object fields, at every depth. */
  datatype Tree = TNull | TBool(b: bool) | TNum(token: Text) | TStr(s: Text) | TArr(items: seq<Tree>) | TObj(fields: map<Text, Tree>)

  // ---- which values there are ----

  predicate Digit(u: Unit) {
    48 <= u <= 57
  }

  /** Digits, '+', '-', '.', 'e'. */
  predicate NumberUnit(u: Unit) {
    Digit(u) || u in {43, 45, 46, 101}
  }

  predicate NumberText(t: Text) {
    |t| > 0 && (Digit(t[0]) || t[0] == 45) && forall i :: 0 <= i < |t| ==> NumberUnit(t[i])
  }

  predicate DistinctKeys(fields: seq<Field>) {
    forall i, k :: 0 <= i < k < |fields| ==> fields[i].key != fields[k].key
  }

  predicate Valid(j: Json) {
    match j
    case Num(token) => NumberText(token)
    case Arr(items) => forall i :: 0 <= i < |items| ==> Valid(items[i])
    case Obj(fields) => DistinctKeys(fields) && forall i :: 0 <= i < |fields| ==> Valid(fields[i].value)
    case _ => true
  }

  function Meaning(j: Json): Tree {
    match j
    case Null => TNull
    case Bool(b) => TBool(b)
    case Num(token) => TNum(token)
    case Str(s) => TStr(s)
    case Arr(items) => TArr(MeaningOfItems(items))
    case Obj(fields) => TObj(MeaningOfFields(fields))
  }

  function MeaningOfItems(items: seq<Json>): seq<Tree> {
    if items == [] then [] else [Meaning(items[0])] + MeaningOfItems(items[1..])
  }

  function MeaningOfFields(fields: seq<Field>): map<Text, Tree> {
    if fields == [] then map[] else MeaningOfFields(fields[1..])[fields[0].key := Meaning(fields[0].value)]
  }

  // ---- the printer ----

  function HexDigit(n: nat): Unit
    requires n < 16
  {
    if n < 10 then 48 + n else 97 + n - 10
  }

  function UnicodeEscape(u: Unit): Text {
    [BACKSLASH, LETTER_U, HexDigit(u / 4096), HexDigit(u / 256 % 16), HexDigit(u / 16 % 16), HexDigit(u % 16)]
  }

  predicate HighSurrogate(u: Unit) { 0xD800 <= u < 0xDC00 }
  predicate LowSurrogate(u: Unit) { 0xDC00 <= u < 0xE000 }

  /** A code unit on its own, escaped as JSON.stringify does; lone surrogates become \\u escapes. */
  function EscapeUnit(u: Unit): Text {
    if u == QUOTE || u == BACKSLASH then [BACKSLASH, u]
    else if u == 8 then [BACKSLASH, 98]
    else if u == 9 then [BACKSLASH, 116]
    else if u == 10 then [BACKSLASH, 110]
    else if u == 12 then [BACKSLASH, 102]
    else if u == 13 then [BACKSLASH, 114]
    else if u < 32 || HighSurrogate(u) || LowSurrogate(u) then UnicodeEscape(u)
    else [u]
  }

  function Escape(s: Text): Text {
    if s == [] then []
    else if |s| > 1 && HighSurrogate(s[0]) && LowSurrogate(s[1]) then [s[0], s[1]] + Escape(s[2..])
    else EscapeUnit(s[0]) + Escape(s[1..])
  }

  function Quoted(s: Text): Text {
    [QUOTE] + Escape(s) + [QUOTE]
  }

  datatype Printed = Printed(key: Text, text: Text)

  /** Code unit order, as the language's default sort compares strings. */
  predicate TextLeq(a: Text, b: Text) {
    a == [] || (b != [] && (a[0] < b[0] || (a[0] == b[0] && TextLeq(a[1..], b[1..]))))
  }

  predicate KeyLeq(p: Printed, q: Printed) {
    TextLeq(p.key, q.key)
  }

  /** stableStringify: like JSON.stringify, with the fields of every object in key order. */
  function Stable(j: Json): Text {
    match j
    case Null => NULL_TEXT
    case Bool(b) => if b then TRUE_TEXT else FALSE_TEXT
    case Num(token) => token
    case Str(s) => Quoted(s)
    case Arr(items) => [OPEN_BRACKET] + StableItems(items) + [CLOSE_BRACKET]
    case Obj(fields) => [OPEN_BRACE] + JoinFields(Sort(StableFields(fields), KeyLeq)) + [CLOSE_BRACE]
  }

  function StableItems(items: seq<Json>): Text {
    if items == [] then []
    else if |items| == 1 then Stable(items[0])
    else Stable(items[0]) + [COMMA] + StableItems(items[1..])
  }

  function StableFields(fields: seq<Field>): seq<Printed> {
    if fields == [] then [] else [PrintedOf(fields[0])] + StableFields(fields[1..])
  }

  function PrintedOf(field: Field): Printed {
    Printed(field.key, Stable(field.value))
  }

  function JoinFields(ps: seq<Printed>): Text {
    if ps == [] then []
    else if |ps| == 1 then Quoted(ps[0].key) + [COLON] + ps[0].text
    else Quoted(ps[0].key) + [COLON] + ps[0].text + [COMMA] + JoinFields(ps[1..])
  }

  // ---- the parser ----

  function HexValue(u: Unit): Option<nat> {
    if Digit(u) then Some(u - 48)
    else if 97 <= u <= 102 then Some(u - 97 + 10)
    else None
  }

  function ParseUnicode(t: Text): Option<Unit> {
    if |t| < 4 then None
    else
      match (HexValue(t[0]), HexValue(t[1]), HexValue(t[2]), HexValue(t[3]))
      case (Some(a), Some(b), Some(c), Some(d)) =>
        if a < 16 && b < 16 && c < 16 && d < 16 then Some(a * 4096 + b * 256 + c * 16 + d) else None
      case _ => None
  }

  function ParseShortEscape(u: Unit): Option<Unit> {
    if u == QUOTE || u == BACKSLASH then Some(u)
    else if u == 98 then Some(8)
    else if u == 116 then Some(9)
    else if u == 110 then Some(10)
    else if u == 102 then Some(12)
    else if u == 114 then Some(13)
    else None
  }

  function PrependUnit(u: Unit, r: Option<(Text, Text)>): (r': Option<(Text, Text)>)
    ensures r'.Some? ==> r.Some? && r'.value.1 == r.value.1
  {
    match r
    case None => None
    case Some((s, rest)) => Some(([u] + s, rest))
  }

  /** The rest of a string after its opening quote. */
  function ParseString(t: Text): (r: Option<(Text, Text)>)
    ensures r.Some? ==> |r.value.1| < |t|
  {
    if t == [] then None
    else if t[0] == QUOTE then Some(([], t[1..]))
    else if t[0] != BACKSLASH then PrependUnit(t[0], ParseString(t[1..]))
    else if |t| == 1 then None
    else if t[1] == LETTER_U then
      match ParseUnicode(t[2..])
      case None => None
      case Some(u) => PrependUnit(u, ParseString(t[6..]))
    else
      match ParseShortEscape(t[1])
      case None => None
      case Some(u) => PrependUnit(u, ParseString(t[2..]))
  }

  /** Length of the longest number-like prefix. */
  function NumberLength(t: Text): (n: nat)
    ensures n <= |t| && forall i :: 0 <= i < n ==> NumberUnit(t[i])
    ensures n < |t| ==> !NumberUnit(t[n])
  {
    if t == [] || !NumberUnit(t[0]) then 0 else 1 + NumberLength(t[1..])
  }

  function ParseValue(t: Text): (r: Option<(Tree, Text)>)
    ensures r.Some? ==> |r.value.1| < |t|
    decreases |t|, 0
  {
    if t == [] then None
    else if t[0] == QUOTE then
      (match ParseString(t[1..])
       case None => None
       case Some((s, rest)) => Some((TStr(s), rest)))
    else if t[0] == OPEN_BRACKET then
      if |t| > 1 && t[1] == CLOSE_BRACKET then Some((TArr([]), t[2..]))
      else
        (match ParseItems(t[1..])
         case None => None
         case Some((items, rest)) => Some((TArr(items), rest)))
    else if t[0] == OPEN_BRACE then
      if |t| > 1 && t[1] == CLOSE_BRACE then Some((TObj(map[]), t[2..]))
      else
        (match ParseFields(t[1..])
         case None => None
         case Some((fields, rest)) => Some((TObj(fields), rest)))
    else if NULL_TEXT <= t then Some((TNull, t[4..]))
    else if TRUE_TEXT <= t then Some((TBool(true), t[4..]))
    else if FALSE_TEXT <= t then Some((TBool(false), t[5..]))
    else if Digit(t[0]) || t[0] == 45 then Some((TNum(t[..NumberLength(t)]), t[NumberLength(t)..]))
    else None
  }

  function ParseItems(t: Text): (r: Option<(seq<Tree>, Text)>)
    ensures r.Some? ==> |r.value.1| < |t|
    decreases |t|, 1
  {
    match ParseValue(t)
    case None => None
    case Some((item, more)) =>
      if more == [] then None
      else if more[0] == CLOSE_BRACKET then Some(([item], more[1..]))
      else if more[0] == COMMA then
        (match ParseItems(more[1..])
         case None => None
         case Some((items, rest)) => Some(([item] + items, rest)))
      else None
  }

  function ParseFields(t: Text): (r: Option<(map<Text, Tree>, Text)>)
    ensures r.Some? ==> |r.value.1| < |t|
    decreases |t|, 1
  {
    if t == [] || t[0] != QUOTE then None
    else
      match ParseString(t[1..])
      case None => None
      case Some((key, afterKey)) =>
        if afterKey == [] || afterKey[0] != COLON then None
        else
          match ParseValue(afterKey[1..])
          case None => None
          case Some((value, more)) =>
            if more == [] then None
            else if more[0] == CLOSE_BRACE then Some((map[key := value], more[1..]))
            else if more[0] == COMMA then
              (match ParseFields(more[1..])
               case None => None
               case Some((fields, rest)) => Some((fields[key := value], rest)))
            else None
  }

  // ---- strings ----

  lemma {:induction false} HexRoundTrip(n: nat)
    requires n < 16
    ensures HexValue(HexDigit(n)) == Some(n)
  {
  }

  lemma {:induction false} FourHexDigits(u: Unit)
    ensures u == u / 4096 * 4096 + u / 256 % 16 * 256 + u / 16 % 16 * 16 + u % 16
  {
    assert u / 256 == (u / 256) / 16 * 16 + u / 256 % 16 && (u / 256) / 16 == u / 4096;
    assert u / 16 == (u / 16) / 16 * 16 + u / 16 % 16 && (u / 16) / 16 == u / 256;
  }

  lemma {:induction false} UnicodeRoundTrip(u: Unit, rest: Text)
    ensures ParseUnicode((UnicodeEscape(u) + rest)[2..]) == Some(u)
  {
    FourHexDigits(u);
    hide HexValue, HexDigit;
    var t := (UnicodeEscape(u) + rest)[2..];
    assert t[0] == HexDigit(u / 4096) && t[1] == HexDigit(u / 256 % 16) && t[2] == HexDigit(u / 16 % 16) && t[3] == HexDigit(u % 16);
    HexRoundTrip(u / 4096);
    HexRoundTrip(u / 256 % 16);
    HexRoundTrip(u / 16 % 16);
    HexRoundTrip(u % 16);
  }

  lemma {:induction false} UnicodeEscapeReads(u: Unit, rest: Text)
    ensures ParseString(UnicodeEscape(u) + rest) == PrependUnit(u, ParseString(rest))
  {
    UnicodeRoundTrip(u, rest);
    hide HexDigit, ParseUnicode;
    assert (UnicodeEscape(u) + rest)[6..] == rest;
  }

  lemma {:induction false} ShortEscapeReads(letter: Unit, u: Unit, rest: Text)
    requires letter != LETTER_U && ParseShortEscape(letter) == Some(u)
    ensures ParseString([BACKSLASH, letter] + rest) == PrependUnit(u, ParseString(rest))
  {
    hide ParseShortEscape;
    assert ([BACKSLASH, letter] + rest)[2..] == rest;
  }

  lemma {:induction false} EscapedUnitReads(u: Unit, rest: Text)
    ensures ParseString(EscapeUnit(u) + rest) == PrependUnit(u, ParseString(rest))
  {
    hide ParseString, UnicodeEscape;
    if EscapeUnit(u) == UnicodeEscape(u) {
      UnicodeEscapeReads(u, rest);
    } else if |EscapeUnit(u)| == 2 {
      ShortEscapeReads(EscapeUnit(u)[1], u, rest);
    } else {
      RawUnitReads(u, rest);
    }
  }

  lemma {:induction false} QuoteEndsString(rest: Text)
    ensures ParseString([QUOTE] + rest) == Some(([], rest))
  {
  }

  lemma {:induction false} RawUnitReads(u: Unit, rest: Text)
    requires u != QUOTE && u != BACKSLASH
    ensures ParseString([u] + rest) == PrependUnit(u, ParseString(rest))
  {
    assert ([u] + rest)[1..] == rest;
  }

  lemma {:induction false} Regroup(a: Text, b: Text, c: Text, d: Text)
    ensures a + b + c + d == a + (b + c + d)
  {
  }

  /** Every string, lone surrogates included, comes back from its quoted form. */
  lemma {:induction false} EscapedStringReads(s: Text, rest: Text)
    ensures ParseString(Escape(s) + [QUOTE] + rest) == Some((s, rest))
  {
    hide ParseString, EscapeUnit;
    if s == [] {
      QuoteEndsString(rest);
      assert Escape(s) + [QUOTE] + rest == [QUOTE] + rest;
    } else if |s| > 1 && HighSurrogate(s[0]) && LowSurrogate(s[1]) {
      EscapedStringReads(s[2..], rest);
      var tail := Escape(s[2..]) + [QUOTE] + rest;
      RawUnitReads(s[1], tail);
      RawUnitReads(s[0], [s[1]] + tail);
      Regroup([s[0], s[1]], Escape(s[2..]), [QUOTE], rest);
      assert [s[0], s[1]] + tail == [s[0]] + ([s[1]] + tail);
      assert s == [s[0]] + ([s[1]] + s[2..]);
    } else {
      EscapedStringReads(s[1..], rest);
      EscapedUnitReads(s[0], Escape(s[1..]) + [QUOTE] + rest);
      Regroup(EscapeUnit(s[0]), Escape(s[1..]), [QUOTE], rest);
      assert s == [s[0]] + s[1..];
    }
  }

  // ---- values ----

  /** What may follow a value: nothing that could continue a number. */
  predicate Delimited(rest: Text) {
    rest == [] || !NumberUnit(rest[0])
  }

  lemma {:induction false} NumberLengthStops(token: Text, rest: Text)
    requires forall i :: 0 <= i < |token| ==> NumberUnit(token[i])
    requires Delimited(rest)
    ensures NumberLength(token + rest) == |token|
  {
    if token == [] {
      assert token + rest == rest;
    } else {
      assert (token + rest)[1..] == token[1..] + rest;
      NumberLengthStops(token[1..], rest);
    }
  }

  lemma {:induction false} NumberReads(token: Text, rest: Text)
    requires NumberText(token) && Delimited(rest)
    ensures ParseValue(token + rest) == Some((TNum(token), rest))
  {
    var t := token + rest;
    NumberLengthStops(token, rest);
    assert t[..|token|] == token && t[|token|..] == rest;
    assert t[0] == token[0];
  }

  lemma {:induction false} WordReads(word: Text, rest: Text)
    requires word in {NULL_TEXT, TRUE_TEXT, FALSE_TEXT}
    ensures word <= word + rest && (word + rest)[|word|..] == rest
    ensures word == NULL_TEXT ==> ParseValue(word + rest) == Some((TNull, rest))
    ensures word == TRUE_TEXT ==> ParseValue(word + rest) == Some((TBool(true), rest))
    ensures word == FALSE_TEXT ==> ParseValue(word + rest) == Some((TBool(false), rest))
  {
  }

  lemma {:induction false} StringReads(s: Text, rest: Text)
    ensures ParseValue(Quoted(s) + rest) == Some((TStr(s), rest))
  {
    EscapedStringReads(s, rest);
    assert (Quoted(s) + rest)[1..] == Escape(s) + [QUOTE] + rest;
  }

  /** No value prints as something that starts like a closing bracket or a continued number. */
  lemma {:induction false} StableStarts(j: Json)
    requires Valid(j)
    ensures |Stable(j)| > 0 && Stable(j)[0] != CLOSE_BRACKET
  {
  }

  /** Parsing the canonical text of a value returns its meaning and stops exactly behind it. */
  lemma {:induction false} StableReads(j: Json, rest: Text)
    requires Valid(j) && Delimited(rest)
    ensures ParseValue(Stable(j) + rest) == Some((Meaning(j), rest))
    decreases j, 0
  {
    match j
    case Null => WordReads(NULL_TEXT, rest);
    case Bool(b) => WordReads(if b then TRUE_TEXT else FALSE_TEXT, rest);
    case Num(token) => NumberReads(token, rest);
    case Str(s) => StringReads(s, rest);
    case Arr(items) =>
      var t := Stable(j) + rest;
      if items == [] {
        assert t == [OPEN_BRACKET, CLOSE_BRACKET] + rest;
      } else {
        assert t[1..] == StableItems(items) + [CLOSE_BRACKET] + rest;
        ItemsRead(items, rest);
        StableStarts(items[0]);
        assert t[1] == Stable(items[0])[0];
      }
    case Obj(fields) =>
      ObjectReads(fields, rest);
  }

  lemma {:induction false} ItemsRead(items: seq<Json>, rest: Text)
    requires items != [] && forall i :: 0 <= i < |items| ==> Valid(items[i])
    ensures ParseItems(StableItems(items) + [CLOSE_BRACKET] + rest) == Some((MeaningOfItems(items), rest))
    decreases items, 1
  {
    hide ParseValue, Meaning, Stable, Valid;
    var t := StableItems(items) + [CLOSE_BRACKET] + rest;
    if |items| == 1 {
      assert t == Stable(items[0]) + ([CLOSE_BRACKET] + rest);
      StableReads(items[0], [CLOSE_BRACKET] + rest);
      assert MeaningOfItems(items) == [Meaning(items[0])];
    } else {
      var more := StableItems(items[1..]) + [CLOSE_BRACKET] + rest;
      Regroup(Stable(items[0]) + [COMMA], StableItems(items[1..]), [CLOSE_BRACKET], rest);
      assert t == Stable(items[0]) + ([COMMA] + more);
      StableReads(items[0], [COMMA] + more);
      ItemsRead(items[1..], rest);
      assert ([COMMA] + more)[1..] == more;
    }
  }

  // ---- objects ----

  lemma {:induction false} StableFieldsAre(fields: seq<Field>)
    ensures |StableFields(fields)| == |fields|
    ensures forall i :: 0 <= i < |fields| ==> StableFields(fields)[i] == PrintedOf(fields[i])
  {
    if fields != [] {
      StableFieldsAre(fields[1..]);
    }
  }

  lemma {:induction false} MeaningOfFieldsIs(fields: seq<Field>)
    requires DistinctKeys(fields)
    ensures forall k :: k in MeaningOfFields(fields) <==> exists i :: 0 <= i < |fields| && fields[i].key == k
    ensures forall i :: 0 <= i < |fields| ==>
              fields[i].key in MeaningOfFields(fields) && MeaningOfFields(fields)[fields[i].key] == Meaning(fields[i].value)
  {
    if fields != [] {
      MeaningOfFieldsIs(fields[1..]);
      assert forall i :: 0 < i < |fields| ==> fields[i] == fields[1..][i - 1];
    }
  }

  /** The printed fields all come from `fields`. */
  ghost predicate From(ps: seq<Printed>, fields: seq<Field>) {
    forall n :: 0 <= n < |ps| ==> exists i :: 0 <= i < |fields| && ps[n] == PrintedOf(fields[i])
  }

  /** The map holds exactly the printed keys, each with the meaning it has in `fields`. */
  ghost predicate Holds(m: map<Text, Tree>, ps: seq<Printed>, fields: seq<Field>) {
    && (forall k :: k in m <==> exists n :: 0 <= n < |ps| && ps[n].key == k)
    && (forall i :: 0 <= i < |fields| && fields[i].key in m ==> m[fields[i].key] == Meaning(fields[i].value))
  }

  lemma {:induction false} FieldsRead(fields: seq<Field>, ps: seq<Printed>, rest: Text)
    requires DistinctKeys(fields) && (forall i :: 0 <= i < |fields| ==> Valid(fields[i].value))
    requires ps != [] && From(ps, fields)
    ensures var r := ParseFields(JoinFields(ps) + [CLOSE_BRACE] + rest);
            r.Some? && r.value.1 == rest && Holds(r.value.0, ps, fields)
    decreases fields, 1, |ps|
  {
    hide ParseString, ParseValue, Stable, Quoted, Meaning, Valid, MeaningOfFields, Holds, From;
    FirstIsFrom(ps, fields);
    var t := JoinFields(ps) + [CLOSE_BRACE] + rest;
    var p := ps[0];
    var i :| 0 <= i < |fields| && p == PrintedOf(fields[i]);
    if |ps| == 1 {
      var more := [CLOSE_BRACE] + rest;
      FieldReads(fields[i].key, fields[i].value, more, t);
      assert more[1..] == rest;
      OneIsHeld(p, fields, i);
      assert [p] == ps;
    } else {
      var tail := JoinFields(ps[1..]) + [CLOSE_BRACE] + rest;
      FieldReads(fields[i].key, fields[i].value, [COMMA] + tail, t);
      assert ([COMMA] + tail)[1..] == tail;
      FieldsRead(fields, ps[1..], rest);
      var m := ParseFields(tail).value.0;
      assert ParseFields(t).value.0 == m[p.key := Meaning(fields[i].value)];
      AddingKeepsHeld(m, p, ps, fields, i);
    }
  }

  lemma {:induction false} FirstIsFrom(ps: seq<Printed>, fields: seq<Field>)
    requires ps != [] && From(ps, fields)
    ensures exists i :: 0 <= i < |fields| && ps[0] == PrintedOf(fields[i])
    ensures From(ps[1..], fields)
  {
    var p := ps[0];
    var i :| 0 <= i < |fields| && p == PrintedOf(fields[i]);
  }

  /** A single field read is a map that holds it. */
  lemma {:induction false} OneIsHeld(p: Printed, fields: seq<Field>, i: nat)
    requires i < |fields| && p == PrintedOf(fields[i]) && DistinctKeys(fields)
    ensures Holds(map[p.key := Meaning(fields[i].value)], [p], fields)
  {
    hide Stable, Meaning;
    assert [p][0] == p;
  }

  lemma {:induction false} AddingKeepsHeld(m: map<Text, Tree>, p: Printed, ps: seq<Printed>, fields: seq<Field>, i: nat)
    requires |ps| > 0 && ps[0] == p && Holds(m, ps[1..], fields) && DistinctKeys(fields)
    requires i < |fields| && p == PrintedOf(fields[i])
    ensures Holds(m[p.key := Meaning(fields[i].value)], ps, fields)
  {
    hide Stable, Meaning;
    var m' := m[p.key := Meaning(fields[i].value)];
    forall k
      ensures k in m' <==> exists n :: 0 <= n < |ps| && ps[n].key == k
    {
      if k in m {
        var n :| 0 <= n < |ps[1..]| && ps[1..][n].key == k;
        assert ps[n + 1].key == k;
      } else if n :| 0 < n < |ps| && ps[n].key == k {
        assert ps[1..][n - 1].key == k;
      }
    }
  }

  /** One field: key, colon, value. */
  lemma {:induction false} FieldReads(key: Text, value: Json, more: Text, t: Text)
    requires Valid(value) && Delimited(more) && t == Quoted(key) + [COLON] + Stable(value) + more
    ensures t[0] == QUOTE
    ensures ParseString(t[1..]) == Some((key, [COLON] + (Stable(value) + more)))
    ensures ParseValue(([COLON] + (Stable(value) + more))[1..]) == Some((Meaning(value), more))
    decreases value, 1
  {
    hide ParseString, ParseValue, Stable, Meaning, Escape, Valid;
    var afterKey := [COLON] + (Stable(value) + more);
    EscapedStringReads(key, afterKey);
    assert t[1..] == Escape(key) + [QUOTE] + afterKey;
    StableReads(value, more);
    assert afterKey[1..] == Stable(value) + more;
  }

  lemma {:induction false} FieldsAreFrom(ps: seq<Printed>, fields: seq<Field>)
    requires forall p :: p in ps <==> p in StableFields(fields)
    ensures From(ps, fields)
    ensures forall i :: 0 <= i < |fields| ==> PrintedOf(fields[i]) in ps
    ensures fields != [] <==> ps != []
  {
    hide PrintedOf;
    StableFieldsAre(fields);
    hide StableFields;
    forall n | 0 <= n < |ps|
      ensures exists i :: 0 <= i < |fields| && ps[n] == PrintedOf(fields[i])
    {
      assert ps[n] in ps;
      var i :| 0 <= i < |StableFields(fields)| && StableFields(fields)[i] == ps[n];
    }
    forall i | 0 <= i < |fields|
      ensures PrintedOf(fields[i]) in ps
    {
      assert StableFields(fields)[i] in StableFields(fields);
    }
    if fields != [] {
      assert PrintedOf(fields[0]) in ps;
    }
    if ps != [] {
      var i :| 0 <= i < |fields| && ps[0] == PrintedOf(fields[i]);
    }
  }

  lemma {:induction false} JoinedFieldsStart(ps: seq<Printed>)
    requires ps != []
    ensures |JoinFields(ps)| > 0 && JoinFields(ps)[0] == QUOTE
  {
    hide Escape;
  }

  lemma {:induction false} EmptyObjectReads(rest: Text)
    ensures ParseValue(Stable(Obj([])) + rest) == Some((TObj(MeaningOfFields([])), rest))
  {
    assert Stable(Obj([])) == [OPEN_BRACE, CLOSE_BRACE];
  }

  lemma {:induction false} ObjectReads(fields: seq<Field>, rest: Text)
    requires DistinctKeys(fields) && (forall i :: 0 <= i < |fields| ==> Valid(fields[i].value))
    ensures ParseValue(Stable(Obj(fields)) + rest) == Some((TObj(MeaningOfFields(fields)), rest))
    decreases fields, 2
  {
    hide ParseFields, Sort, StableFields, MeaningOfFields, Valid, JoinFields, From, Holds;
    var ps := Sort(StableFields(fields), KeyLeq);
    SortPermutes(StableFields(fields), KeyLeq);
    StableFieldsAre(fields);
    FieldsAreFrom(ps, fields);
    var t := Stable(Obj(fields)) + rest;
    if fields == [] {
      EmptyObjectReads(rest);
    } else {
      assert t[1..] == JoinFields(ps) + [CLOSE_BRACE] + rest;
      JoinedFieldsStart(ps);
      assert t[1] == JoinFields(ps)[0];
      FieldsRead(fields, ps, rest);
      var m := ParseFields(t[1..]).value.0;
      AllFieldsAreHeld(m, ps, fields);
    }
  }

  lemma {:induction false} KeyIsPrinted(field: Field)
    ensures PrintedOf(field).key == field.key
  {
  }

  lemma {:induction false} HeldKeysAreFields(m: map<Text, Tree>, ps: seq<Printed>, fields: seq<Field>, k: Text)
    requires Holds(m, ps, fields) && From(ps, fields) && k in m
    ensures exists i :: 0 <= i < |fields| && fields[i].key == k
  {
    hide PrintedOf;
    var n :| 0 <= n < |ps| && ps[n].key == k;
    var i :| 0 <= i < |fields| && ps[n] == PrintedOf(fields[i]);
    KeyIsPrinted(fields[i]);
  }

  lemma {:induction false} FieldKeysAreHeld(m: map<Text, Tree>, ps: seq<Printed>, fields: seq<Field>, i: nat)
    requires Holds(m, ps, fields) && i < |fields| && PrintedOf(fields[i]) in ps
    ensures fields[i].key in m
  {
    hide PrintedOf;
    var n :| 0 <= n < |ps| && ps[n] == PrintedOf(fields[i]);
    KeyIsPrinted(fields[i]);
  }

  lemma {:induction false} AllFieldsAreHeld(m: map<Text, Tree>, ps: seq<Printed>, fields: seq<Field>)
    requires Holds(m, ps, fields) && DistinctKeys(fields) && From(ps, fields)
    requires forall i :: 0 <= i < |fields| ==> PrintedOf(fields[i]) in ps
    ensures m == MeaningOfFields(fields)
  {
    hide PrintedOf, Meaning, MeaningOfFields, From;
    MeaningOfFieldsIs(fields);
    forall k | k in m
      ensures k in MeaningOfFields(fields)
    {
      HeldKeysAreFields(m, ps, fields, k);
    }
    forall k | k in MeaningOfFields(fields)
      ensures k in m && m[k] == MeaningOfFields(fields)[k]
    {
      var i :| 0 <= i < |fields| && fields[i].key == k;
      FieldKeysAreHeld(m, ps, fields, i);
    }
    assert m.Keys == MeaningOfFields(fields).Keys;
  }

  /** The parser inverts the printer, up to the order of object fields. */
  lemma {:induction false} ParseInvertsStable(j: Json)
    requires Valid(j)
    ensures ParseValue(Stable(j)) == Some((Meaning(j), []))
  {
    StableReads(j, []);
    assert Stable(j) + [] == Stable(j);
  }

  // ---- the text does not depend on the order of fields ----

  lemma {:induction false} TextLeqIsTransitive(a: Text, b: Text, c: Text)
    requires TextLeq(a, b) && TextLeq(b, c)
    ensures TextLeq(a, c)
  {
    if a != [] && a[0] == b[0] == c[0] {
      TextLeqIsTransitive(a[1..], b[1..], c[1..]);
    }
  }

  lemma {:induction false} TextLeqIsTotal(a: Text, b: Text)
    ensures TextLeq(a, b) || TextLeq(b, a)
    ensures TextLeq(a, b) && TextLeq(b, a) ==> a == b
  {
    if a != [] && b != [] && a[0] == b[0] {
      TextLeqIsTotal(a[1..], b[1..]);
      assert a == [a[0]] + a[1..] && b == [b[0]] + b[1..];
    }
  }

  lemma {:induction false} KeyLeqIsTotal()
    ensures TotalPreorder(KeyLeq)
  {
    forall p, q ensures KeyLeq(p, q) || KeyLeq(q, p) {
      TextLeqIsTotal(p.key, q.key);
    }
    forall p, q, r | KeyLeq(p, q) && KeyLeq(q, r) ensures KeyLeq(p, r) {
      TextLeqIsTransitive(p.key, q.key, r.key);
    }
  }

  lemma {:induction false} SameKeySameField(m: map<Text, Tree>, fields: seq<Field>, k: Text) returns (i: nat)
    requires DistinctKeys(fields) && MeaningOfFields(fields) == m && k in m
    ensures i < |fields| && fields[i].key == k && Meaning(fields[i].value) == m[k]
  {
    hide Meaning;
    MeaningOfFieldsIs(fields);
    i :| 0 <= i < |fields| && fields[i].key == k;
  }

  /** Values with the same meaning print the same text. */
  lemma {:induction false} SameMeaningSameText(a: Json, b: Json)
    requires Valid(a) && Valid(b) && Meaning(a) == Meaning(b)
    ensures Stable(a) == Stable(b)
    decreases a, 0
  {
    match a
    case Arr(items) => SameItemsSameText(items, b.items);
    case Obj(fields) => SameFieldsSameText(fields, b.fields);
    case _ =>
  }

  lemma {:induction false} SameItemsSameText(a: seq<Json>, b: seq<Json>)
    requires (forall i :: 0 <= i < |a| ==> Valid(a[i])) && (forall i :: 0 <= i < |b| ==> Valid(b[i]))
    requires MeaningOfItems(a) == MeaningOfItems(b)
    ensures StableItems(a) == StableItems(b)
    decreases a, 1
  {
    if a != [] && b != [] {
      assert MeaningOfItems(a)[0] == MeaningOfItems(b)[0] && MeaningOfItems(a)[1..] == MeaningOfItems(b)[1..];
      SameMeaningSameText(a[0], b[0]);
      SameItemsSameText(a[1..], b[1..]);
      MeaningCountsItems(a);
      MeaningCountsItems(b);
    }
  }

  lemma {:induction false} MeaningCountsItems(items: seq<Json>)
    ensures |MeaningOfItems(items)| == |items|
  {
    if items != [] {
      MeaningCountsItems(items[1..]);
    }
  }

  lemma {:induction false} SameFieldsSameText(a: seq<Field>, b: seq<Field>)
    requires DistinctKeys(a) && (forall i :: 0 <= i < |a| ==> Valid(a[i].value))
    requires DistinctKeys(b) && (forall i :: 0 <= i < |b| ==> Valid(b[i].value))
    requires MeaningOfFields(a) == MeaningOfFields(b)
    ensures Stable(Obj(a)) == Stable(Obj(b))
    decreases a, 1
  {
    hide Stable, Meaning, MeaningOfFields, Valid, StableFields, PrintedOf;
    var pa, pb := StableFields(a), StableFields(b);
    forall p | p in pa ensures p in pb {
      PrintedElsewhere(a, b, p);
    }
    forall p | p in pb ensures p in pa {
      PrintedHere(a, b, p);
    }
    SameBags(a, b);
    KeyLeqIsTotal();
    PrintedTiesAreEqual(a);
    SortForgetsOrder(pa, pb, KeyLeq);
    ObjectText(a);
    ObjectText(b);
  }

  lemma {:induction false} ObjectText(fields: seq<Field>)
    ensures Stable(Obj(fields)) == [OPEN_BRACE] + JoinFields(Sort(StableFields(fields), KeyLeq)) + [CLOSE_BRACE]
  {
  }

  lemma {:induction false} PrintedElsewhere(a: seq<Field>, b: seq<Field>, p: Printed)
    requires DistinctKeys(a) && (forall i :: 0 <= i < |a| ==> Valid(a[i].value))
    requires DistinctKeys(b) && (forall i :: 0 <= i < |b| ==> Valid(b[i].value))
    requires MeaningOfFields(a) == MeaningOfFields(b) && p in StableFields(a)
    ensures p in StableFields(b)
    decreases a, 0
  {
    hide Stable, Meaning, MeaningOfFields, Valid, StableFields;
    StableFieldsAre(a);
    StableFieldsAre(b);
    MeaningOfFieldsIs(a);
    var n :| 0 <= n < |a| && StableFields(a)[n] == p;
    var i := SameKeySameField(MeaningOfFields(b), b, a[n].key);
    SameMeaningSameText(a[n].value, b[i].value);
    assert StableFields(b)[i] == PrintedOf(b[i]);
  }

  lemma {:induction false} PrintedHere(a: seq<Field>, b: seq<Field>, p: Printed)
    requires DistinctKeys(a) && (forall i :: 0 <= i < |a| ==> Valid(a[i].value))
    requires DistinctKeys(b) && (forall i :: 0 <= i < |b| ==> Valid(b[i].value))
    requires MeaningOfFields(a) == MeaningOfFields(b) && p in StableFields(b)
    ensures p in StableFields(a)
    decreases a, 0
  {
    hide Stable, Meaning, MeaningOfFields, Valid, StableFields;
    StableFieldsAre(a);
    StableFieldsAre(b);
    MeaningOfFieldsIs(b);
    var n :| 0 <= n < |b| && StableFields(b)[n] == p;
    var i := SameKeySameField(MeaningOfFields(a), a, b[n].key);
    SameMeaningSameText(a[i].value, b[n].value);
    assert StableFields(a)[i] == PrintedOf(a[i]);
  }

  lemma {:induction false} PrintedTiesAreEqual(fields: seq<Field>)
    requires DistinctKeys(fields)
    ensures TiesAreEqual(StableFields(fields), KeyLeq)
    ensures forall i, k :: 0 <= i < k < |StableFields(fields)| ==> StableFields(fields)[i] != StableFields(fields)[k]
  {
    hide Stable, TextLeq;
    StableFieldsAre(fields);
    hide StableFields;
    forall p, q | p in StableFields(fields) && q in StableFields(fields) && KeyLeq(p, q) && KeyLeq(q, p)
      ensures p == q
    {
      TextLeqIsTotal(p.key, q.key);
    }
  }

  lemma {:induction false} SameBags(a: seq<Field>, b: seq<Field>)
    requires DistinctKeys(a) && DistinctKeys(b)
    requires forall p :: p in StableFields(a) <==> p in StableFields(b)
    ensures multiset(StableFields(a)) == multiset(StableFields(b))
  {
    hide TiesAreEqual;
    PrintedTiesAreEqual(a);
    PrintedTiesAreEqual(b);
    DistinctBag(StableFields(a));
    DistinctBag(StableFields(b));
  }

  lemma {:induction false} DistinctBag(ps: seq<Printed>)
    requires forall i, k :: 0 <= i < k < |ps| ==> ps[i] != ps[k]
    ensures forall p :: multiset(ps)[p] == if p in ps then 1 else 0
  {
    if ps != [] {
      DistinctBag(ps[1..]);
      assert ps == [ps[0]] + ps[1..];
    }
  }

  /** Two values print the same text exactly when they are equal up to the order of fields at every depth. */
  lemma {:induction false} StableIsCanonical(a: Json, b: Json)
    requires Valid(a) && Valid(b)
    ensures Stable(a) == Stable(b) <==> Meaning(a) == Meaning(b)
  {
    ParseInvertsStable(a);
    ParseInvertsStable(b);
    if Meaning(a) == Meaning(b) {
      SameMeaningSameText(a, b);
    }
  }
}
