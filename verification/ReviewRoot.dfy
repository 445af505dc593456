/** The review root hash: one digest over the files a transaction package is bound to and its calldata. */
module ReviewRoot {
  import opened Basics
  import opened Sorting
  import opened StableJson
  import opened StableOrder

  const BAR: Unit := 124
  const MISSING: Text := [77, 73, 83, 83, 73, 78, 71]
  const CALLDATA: Text := [99, 97, 108, 108, 100, 97, 116, 97]

  type Bytes = seq<Byte>

  /** SHA-256 of file contents and of text, in lower-case hex. */
  datatype Hashes = Hashes(file: Bytes -> Text, text: Text -> Text)

  predicate HexText(t: Text) {
    |t| == 64 && forall i :: 0 <= i < |t| ==> Digit(t[i]) || 97 <= t[i] <= 102
  }

  ghost predicate HexDigests(h: Hashes) {
    (forall a :: HexText(h.file(a))) && (forall a :: HexText(h.text(a)))
  }

  /** What one binding says: this name, with this content or none. */
  datatype Claim = Claim(name: Text, content: Option<Bytes>)

  function ClaimOf(name: Text, files: map<Text, Bytes>): Claim {
    Claim(name, if name in files then Some(files[name]) else None)
  }

  function Claims(names: seq<Text>, files: map<Text, Bytes>): seq<Claim> {
    seq(|names|, i requires 0 <= i < |names| => ClaimOf(names[i], files))
  }

  function Piece(h: Hashes, c: Claim): Text {
    c.name + [COLON] + match c.content
                       case None => MISSING
                       case Some(bytes) => h.file(bytes)
  }

  function Pieces(h: Hashes, claims: seq<Claim>): seq<Text> {
    seq(|claims|, i requires 0 <= i < |claims| => Piece(h, claims[i]))
  }

  function Join(pieces: seq<Text>): Text
    requires pieces != []
  {
    if |pieces| == 1 then pieces[0] else pieces[0] + [BAR] + Join(pieces[1..])
  }

  function RootText(h: Hashes, claims: seq<Claim>, calldata: Text): Text {
    Join(Sort(Pieces(h, claims), TextLeq) + [CALLDATA + [COLON] + h.text(calldata)])
  }

  /** What is hashed on the way to a root: file contents and texts. */
  datatype Preimages = Preimages(contents: set<Bytes>, texts: set<Text>)

  function Hashed(h: Hashes, claims: seq<Claim>, calldata: Text): Preimages {
    Preimages(set c | c in claims && c.content.Some? :: c.content.value, {calldata, RootText(h, claims, calldata)})
  }

  function Union(p: Preimages, q: Preimages): Preimages {
    Preimages(p.contents + q.contents, p.texts + q.texts)
  }

  /** No two of these inputs have the same digest. Over all inputs there are of course collisions. */
  predicate NoCollision(h: Hashes, p: Preimages) {
    && (forall a, b :: a in p.contents && b in p.contents && h.file(a) == h.file(b) ==> a == b)
    && (forall a, b :: a in p.texts && b in p.texts && h.text(a) == h.text(b) ==> a == b)
  }

  function ReviewRootHash(h: Hashes, names: seq<Text>, files: map<Text, Bytes>, calldata: Text): Text {
    h.text(RootText(h, Claims(names, files), calldata))
  }

  method ComputeReviewRootHash(h: Hashes, names: seq<Text>, files: map<Text, Bytes>, calldata: Text) returns (root: Text)
    ensures root == ReviewRootHash(h, names, files, calldata)
  {
    var pieces: seq<Text> := [];
    for i := 0 to |names|
      invariant pieces == Pieces(h, Claims(names[..i], files))
    {
      var rel := names[i];
      if rel in files {
        pieces := pieces + [rel + [COLON] + h.file(files[rel])];
      } else {
        pieces := pieces + [rel + [COLON] + MISSING];
      }
    }
    assert names[..|names|] == names;
    pieces := Sort(pieces, TextLeq);
    pieces := pieces + [CALLDATA + [COLON] + h.text(calldata)];
    root := h.text(Join(pieces));
  }

  // ---- splitting the text again ----

  predicate Free(t: Text, u: Unit) {
    u !in t
  }

  lemma FirstSeparatorSplits(x: Text, y: Text, r: Text, r': Text, u: Unit)
    requires Free(x, u) && Free(y, u) && x + [u] + r == y + [u] + r'
    ensures x == y && r == r'
  {
    var t := x + [u] + r;
    assert t[|x|] == u && t[|y|] == u;
    assert forall i :: 0 <= i < |x| ==> t[i] == x[i] && x[i] in x;
    assert forall i :: 0 <= i < |y| ==> t[i] == y[i] && y[i] in y;
    assert |x| == |y|;
    assert x == t[..|x|] && y == t[..|y|] && r == t[|x| + 1..] && r' == t[|y| + 1..];
  }

  lemma LastSeparatorSplits(x: Text, y: Text, r: Text, r': Text, u: Unit)
    requires Free(r, u) && Free(r', u) && x + [u] + r == y + [u] + r'
    ensures x == y && r == r'
  {
    var t := x + [u] + r;
    assert t[|x|] == u && t[|y|] == u;
    forall i | |x| < i < |t|
      ensures t[i] != u
    {
      assert t[i] == r[i - |x| - 1] && r[i - |x| - 1] in r;
    }
    forall i | |y| < i < |t|
      ensures t[i] != u
    {
      assert t[i] == r'[i - |y| - 1] && r'[i - |y| - 1] in r';
    }
    assert |x| == |y|;
    assert x == t[..|x|] && y == t[..|y|] && r == t[|x| + 1..] && r' == t[|y| + 1..];
  }

  ghost predicate AllFree(pieces: seq<Text>) {
    forall i :: 0 <= i < |pieces| ==> Free(pieces[i], BAR)
  }

  lemma BarIsInJoin(pieces: seq<Text>)
    requires |pieces| > 1
    ensures !Free(Join(pieces), BAR)
  {
    assert Join(pieces)[|pieces[0]|] == BAR;
  }

  lemma {:induction false} JoinIsInjective(a: seq<Text>, b: seq<Text>)
    requires a != [] && b != [] && AllFree(a) && AllFree(b) && Join(a) == Join(b)
    ensures a == b
  {
    if |a| > 1 && |b| > 1 {
      FirstSeparatorSplits(a[0], b[0], Join(a[1..]), Join(b[1..]), BAR);
      JoinIsInjective(a[1..], b[1..]);
      assert a == [a[0]] + a[1..] && b == [b[0]] + b[1..];
    } else if |a| > 1 {
      BarIsInJoin(a);
    } else if |b| > 1 {
      BarIsInJoin(b);
    }
  }

  // ---- what the hash binds ----

  lemma HexHasNoSeparators(t: Text)
    requires HexText(t)
    ensures Free(t, BAR) && Free(t, COLON) && t != MISSING
  {
  }

  lemma DigestHasNoSeparators(h: Hashes, c: Claim)
    requires HexDigests(h)
    ensures var d := Piece(h, c)[|c.name| + 1..]; Free(d, BAR) && Free(d, COLON) && Piece(h, c) == c.name + [COLON] + d
  {
    if c.content.Some? {
      HexHasNoSeparators(h.file(c.content.value));
    }
  }

  /** No two of the contents claimed have the same digest. */
  predicate Separated(h: Hashes, claims: seq<Claim>) {
    forall c, c' :: c in claims && c' in claims && c.content.Some? && c'.content.Some? ==>
      h.file(c.content.value) == h.file(c'.content.value) ==> c.content == c'.content
  }

  lemma PieceIsInjective(h: Hashes, claims: seq<Claim>, c: Claim, c': Claim)
    requires HexDigests(h) && Separated(h, claims) && c in claims && c' in claims && Piece(h, c) == Piece(h, c')
    ensures c == c'
  {
    DigestHasNoSeparators(h, c);
    DigestHasNoSeparators(h, c');
    LastSeparatorSplits(c.name, c'.name, Piece(h, c)[|c.name| + 1..], Piece(h, c')[|c'.name| + 1..], COLON);
    if c.content.Some? {
      HexHasNoSeparators(h.file(c.content.value));
    }
    if c'.content.Some? {
      HexHasNoSeparators(h.file(c'.content.value));
    }
  }

  ghost predicate SeparatorFree(claims: seq<Claim>) {
    forall i :: 0 <= i < |claims| ==> Free(claims[i].name, BAR)
  }

  lemma PiecesAreFree(h: Hashes, claims: seq<Claim>, i: nat)
    requires HexDigests(h) && SeparatorFree(claims) && i < |claims|
    ensures Free(Pieces(h, claims)[i], BAR)
  {
    DigestHasNoSeparators(h, claims[i]);
  }

  /** The lines that are joined: sorted pieces, then the calldata. */
  function Lines(h: Hashes, claims: seq<Claim>, calldata: Text): seq<Text> {
    Sort(Pieces(h, claims), TextLeq) + [CALLDATA + [COLON] + h.text(calldata)]
  }

  lemma LinesAreFree(h: Hashes, claims: seq<Claim>, calldata: Text)
    requires HexDigests(h) && SeparatorFree(claims)
    ensures AllFree(Lines(h, claims, calldata))
  {
    var lines := Lines(h, claims, calldata);
    SortPermutes(Pieces(h, claims), TextLeq);
    HexHasNoSeparators(h.text(calldata));
    forall i | 0 <= i < |lines|
      ensures Free(lines[i], BAR)
    {
      if i < |claims| {
        assert lines[i] in Sort(Pieces(h, claims), TextLeq);
        var k :| 0 <= k < |claims| && Pieces(h, claims)[k] == lines[i];
        PiecesAreFree(h, claims, k);
      }
    }
  }

  /** Within separated claims, a piece occurs as often as its claim. */
  lemma {:induction false} PiecesCountClaims(h: Hashes, all: seq<Claim>, claims: seq<Claim>, c: Claim)
    requires HexDigests(h) && Separated(h, all) && c in all && forall d :: d in claims ==> d in all
    ensures multiset(Pieces(h, claims))[Piece(h, c)] == multiset(claims)[c]
  {
    hide Piece, Separated;
    if claims != [] {
      var rest := claims[1..];
      PiecesCountClaims(h, all, rest, c);
      assert Pieces(h, claims) == [Piece(h, claims[0])] + Pieces(h, rest);
      assert claims == [claims[0]] + rest;
      if Piece(h, claims[0]) == Piece(h, c) {
        PieceIsInjective(h, all, claims[0], c);
      }
    }
  }

  lemma SamePiecesSameClaims(h: Hashes, a: seq<Claim>, b: seq<Claim>)
    requires HexDigests(h) && Separated(h, a + b) && multiset(Pieces(h, a)) == multiset(Pieces(h, b))
    ensures multiset(a) == multiset(b)
  {
    hide Piece, Pieces, HexDigests, Separated;
    forall c
      ensures multiset(a)[c] == multiset(b)[c]
    {
      if c in a + b {
        PiecesCountClaims(h, a + b, a, c);
        PiecesCountClaims(h, a + b, b, c);
      }
    }
  }

  lemma {:induction false} OnlyPiecesOccur(h: Hashes, claims: seq<Claim>, t: Text)
    requires forall c :: c in claims ==> Piece(h, c) != t
    ensures multiset(Pieces(h, claims))[t] == 0
  {
    if claims != [] {
      OnlyPiecesOccur(h, claims[1..], t);
      assert Pieces(h, claims) == [Piece(h, claims[0])] + Pieces(h, claims[1..]);
    }
  }

  lemma SameClaimsSamePieces(h: Hashes, a: seq<Claim>, b: seq<Claim>)
    requires HexDigests(h) && Separated(h, a + b) && multiset(a) == multiset(b)
    ensures multiset(Pieces(h, a)) == multiset(Pieces(h, b))
  {
    hide Piece, Pieces, HexDigests, Separated;
    assert forall c :: c in a + b <==> c in a || c in b;
    forall t
      ensures multiset(Pieces(h, a))[t] == multiset(Pieces(h, b))[t]
    {
      if c :| c in a + b && Piece(h, c) == t {
        PiecesCountClaims(h, a + b, a, c);
        PiecesCountClaims(h, a + b, b, c);
      } else {
        OnlyPiecesOccur(h, a, t);
        OnlyPiecesOccur(h, b, t);
      }
    }
  }

  lemma TextLeqIsAnOrder()
    ensures TotalPreorder(TextLeq)
    ensures forall a, b :: TextLeq(a, b) && TextLeq(b, a) ==> a == b
  {
    forall a, b ensures TextLeq(a, b) || TextLeq(b, a) {
      TextLeqIsTotal(a, b);
    }
    forall a, b | TextLeq(a, b) && TextLeq(b, a) ensures a == b {
      TextLeqIsTotal(a, b);
    }
    forall a, b, c | TextLeq(a, b) && TextLeq(b, c) ensures TextLeq(a, c) {
      TextLeqIsTransitive(a, b, c);
    }
  }

  lemma LiteralsAre()
    ensures [BAR] == Utf16("|") && [COLON] == Utf16(":") && MISSING == Utf16("MISSING") && CALLDATA == Utf16("calldata")
  {
  }

  /** What is hashed for the root: one line for each binding, its name and the digest of its content or MISSING, in
      ascending code unit order, then the line of the calldata, joined by bars. */
  lemma RootLinesAscend(h: Hashes, names: seq<Text>, files: map<Text, Bytes>, calldata: Text) returns (lines: seq<Text>)
    ensures |lines| == |names| + 1 && ReviewRootHash(h, names, files, calldata) == h.text(Join(lines))
    ensures lines[|names|] == Utf16("calldata:") + h.text(calldata)
    ensures forall i, j :: 0 <= i < j < |names| ==> lines[i] == lines[j] || Before(lines[i], lines[j])
    ensures multiset(lines[..|names|]) == multiset(seq(|names|, i requires 0 <= i < |names| =>
              names[i] + Utf16(":") + if names[i] in files then h.file(files[names[i]]) else Utf16("MISSING")))
  {
    hide Before, TextLeq, Sort, Join;
    var claims := Claims(names, files);
    var pieces := Pieces(h, claims);
    lines := Lines(h, claims, calldata);
    LiteralsAre();
    TextLeqIsAnOrder();
    SortSorts(pieces, TextLeq);
    SortPermutes(pieces, TextLeq);
    assert lines[..|names|] == Sort(pieces, TextLeq);
    assert Utf16("calldata:") == CALLDATA + [COLON];
    forall i, j | 0 <= i < j < |names|
      ensures lines[i] == lines[j] || Before(lines[i], lines[j])
    {
      TextLeqIsCodeUnitOrder(lines[i], lines[j]);
    }
    assert pieces == seq(|names|, i requires 0 <= i < |names| =>
      names[i] + Utf16(":") + if names[i] in files then h.file(files[names[i]]) else Utf16("MISSING"));
  }

  lemma SameLinesSameClaims(h: Hashes, a: seq<Claim>, b: seq<Claim>, calldata: Text, calldata': Text)
    requires HexDigests(h) && Separated(h, a + b) && Lines(h, a, calldata) == Lines(h, b, calldata')
    ensures multiset(a) == multiset(b) && h.text(calldata) == h.text(calldata')
  {
    hide Sort, Pieces, TextLeq, Separated;
    var la, lb := Lines(h, a, calldata), Lines(h, b, calldata');
    assert la[..|la| - 1] == Sort(Pieces(h, a), TextLeq) && lb[..|lb| - 1] == Sort(Pieces(h, b), TextLeq);
    SortPermutes(Pieces(h, a), TextLeq);
    SortPermutes(Pieces(h, b), TextLeq);
    SamePiecesSameClaims(h, a, b);
    assert la[|la| - 1] == lb[|lb| - 1];
    FirstSeparatorSplits(CALLDATA, CALLDATA, h.text(calldata), h.text(calldata'), COLON);
  }

  lemma HashedIsSeparated(h: Hashes, a: seq<Claim>, b: seq<Claim>, calldata: Text, calldata': Text)
    requires NoCollision(h, Union(Hashed(h, a, calldata), Hashed(h, b, calldata')))
    ensures Separated(h, a + b)
  {
    hide RootText;
    var p := Union(Hashed(h, a, calldata), Hashed(h, b, calldata'));
    forall c | c in a + b && c.content.Some?
      ensures c.content.value in p.contents
    {
    }
  }

  /** Two packages have the same review root exactly when they are bound to the same files, each name with the same
      content or missing in both, in whatever order, and have the same calldata; unless two of the inputs hashed on the
      way to the two roots collide. */
  lemma ReviewRootBindsExactly(h: Hashes, names: seq<Text>, files: map<Text, Bytes>, calldata: Text,
                               names': seq<Text>, files': map<Text, Bytes>, calldata': Text)
    requires HexDigests(h)
    requires NoCollision(h, Union(Hashed(h, Claims(names, files), calldata), Hashed(h, Claims(names', files'), calldata')))
    requires (forall i :: 0 <= i < |names| ==> Free(names[i], BAR)) && (forall i :: 0 <= i < |names'| ==> Free(names'[i], BAR))
    ensures ReviewRootHash(h, names, files, calldata) == ReviewRootHash(h, names', files', calldata') <==>
            multiset(Claims(names, files)) == multiset(Claims(names', files')) && calldata == calldata'
  {
    hide Sort, Pieces, TextLeq, Join, Separated, HexText;
    var a, b := Claims(names, files), Claims(names', files');
    var la, lb := Lines(h, a, calldata), Lines(h, b, calldata');
    assert RootText(h, a, calldata) == Join(la) && RootText(h, b, calldata') == Join(lb);
    HashedIsSeparated(h, a, b, calldata, calldata');
    if h.text(Join(la)) == h.text(Join(lb)) {
      LinesAreFree(h, a, calldata);
      LinesAreFree(h, b, calldata');
      JoinIsInjective(la, lb);
      SameLinesSameClaims(h, a, b, calldata, calldata');
    }
    if multiset(a) == multiset(b) {
      SameClaimsSamePieces(h, a, b);
      TextLeqIsAnOrder();
      SortForgetsOrder(Pieces(h, a), Pieces(h, b), TextLeq);
    }
  }

  lemma SameClaimsSameContent(names: seq<Text>, files: map<Text, Bytes>, files': map<Text, Bytes>, k: nat)
    requires multiset(Claims(names, files)) == multiset(Claims(names, files')) && k < |names|
    requires forall i, j :: 0 <= i < j < |names| ==> names[i] != names[j]
    ensures ClaimOf(names[k], files) == ClaimOf(names[k], files')
  {
    var a, b := Claims(names, files), Claims(names, files');
    assert a[k] in multiset(a);
    assert a[k] in multiset(b);
    var i :| 0 <= i < |b| && b[i] == a[k];
    assert names[i] == names[k];
  }

  /** For one list of distinct names, the root changes exactly when a bound file appears, disappears or changes, or
      the calldata changes; collisions among the hashed inputs aside. */
  lemma AnyChangeShows(h: Hashes, names: seq<Text>, files: map<Text, Bytes>, calldata: Text,
                       files': map<Text, Bytes>, calldata': Text)
    requires HexDigests(h) && (forall i :: 0 <= i < |names| ==> Free(names[i], BAR))
    requires NoCollision(h, Union(Hashed(h, Claims(names, files), calldata), Hashed(h, Claims(names, files'), calldata')))
    requires forall i, j :: 0 <= i < j < |names| ==> names[i] != names[j]
    ensures ReviewRootHash(h, names, files, calldata) == ReviewRootHash(h, names, files', calldata') <==>
            calldata == calldata' && forall k :: 0 <= k < |names| ==> ClaimOf(names[k], files) == ClaimOf(names[k], files')
  {
    hide ReviewRootHash, NoCollision, HexText, Hashed;
    ReviewRootBindsExactly(h, names, files, calldata, names, files', calldata');
    if multiset(Claims(names, files)) == multiset(Claims(names, files')) {
      forall k | 0 <= k < |names|
        ensures ClaimOf(names[k], files) == ClaimOf(names[k], files')
      {
        SameClaimsSameContent(names, files, files', k);
      }
    }
    if forall k :: 0 <= k < |names| ==> ClaimOf(names[k], files) == ClaimOf(names[k], files') {
      assert Claims(names, files) == Claims(names, files');
    }
  }

  // ---- the hypotheses hold of actual functions ----

  function Repeat(u: Unit): Text {
    seq(64, i => u)
  }

  const ZERO: Unit := 48
  const ONE: Unit := 49
  const TWO: Unit := 50

  /** A toy pair of 64-digit hashes: of a file whether it is empty, of a text its third character if that is a digit. */
  function ToyHashes(): Hashes {
    Hashes((content: Bytes) => Repeat(if content == [] then ZERO else ONE),
           (t: Text) => Repeat(if |t| > 2 && Digit(t[2]) then t[2] else TWO))
  }

  lemma ToyRoot(content: Bytes)
    ensures var files := map[[97] := content];
            var claims := Claims([[97]], files);
            && claims == [Claim([97], Some(content))]
            && |RootText(ToyHashes(), claims, [])| > 2
            && RootText(ToyHashes(), claims, [])[2] == if content == [] then ZERO else ONE
  {
    var h, claims := ToyHashes(), Claims([[97]], map[[97] := content]);
    var pieces := Pieces(h, claims);
    assert Piece(h, claims[0]) == [97] + [COLON] + h.file(content) == [97, COLON] + h.file(content);
    assert pieces == [[97, COLON] + h.file(content)];
    assert Sort(pieces[1..], TextLeq) == [];
    assert Sort(pieces, TextLeq) == pieces;
    var lines := pieces + [CALLDATA + [COLON] + h.text([])];
    assert Join(lines) == pieces[0] + [BAR] + Join(lines[1..]);
  }

  /** The hypotheses of the two results above can be met, and by two different files: the roots then differ. */
  lemma HypothesesAreMet()
    ensures var h, a, b := ToyHashes(), map[[97] := []], map[[97] := [0]];
            && HexDigests(h)
            && NoCollision(h, Union(Hashed(h, Claims([[97]], a), []), Hashed(h, Claims([[97]], b), [])))
            && ReviewRootHash(h, [[97]], a, []) != ReviewRootHash(h, [[97]], b, [])
  {
    hide RootText;
    ToyRoot([]);
    ToyRoot([0]);
    assert Repeat(ZERO)[0] == ZERO && Repeat(ONE)[0] == ONE && Repeat(TWO)[0] == TWO;
  }
}
