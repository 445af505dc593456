/** Binding encodings: the packed application commitment and the validator's score commitment.
    Hash functions are free constructors, so equal digests have equal preimages. */
module Commitments {
  import opened Basics

  type Address = a: seq<Byte> | |a| == 20 witness seq(20, i => 0)
  type Bytes32 = a: seq<Byte> | |a| == 32 witness seq(32, i => 0)
  /** A URI as the UTF-8 bytes that are packed and hashed. */
  type Uri = seq<Byte>

  datatype Digest = Keccak256(preimage: seq<Byte>)
  datatype TextDigest = Sha256Text(text: string)

  // ---- big-endian words ----

  function Pow256(k: nat): (p: nat)
    ensures p > 0
  {
    if k == 0 then 1 else 256 * Pow256(k - 1)
  }

  type UInt256 = n: nat | n < Pow256(32) witness (assert Pow256(32) > 0; 0)

  /** The `k` low-order bytes of `n`, most significant first. */
  function BigEndian(n: nat, k: nat): (bytes: seq<Byte>)
    ensures |bytes| == k
  {
    if k == 0 then [] else BigEndian(n / 256, k - 1) + [n % 256]
  }

  function FromBigEndian(bytes: seq<Byte>): nat {
    if bytes == [] then 0
    else 256 * FromBigEndian(bytes[..|bytes| - 1]) + bytes[|bytes| - 1]
  }

  lemma {:induction false} BigEndianRoundTrip(n: nat, k: nat)
    requires n < Pow256(k)
    ensures FromBigEndian(BigEndian(n, k)) == n
  {
    if k > 0 {
      assert n / 256 < Pow256(k - 1);
      BigEndianRoundTrip(n / 256, k - 1);
      var bytes := BigEndian(n, k);
      assert bytes[..|bytes| - 1] == BigEndian(n / 256, k - 1);
    }
  }

  // ---- keccak256(solidityPacked(uint256, address, string, bytes32)) ----

  datatype Application = Application(id: UInt256, agent: Address, uri: Uri, salt: Bytes32)

  function Pack(id: UInt256, agent: Address, uri: Uri, salt: Bytes32): seq<Byte> {
    BigEndian(id, 32) + agent + uri + salt
  }

  /** Inverse of `Pack`: only the URI has no fixed width, so the other fields are cut off both ends. */
  function Unpack(bytes: seq<Byte>): Option<Application> {
    if |bytes| < 84 then None
    else
      var id := FromBigEndian(bytes[..32]);
      if id < Pow256(32)
      then Some(Application(id, bytes[32..52], bytes[52..|bytes| - 32], bytes[|bytes| - 32..]))
      else None
  }

  lemma UnpackInvertsPack(id: UInt256, agent: Address, uri: Uri, salt: Bytes32)
    ensures Unpack(Pack(id, agent, uri, salt)) == Some(Application(id, agent, uri, salt))
  {
    var word := BigEndian(id, 32);
    var bytes := Pack(id, agent, uri, salt);
    BigEndianRoundTrip(id, 32);
    assert bytes[..32] == word;
    assert bytes[32..52] == agent;
    assert bytes[52..|bytes| - 32] == uri;
    assert bytes[|bytes| - 32..] == salt;
  }

  /** The most significant byte comes first. */
  lemma BigEndianReads()
    ensures BigEndian(0x010203, 3) == [1, 2, 3]
  {
    assert BigEndian(0x010203, 3) == BigEndian(0x0102, 2) + [3];
  }

  /** What is hashed: the id as 32 bytes, the agent's 20, the URI as it is, and the salt's 32. */
  lemma PackedLayout(id: UInt256, agent: Address, uri: Uri, salt: Bytes32)
    ensures var bytes := Pack(id, agent, uri, salt);
            && |bytes| == 84 + |uri|
            && FromBigEndian(bytes[..32]) == id
            && bytes[32..52] == agent && bytes[52..52 + |uri|] == uri && bytes[52 + |uri|..] == salt
  {
    UnpackInvertsPack(id, agent, uri, salt);
  }

  function ComputeCommitment(id: UInt256, agent: Address, uri: Uri, salt: Bytes32): Digest {
    Keccak256(Pack(id, agent, uri, salt))
  }

  /** A commitment opens in one way only. */
  lemma CommitmentBinds(id: UInt256, agent: Address, uri: Uri, salt: Bytes32,
                        id': UInt256, agent': Address, uri': Uri, salt': Bytes32)
    ensures ComputeCommitment(id, agent, uri, salt) == ComputeCommitment(id', agent', uri', salt')
            <==> id == id' && agent == agent' && uri == uri' && salt == salt'
  {
    UnpackInvertsPack(id, agent, uri, salt);
    UnpackInvertsPack(id', agent', uri', salt');
  }

  // ---- sha256(`${score}:${salt}`) ----

  /** Decimal text of an integer, as a template literal prints it. */
  function Digits(n: nat): (text: string)
    ensures text != []
    ensures forall c :: c in text ==> '0' <= c <= '9'
  {
    var last := ['0' + (n % 10) as char];
    if n < 10 then last else Digits(n / 10) + last
  }

  function Decimal(n: int): string {
    if n < 0 then "-" + Digits(-n) else Digits(n)
  }

  lemma {:induction false} DigitsInjective(m: nat, n: nat)
    requires Digits(m) == Digits(n)
    ensures m == n
    decreases m + n
  {
    var dm, dn := Digits(m), Digits(n);
    assert dm[|dm| - 1] == dn[|dn| - 1];
    assert dm[..|dm| - 1] == dn[..|dn| - 1];
    if m >= 10 && n >= 10 {
      assert dm[..|dm| - 1] == Digits(m / 10);
      assert dn[..|dn| - 1] == Digits(n / 10);
      DigitsInjective(m / 10, n / 10);
    }
  }

  lemma DecimalInjective(m: int, n: int)
    requires Decimal(m) == Decimal(n)
    ensures m == n
  {
    if m < 0 && n < 0 {
      assert Decimal(m)[1..] == Digits(-m) && Decimal(n)[1..] == Digits(-n);
      DigitsInjective(-m, -n);
    } else if m >= 0 && n >= 0 {
      DigitsInjective(m, n);
    } else if m < 0 {
      assert Digits(n)[0] in Digits(n);
    } else {
      assert Digits(m)[0] in Digits(m);
    }
  }

  function ScoreText(score: int, salt: string): string {
    Decimal(score) + ":" + salt
  }

  lemma ScoreTextsAre(salt: string)
    ensures ScoreText(0, salt) == "0:" + salt && ScoreText(87, salt) == "87:" + salt && ScoreText(100, salt) == "100:" + salt
    ensures ScoreText(-12, salt) == "-12:" + salt
  {
    assert Digits(8) == "8" && Digits(87) == "87" && Digits(10) == "10" && Digits(100) == "100" && Digits(12) == "12";
  }

  lemma DecimalHasNoColon(n: int)
    ensures ':' !in Decimal(n)
  {
  }

  /** Two texts cut at their first colon agree on both sides. */
  lemma SplitAtFirstColon(a: string, b: string, a': string, b': string)
    requires ':' !in a && ':' !in a'
    requires a + ":" + b == a' + ":" + b'
    ensures a == a' && b == b'
  {
    var t, t' := a + ":" + b, a' + ":" + b';
    assert t[|a|] == ':' && t'[|a'|] == ':';
    assert t[..|a|] == a && t'[..|a'|] == a';
    assert t[|a| + 1..] == b && t'[|a'| + 1..] == b';
  }

  function ComputeScoreCommitment(score: int, salt: string): TextDigest {
    Sha256Text(ScoreText(score, salt))
  }

  predicate VerifyScoreReveal(score: int, salt: string, expected: TextDigest) {
    ComputeScoreCommitment(score, salt) == expected
  }

  /** A revealed pair passes the check exactly when it is the committed pair. */
  lemma ScoreRevealOpensOnlyItsCommit(score: int, salt: string, score': int, salt': string)
    ensures VerifyScoreReveal(score', salt', ComputeScoreCommitment(score, salt)) <==> score == score' && salt == salt'
  {
    if ScoreText(score, salt) == ScoreText(score', salt') {
      DecimalHasNoColon(score);
      DecimalHasNoColon(score');
      SplitAtFirstColon(Decimal(score), salt, Decimal(score'), salt');
      DecimalInjective(score, score');
    }
  }
}
