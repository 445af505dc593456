/** The chain as the monitor sees it: numbered blocks whose hash pins down everything up to them. */
module Chain {
  import opened Basics

  type ProcurementId = nat

  datatype Created = Created(id: ProcurementId, jobId: string)

  datatype Block = Block(nonce: nat, created: seq<Created>)

  /** Block 0 is always there. */
  type Chain = c: seq<Block> | |c| > 0 witness [Block(0, [])]

  /** A block hash commits to the block and all its ancestors; hashing is taken to be collision-free. */
  datatype Hash = HashOf(prefix: seq<Block>)

  function Head(c: Chain): nat {
    |c| - 1
  }

  function BlockHash(c: Chain, n: nat): Option<Hash> {
    if n < |c| then Some(HashOf(c[..n + 1])) else None
  }

  /** The creation events of blocks lo to hi, in order. */
  function EventsIn(c: seq<Block>, lo: nat, hi: int): seq<Created>
    requires hi < |c|
    decreases hi - lo
  {
    if lo > hi then [] else EventsIn(c, lo, hi - 1) + c[hi].created
  }

  lemma {:induction false} EventsConcat(c: seq<Block>, lo: nat, mid: int, hi: int)
    requires lo - 1 <= mid <= hi < |c|
    ensures EventsIn(c, lo, mid) + EventsIn(c, mid + 1, hi) == EventsIn(c, lo, hi)
    decreases hi - mid
  {
    if mid < hi {
      EventsConcat(c, lo, mid, hi - 1);
      assert EventsIn(c, lo, mid) + (EventsIn(c, mid + 1, hi - 1) + c[hi].created)
          == (EventsIn(c, lo, mid) + EventsIn(c, mid + 1, hi - 1)) + c[hi].created;
    }
  }

  lemma {:induction false} EventsInAre(c: seq<Block>, lo: nat, hi: int, e: Created)
    requires hi < |c|
    ensures e in EventsIn(c, lo, hi) <==> exists n :: lo <= n <= hi && e in c[n].created
    decreases hi - lo
  {
    if lo <= hi {
      EventsInAre(c, lo, hi - 1, e);
      if e in EventsIn(c, lo, hi) && e !in c[hi].created {
        var n :| lo <= n <= hi - 1 && e in c[n].created;
      }
    }
  }

  // ---- how the chain changes ----

  /** New blocks on top of the first `keep` ones; a plain extension keeps all of them. */
  datatype Move = Move(keep: nat, blocks: seq<Block>)

  predicate CanMove(c: Chain, m: Move) {
    0 < m.keep <= |c|
  }

  function Moved(c: Chain, m: Move): Chain
    requires CanMove(c, m)
  {
    c[..m.keep] + m.blocks
  }

  /** How many blocks two chains share. */
  function Shared(a: seq<Block>, b: seq<Block>): (n: nat)
    ensures n <= |a| && n <= |b| && a[..n] == b[..n]
    ensures n < |a| && n < |b| ==> a[n] != b[n]
  {
    if a == [] || b == [] || a[0] != b[0] then 0
    else
      var n := Shared(a[1..], b[1..]);
      assert a[..n + 1] == [a[0]] + a[1..][..n];
      assert b[..n + 1] == [b[0]] + b[1..][..n];
      1 + n
  }

  /** Two hashes of the same height are equal exactly when the chains share everything up to it. */
  lemma HashTellsSharedPrefix(a: Chain, b: Chain, n: nat)
    requires n < |a|
    ensures BlockHash(a, n) == BlockHash(b, n) <==> Shared(a, b) > n
  {
    var k := Shared(a, b);
    if k > n {
      assert a[..n + 1] == a[..k][..n + 1] == b[..k][..n + 1] == b[..n + 1];
    } else if k < |b| {
      assert a[..n + 1][k] == a[k] != b[k];
      if n < |b| {
        assert b[..n + 1][k] == b[k];
      }
    }
  }
}
