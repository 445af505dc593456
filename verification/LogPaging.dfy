/** Event logs read in chunks, with a retry in two halves when the provider refuses a range. */
module LogPaging {
  import opened Basics
  import opened Chain

  const CHUNK_SIZE := 2000

  /** What the provider does with one request: answer, refuse the range as too large, or fail otherwise. */
  datatype Reply = Answers | Refuses | Fails

  function ReplyAt(replies: seq<Reply>, i: nat): Reply {
    if i < |replies| then replies[i] else Answers
  }

  function ChunkEnd(first: nat, last: nat): (end: nat)
    requires first <= last
    ensures first <= end <= last && end - first < CHUNK_SIZE
  {
    if first + CHUNK_SIZE - 1 <= last then first + CHUNK_SIZE - 1 else last
  }

  /** The logs of blocks first..last when the i-th request meets the i-th reply; None when an error is thrown. */
  function Paged(c: seq<Block>, first: nat, last: nat, replies: seq<Reply>, i: nat): Option<seq<Created>>
    requires last < |c|
    decreases last + 1 - first
  {
    if first > last then Some([])
    else
      var end := ChunkEnd(first, last);
      match ReplyAt(replies, i)
      case Answers => Prepend(EventsIn(c, first, end), Paged(c, end + 1, last, replies, i + 1))
      case Fails => None
      case Refuses =>
        var mid := (first + end) / 2;
        if mid == first then Paged(c, end + 1, last, replies, i + 1)
        else if ReplyAt(replies, i + 1) != Answers || ReplyAt(replies, i + 2) != Answers then None
        else Prepend(EventsIn(c, first, mid) + EventsIn(c, mid + 1, end), Paged(c, end + 1, last, replies, i + 3))
  }

  function Prepend(a: seq<Created>, rest: Option<seq<Created>>): Option<seq<Created>> {
    match rest
    case None => None
    case Some(b) => Some(a + b)
  }

  /** The chunk that reaches the end has at most two blocks and is refused: it is skipped without an error. */
  predicate SkipsTail(first: nat, last: nat, replies: seq<Reply>, i: nat)
    decreases last + 1 - first
  {
    if first > last then false
    else
      var end := ChunkEnd(first, last);
      if end == last then last - first < 2 && ReplyAt(replies, i) == Refuses
      else SkipsTail(end + 1, last, replies, if ReplyAt(replies, i) == Refuses then i + 3 else i + 1)
  }

  /** First block of the last chunk. */
  function TailStart(first: nat, last: nat): (t: nat)
    requires first <= last
    ensures first <= t <= last
    decreases last - first
  {
    if ChunkEnd(first, last) == last then first else TailStart(ChunkEnd(first, last) + 1, last)
  }

  lemma PrependConcat(a: seq<Created>, b: seq<Created>, rest: Option<seq<Created>>)
    ensures Prepend(a + b, rest) == Prepend(a, Prepend(b, rest))
  {
    if rest.Some? {
      assert a + b + rest.value == a + (b + rest.value);
    }
  }

  lemma PrependNothing(rest: Option<seq<Created>>)
    ensures Prepend([], rest) == rest
  {
    if rest.Some? {
      assert [] + rest.value == rest.value;
    }
  }

  lemma PrependEnd(a: seq<Created>)
    ensures Prepend(a, Some([])) == Some(a)
  {
    assert a + [] == a;
  }

  lemma PrependError(a: seq<Created>)
    ensures Prepend(a, None) == None
  {
  }

  // ---- when a read returns, from the replies alone ----

  /** Chunks needed for so many blocks. */
  function ChunkCount(blocks: nat): nat {
    (blocks + CHUNK_SIZE - 1) / CHUNK_SIZE
  }

  /** All chunks are full but the last one. */
  function SizeOfChunk(blocks: nat, k: nat): nat {
    if (k + 1) * CHUNK_SIZE <= blocks then CHUNK_SIZE else if k * CHUNK_SIZE < blocks then blocks - k * CHUNK_SIZE else 0
  }

  /** A chunk whose first request is the i-th is read without an error: answered at once, or refused and then either too
      small to halve or answered in both halves. */
  predicate ChunkIsRead(size: nat, replies: seq<Reply>, i: nat) {
    || ReplyAt(replies, i) == Answers
    || (ReplyAt(replies, i) == Refuses && size <= 2)
    || (ReplyAt(replies, i) == Refuses && ReplyAt(replies, i + 1) == Answers && ReplyAt(replies, i + 2) == Answers)
  }

  /** The first request of chunk `k`: a refused chunk that can be halved takes three. */
  function RequestOf(blocks: nat, replies: seq<Reply>, k: nat): nat {
    if k == 0 then 0
    else
      var i := RequestOf(blocks, replies, k - 1);
      if ReplyAt(replies, i) == Refuses && SizeOfChunk(blocks, k - 1) > 2 then i + 3 else i + 1
  }

  /** A read of so many blocks meets no failure it cannot get over. */
  predicate ReadReturns(blocks: nat, replies: seq<Reply>) {
    forall k :: 0 <= k < ChunkCount(blocks) ==> ChunkIsRead(SizeOfChunk(blocks, k), replies, RequestOf(blocks, replies, k))
  }

  function Length(first: nat, last: int): nat {
    if first <= last then last + 1 - first else 0
  }

  lemma {:induction false} ReturnsFromChunk(c: seq<Block>, first: nat, last: nat, replies: seq<Reply>, k: nat)
    requires first <= last < |c| && k <= ChunkCount(Length(first, last))
    ensures var n := Length(first, last);
            Paged(c, first + k * CHUNK_SIZE, last, replies, RequestOf(n, replies, k)).Some? <==>
            forall j :: k <= j < ChunkCount(n) ==> ChunkIsRead(SizeOfChunk(n, j), replies, RequestOf(n, replies, j))
    decreases ChunkCount(Length(first, last)) - k
  {
    hide EventsIn;
    var n := Length(first, last);
    if k < ChunkCount(n) {
      ReturnsFromChunk(c, first, last, replies, k + 1);
      var from, i := first + k * CHUNK_SIZE, RequestOf(n, replies, k);
      ChunkOfSize(first, last, k);
      var read := ChunkIsRead(SizeOfChunk(n, k), replies, i);
      if !read {
        assert Paged(c, from, last, replies, i).None?;
      } else if k + 1 < ChunkCount(n) {
        assert Paged(c, from, last, replies, i).Some? <==>
               Paged(c, from + CHUNK_SIZE, last, replies, RequestOf(n, replies, k + 1)).Some?;
      }
    }
  }

  lemma ChunkOfSize(first: nat, last: nat, k: nat)
    requires first <= last && k < ChunkCount(Length(first, last))
    ensures var n, from := Length(first, last), first + k * CHUNK_SIZE;
            from <= last && ChunkEnd(from, last) + 1 == from + SizeOfChunk(n, k)
            && (k + 1 < ChunkCount(n) <==> ChunkEnd(from, last) < last)
            && (k + 1 < ChunkCount(n) ==> SizeOfChunk(n, k) == CHUNK_SIZE)
  {
  }

  /** A chunk is two thousand blocks. */
  lemma ChunksAre(blocks: nat)
    ensures ChunkCount(0) == 0 && ChunkCount(2000) == 1 && ChunkCount(2001) == 2
    ensures SizeOfChunk(2001, 0) == 2000 && SizeOfChunk(2001, 1) == 1
    ensures ChunkCount(blocks + 2000) == ChunkCount(blocks) + 1
  {
  }

  /** A read returns exactly when the replies let every chunk be read; an outright failure makes it throw. */
  lemma ReturnsExactly(c: seq<Block>, first: nat, last: nat, replies: seq<Reply>)
    requires last < |c|
    ensures Paged(c, first, last, replies, 0).Some? <==> ReadReturns(Length(first, last), replies)
  {
    if first <= last {
      ReturnsFromChunk(c, first, last, replies, 0);
    }
  }

  /** getLogsPaginated: it returns exactly when the replies let every chunk be read, and then with each block's logs once
      and in order up to the last block delivered. */
  method GetLogsPaginated(c: seq<Block>, fromBlock: nat, toBlock: nat, replies: seq<Reply>) returns (r: Option<seq<Created>>)
    requires toBlock < |c|
    ensures r == Paged(c, fromBlock, toBlock, replies, 0)
    ensures r.Some? <==> ReadReturns(Length(fromBlock, toBlock), replies)
    ensures r.Some? ==> r.value == EventsIn(c, fromBlock, LastDelivered(fromBlock, toBlock, replies, 0))
  {
    hide EventsIn, Prepend, ReadReturns, LastDelivered;
    ReturnsExactly(c, fromBlock, toBlock, replies);
    if Paged(c, fromBlock, toBlock, replies, 0).Some? {
      PagedReadsAreExact(c, fromBlock, toBlock, replies, 0);
    }
    var logs: seq<Created> := [];
    var first := fromBlock;
    var i := 0;
    PrependNothing(Paged(c, fromBlock, toBlock, replies, 0));
    while first <= toBlock
      invariant Paged(c, fromBlock, toBlock, replies, 0) == Prepend(logs, Paged(c, first, toBlock, replies, i))
      decreases toBlock + 1 - first
    {
      var end := if first + CHUNK_SIZE - 1 <= toBlock then first + CHUNK_SIZE - 1 else toBlock;
      match ReplyAt(replies, i) {
        case Answers =>
          PrependConcat(logs, EventsIn(c, first, end), Paged(c, end + 1, toBlock, replies, i + 1));
          logs := logs + EventsIn(c, first, end);
          i := i + 1;
        case Fails =>
          PrependError(logs);
          return None;
        case Refuses =>
          var mid := (first + end) / 2;
          if mid == first {
            first, i := end + 1, i + 1;
            continue;
          }
          if ReplyAt(replies, i + 1) != Answers || ReplyAt(replies, i + 2) != Answers {
            PrependError(logs);
            return None;
          }
          PrependConcat(logs, EventsIn(c, first, mid) + EventsIn(c, mid + 1, end), Paged(c, end + 1, toBlock, replies, i + 3));
          logs := logs + (EventsIn(c, first, mid) + EventsIn(c, mid + 1, end));
          i := i + 3;
      }
      first := end + 1;
    }
    PrependEnd(logs);
    r := Some(logs);
  }

  /** The last block a read that returns has delivered. */
  function LastDelivered(first: nat, last: nat, replies: seq<Reply>, i: nat): (n: int)
    ensures n <= last && (first <= last ==> first - 1 <= n)
  {
    if SkipsTail(first, last, replies, i) then SkippedIsShort(first, last, replies, i); TailStart(first, last) - 1 else last
  }

  lemma {:induction false} SkippedIsShort(first: nat, last: nat, replies: seq<Reply>, i: nat)
    requires SkipsTail(first, last, replies, i)
    ensures first <= last && last - TailStart(first, last) < 2
    decreases last + 1 - first
  {
    var end := ChunkEnd(first, last);
    if end < last {
      SkippedIsShort(end + 1, last, replies, if ReplyAt(replies, i) == Refuses then i + 3 else i + 1);
    }
  }

  lemma HalvesMakeTheChunk(c: seq<Block>, first: nat, mid: nat, end: nat)
    requires first <= mid <= end < |c|
    ensures EventsIn(c, first, mid) + EventsIn(c, mid + 1, end) == EventsIn(c, first, end)
  {
    EventsConcat(c, first, mid, end);
  }

  /** Whenever a read returns, it returns each block's logs exactly once and in order, up to the last block delivered:
      all of the range, except that a final chunk of at most two blocks is lost when the provider refuses it. */
  lemma {:induction false} PagedReadsAreExact(c: seq<Block>, first: nat, last: nat, replies: seq<Reply>, i: nat)
    requires last < |c| && Paged(c, first, last, replies, i).Some?
    ensures Paged(c, first, last, replies, i).value == EventsIn(c, first, LastDelivered(first, last, replies, i))
    decreases last + 1 - first
  {
    hide EventsIn;
    if first > last {
      NoEvents(c, first, last);
    } else {
      var end := ChunkEnd(first, last);
      if ReplyAt(replies, i) == Refuses {
        HalvesMakeTheChunk(c, first, (first + end) / 2, end);
      }
      if end < last {
        var next := if ReplyAt(replies, i) == Refuses then i + 3 else i + 1;
        PagedReadsAreExact(c, end + 1, last, replies, next);
        EventsConcat(c, first, end, LastDelivered(end + 1, last, replies, next));
      } else {
        LastChunkIsExact(c, first, last, replies, i);
      }
    }
  }

  lemma NoEvents(c: seq<Block>, first: nat, last: int)
    requires first > last && last < |c|
    ensures EventsIn(c, first, last) == []
  {
  }

  lemma LastChunkIsExact(c: seq<Block>, first: nat, last: nat, replies: seq<Reply>, i: nat)
    requires first <= last < |c| && ChunkEnd(first, last) == last && Paged(c, first, last, replies, i).Some?
    ensures Paged(c, first, last, replies, i).value == EventsIn(c, first, LastDelivered(first, last, replies, i))
  {
    hide EventsIn;
    NoEvents(c, first, first - 1);
    PrependEnd(EventsIn(c, first, last));
    HalvesMakeTheChunk(c, first, (first + last) / 2, last);
  }

  /** The tail is lost exactly when the last chunk is too small to halve and its request is refused. */
  lemma {:induction false} TailIsLostExactly(first: nat, last: nat, replies: seq<Reply>, k: nat)
    requires first <= last && k < ChunkCount(Length(first, last))
    ensures var n := Length(first, last);
            var m := ChunkCount(n) - 1;
            SkipsTail(first + k * CHUNK_SIZE, last, replies, RequestOf(n, replies, k)) <==>
            SizeOfChunk(n, m) <= 2 && ReplyAt(replies, RequestOf(n, replies, m)) == Refuses
    decreases ChunkCount(Length(first, last)) - k
  {
    ChunkOfSize(first, last, k);
    if k + 1 < ChunkCount(Length(first, last)) {
      TailIsLostExactly(first, last, replies, k + 1);
    }
  }

  /** No blocks are lost when the provider refuses nothing. */
  lemma {:induction false} WithoutRefusalsNothingIsSkipped(first: nat, last: nat, replies: seq<Reply>, i: nat)
    requires Refuses !in replies
    ensures !SkipsTail(first, last, replies, i)
    decreases last + 1 - first
  {
    if first <= last && ChunkEnd(first, last) < last {
      WithoutRefusalsNothingIsSkipped(ChunkEnd(first, last) + 1, last, replies, i + 1);
    }
  }
}
