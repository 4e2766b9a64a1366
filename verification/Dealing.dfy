/** How the main thread splits its queue into one block per thread. */
module Dealing {
  import opened ElementQueue

  const UINT_RANGE := 0x1_0000_0000
  const INT_RANGE := 0x8000_0000

  /** round_up, in unsigned 32-bit arithmetic. */
  function RoundUp(dividend: nat, divisor: nat): nat
    requires divisor > 0
  {
    (dividend + (divisor - 1)) % UINT_RANGE / divisor
  }

  /** Called with two ints, as it is, it never wraps around: it is the quotient rounded up. */
  lemma RoundUpIsCeiling(n: nat, threads: nat)
    requires n < INT_RANGE && 0 < threads < INT_RANGE
    ensures var per := RoundUp(n, threads); n <= per * threads < n + threads
  {
    var sum := n + (threads - 1);
    assert sum % UINT_RANGE == sum;
    assert sum == (sum / threads) * threads + sum % threads;
  }

  /** What the first i threads get as long as the queue lasts. */
  function Quota(i: nat, per: nat): nat {
    if i == 0 then 0 else Quota(i - 1, per) + per
  }

  lemma {:induction false} QuotaIsProduct(i: nat, per: nat)
    ensures Quota(i, per) == per * i
  {
    if i == 0 {
    } else {
      QuotaIsProduct(i - 1, per);
    }
  }

  /** All threads together take the whole queue. */
  lemma QuotaCovers(n: nat, threads: nat)
    requires n < INT_RANGE && 0 < threads < INT_RANGE
    ensures n <= Quota(threads, RoundUp(n, threads))
  {
    RoundUpIsCeiling(n, threads);
    QuotaIsProduct(threads, RoundUp(n, threads));
  }

  lemma MultiplyMonotone(a: nat, b: nat, threads: nat)
    requires a <= b
    ensures a * threads <= b * threads
  {
  }

  /** A thread's block fits into its array, which has room for 4096 elements, exactly when there are at most so many per thread. */
  lemma BlocksFitIff(n: nat, threads: nat)
    requires n < INT_RANGE && 0 < threads < INT_RANGE
    ensures RoundUp(n, threads) <= 4096 <==> n <= 4096 * threads
  {
    var per := RoundUp(n, threads);
    RoundUpIsCeiling(n, threads);
    if per <= 4096 {
      MultiplyMonotone(per, 4096, threads);
    } else {
      MultiplyMonotone(4097, per, threads);
    }
  }

  function Concat(blocks: seq<seq<QueueElement>>): seq<QueueElement> {
    if blocks == [] then [] else Concat(blocks[..|blocks| - 1]) + blocks[|blocks| - 1]
  }

  lemma ConcatSnoc(blocks: seq<seq<QueueElement>>, block: seq<QueueElement>)
    ensures Concat(blocks + [block]) == Concat(blocks) + block
  {
    assert (blocks + [block])[..|blocks|] == blocks;
  }

  /** The inner loop: up to `per` elements off the front, as long as fewer than `n` have been dealt in all. */
  method DealBlock(queue: Queue, per: nat, n: nat, dealt: nat) returns (block: seq<QueueElement>)
    requires queue.Valid() && dealt <= n && |queue.items| == n - dealt
    modifies queue
    ensures queue.Valid() && queue.repr == old(queue.repr)
    ensures |block| <= |old(queue.items)|
    ensures block == old(queue.items)[..|block|] && queue.items == old(queue.items)[|block|..]
    ensures |block| <= per && (|block| < per ==> queue.items == [])
  {
    block := [];
    ghost var before := queue.items;
    var j := 0;
    while j < per && dealt + j < n
      invariant j == |block| <= per && j <= n - dealt
      invariant queue.Valid() && queue.repr == old(queue.repr)
      invariant queue.items == before[j..] && block == before[..j]
    {
      var element := queue.Remove();
      block := block + [element];
      j := j + 1;
    }
  }

  /** What is left of n elements when the first k threads have been served. */
  function Left(n: nat, per: nat, k: nat): nat {
    if Quota(k, per) < n then n - Quota(k, per) else 0
  }

  /** The size of block k: full, until the queue runs out. */
  function BlockSize(n: nat, per: nat, k: nat): nat {
    if Left(n, per, k) < per then Left(n, per, k) else per
  }

  ghost predicate Sized(blocks: seq<seq<QueueElement>>, n: nat, per: nat) {
    forall k | 0 <= k < |blocks| :: |blocks[k]| == BlockSize(n, per, k)
  }

  /** After some threads have been served: their blocks are a prefix of the queue, what is left is the rest. */
  ghost predicate Served(all: seq<QueueElement>, blocks: seq<seq<QueueElement>>, left: seq<QueueElement>, per: nat) {
    && |left| == Left(|all|, per, |blocks|) <= |all|
    && left == all[|all| - |left|..] && Concat(blocks) == all[..|all| - |left|]
    && Sized(blocks, |all|, per)
  }

  lemma ServeNext(all: seq<QueueElement>, blocks: seq<seq<QueueElement>>, left: seq<QueueElement>, per: nat, k: nat)
    requires Served(all, blocks, left, per) && k == BlockSize(|all|, per, |blocks|) <= |left|
    ensures Served(all, blocks + [left[..k]], left[k..], per)
  {
    var dealt := |all| - |left|;
    assert left[k..] == all[dealt + k..];
    assert all[..dealt] + left[..k] == all[..dealt + k];
    ConcatSnoc(blocks, left[..k]);
  }

  /** A block that stops short only of the end of the queue has its due size. */
  lemma DueSize(all: seq<QueueElement>, blocks: seq<seq<QueueElement>>, left: seq<QueueElement>, per: nat, k: nat)
    requires Served(all, blocks, left, per) && k <= per && k <= |left| && (k < per ==> k == |left|)
    ensures k == BlockSize(|all|, per, |blocks|)
  {
  }

  lemma ServedNone(all: seq<QueueElement>, per: nat)
    ensures Served(all, [], all, per)
  {
  }

  lemma ServedAll(all: seq<QueueElement>, blocks: seq<seq<QueueElement>>, left: seq<QueueElement>, per: nat)
    requires Served(all, blocks, left, per) && |all| <= Quota(|blocks|, per)
    ensures left == [] && Concat(blocks) == all && Sized(blocks, |all|, per)
  {
  }

  /** The outer loop's body: the due block of the next thread. */
  method DealNext(queue: Queue, per: nat, n: nat, dealt: nat, ghost all: seq<QueueElement>, ghost blocks: seq<seq<QueueElement>>)
    returns (block: seq<QueueElement>)
    requires queue.Valid() && dealt + |queue.items| == n && Served(all, blocks, queue.items, per)
    modifies queue
    ensures queue.Valid() && dealt + |block| + |queue.items| == n && Served(all, blocks + [block], queue.items, per)
  {
    ghost var left := queue.items;
    block := DealBlock(queue, per, n, dealt);
    DueSize(all, blocks, left, per, |block|);
    ServeNext(all, blocks, left, per, |block|);
  }

  /** The dealing loop, for any block size that is large enough. */
  method DealBlocks(queue: Queue, threads: nat, n: nat, per: nat) returns (blocks: seq<seq<QueueElement>>)
    requires queue.Valid() && |queue.items| == n <= Quota(threads, per)
    modifies queue
    ensures queue.Valid() && queue.items == []
    ensures |blocks| == threads && Concat(blocks) == old(queue.items) && Sized(blocks, n, per)
  {
    blocks := [];
    ghost var all := queue.items;
    ServedNone(all, per);
    var dealt, i := 0, 0;
    while i < threads
      invariant i == |blocks| <= threads && dealt + |queue.items| == n
      invariant queue.Valid() && Served(all, blocks, queue.items, per)
    {
      var block := DealNext(queue, per, n, dealt, all, blocks);
      blocks := blocks + [block];
      dealt := dealt + |block|;
      i := i + 1;
    }
    ServedAll(all, blocks, queue.items, per);
  }

  /** The due sizes, in figures: block k has what is left of the n elements, or a full block if there is more. */
  lemma SizesInFigures(n: nat, per: nat, k: nat)
    ensures BlockSize(n, per, k) == if n <= per * k then 0 else if n - per * k < per then n - per * k else per
  {
    QuotaIsProduct(k, per);
  }

  /** Dealing in both parallel searches: the blocks, in thread order, are the queue, each has round_up(n, T) elements
      until the queue runs out, and nothing is left. */
  method DealOut(queue: Queue, threads: nat) returns (blocks: seq<seq<QueueElement>>)
    requires queue.Valid() && |queue.items| < INT_RANGE && 0 < threads < INT_RANGE
    modifies queue
    ensures queue.Valid() && queue.items == []
    ensures |blocks| == threads && Concat(blocks) == old(queue.items)
    ensures var n, per := |old(queue.items)|, (|old(queue.items)| + threads - 1) / threads;
            forall k | 0 <= k < threads ::
              |blocks[k]| == if n <= per * k then 0 else if n - per * k < per then n - per * k else per
  {
    var n := queue.NumElements();
    QuotaCovers(n, threads);
    blocks := DealBlocks(queue, threads, n, RoundUp(n, threads));
    assert RoundUp(n, threads) == (n + threads - 1) / threads;
    forall k | 0 <= k < threads { SizesInFigures(n, RoundUp(n, threads), k); }
  }
}
