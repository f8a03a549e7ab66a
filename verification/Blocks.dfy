/** The free-list block allocator: which block ids back which sequence. */
module Blocks {
  import opened Wrappers
  import opened Requests

  /** ceil(n / bs). */
  function BlocksNeeded(n: nat, bs: nat): nat
    requires bs > 0
  {
    (n + bs - 1) / bs
  }

  lemma MulMonotone(x: int, y: int, b: nat)
    requires x <= y
    ensures x * b <= y * b
  {
    assert (y - x) * b >= 0;
  }

  lemma QuotientUnique(q: int, r: int, q': int, r': int, d: nat)
    requires q * d + r == q' * d + r' && 0 <= r < d && 0 <= r' < d
    ensures q == q' && r == r'
  {
    if q < q' {
      MulMonotone(q + 1, q', d);
    } else if q' < q {
      MulMonotone(q' + 1, q, d);
    }
  }

  lemma BlocksNeededSpan(n: nat, bs: nat)
    requires bs > 0
    ensures n <= BlocksNeeded(n, bs) * bs < n + bs
  {
    var b := BlocksNeeded(n, bs);
    assert n + bs - 1 == b * bs + (n + bs - 1) % bs;
  }

  /** A position is inside the first k blocks exactly when k covers it. */
  lemma Covers(n: nat, bs: nat, k: nat)
    requires bs > 0
    ensures n / bs < k <==> BlocksNeeded(n + 1, bs) <= k
  {
    var q, r := n / bs, n % bs;
    assert n == q * bs + r;
    var q', r' := (n + bs) / bs, (n + bs) % bs;
    assert n + bs == q' * bs + r';
    assert (q + 1) * bs == q * bs + bs;
    QuotientUnique(q + 1, r, q', r', bs);
  }

  lemma BlocksNeededMonotone(a: nat, b: nat, bs: nat)
    requires bs > 0 && a <= b
    ensures BlocksNeeded(a, bs) <= BlocksNeeded(b, bs)
  {
    BlocksNeededSpan(a, bs);
    BlocksNeededSpan(b, bs);
    hide BlocksNeeded;
    var x, y := BlocksNeeded(a, bs), BlocksNeeded(b, bs);
    if y < x {
      MulMonotone(y + 1, x, bs);
    }
  }

  /** One more token needs at most one more block. */
  lemma BlocksNeededStep(n: nat, bs: nat)
    requires bs > 0
    ensures BlocksNeeded(n, bs) <= BlocksNeeded(n + 1, bs) <= BlocksNeeded(n, bs) + 1
  {
    BlocksNeededMonotone(n, n + 1, bs);
    BlocksNeededSpan(n, bs);
    BlocksNeededSpan(n + 1, bs);
    hide BlocksNeeded;
    var x, z := BlocksNeeded(n, bs), BlocksNeeded(n + 1, bs);
    if z > x + 1 {
      MulMonotone(x + 2, z, bs);
    }
  }

  /** Pop n blocks off the end of the free list onto the end of the table. */
  function Take(free: seq<nat>, table: seq<nat>, n: nat): (r: (seq<nat>, seq<nat>))
    requires n <= |free|
    ensures |r.0| == |free| - n && |r.1| == |table| + n && table <= r.1
    ensures multiset(r.0) + multiset(r.1) == multiset(free) + multiset(table)
    decreases n
  {
    if n == 0 then (free, table)
    else
      var k := |free| - 1;
      assert free == free[..k] + [free[k]];
      Take(free[..k], table + [free[k]], n - 1)
  }

  lemma TakeNone(free: seq<nat>, table: seq<nat>)
    ensures Take(free, table, 0) == (free, table)
  {
  }

  /** Blocks a table still lacks to cover n tokens. */
  function Lacking(table: seq<nat>, n: nat, bs: nat): nat
    requires bs > 0
  {
    var needed := BlocksNeeded(n, bs);
    if needed <= |table| then 0 else needed - |table|
  }

  function Allocated(free: seq<nat>, q: Seq, n: nat, bs: nat): (r: (seq<nat>, Seq))
    requires bs > 0 && Lacking(q.table, n, bs) <= |free|
  {
    var (f, t) := Take(free, q.table, Lacking(q.table, n, bs));
    (f, q.(table := t))
  }

  /** None when a block is needed and none is free. */
  function Appended(free: seq<nat>, q: Seq, bs: nat): (r: Option<(seq<nat>, Seq)>)
    requires bs > 0
  {
    if BlocksNeeded(q.computed + 1, bs) <= |q.table| then Some((free, q))
    else if free == [] then None
    else Some((free[..|free| - 1], q.(table := q.table + [free[|free| - 1]])))
  }

  function Freed(free: seq<nat>, q: Seq): (seq<nat>, Seq) {
    (free + q.table, q.(table := []))
  }

  class BlockManager {
    const numBlocks: nat
    const blockSize: nat
    var free: seq<nat>

    constructor (numBlocks: nat, blockSize: nat)
      ensures this.numBlocks == numBlocks && this.blockSize == blockSize
      ensures free == seq(numBlocks, i => i)
    {
      this.numBlocks, this.blockSize := numBlocks, blockSize;
      free := seq(numBlocks, i => i);
    }

    predicate CanAllocate(numTokens: nat)
      requires blockSize > 0
      reads this
    {
      BlocksNeeded(numTokens, blockSize) <= |free|
    }

    method Allocate(q: SequenceState, numTokens: nat)
      requires blockSize > 0
      requires Lacking(q.View().table, numTokens, blockSize) <= |free|
      modifies this`free, q`blockTable
      ensures (free, q.View()) == Allocated(old(free), old(q.View()), numTokens, blockSize)
    {
      hide BlocksNeeded, Take;
      if BlocksNeeded(numTokens, blockSize) <= |q.blockTable| {
        TakeNone(free, q.blockTable);
        return;
      }
      Grow(q, BlocksNeeded(numTokens, blockSize) - |q.blockTable|);
    }

    method Grow(q: SequenceState, needed: nat)
      requires needed <= |free|
      modifies this`free, q`blockTable
      ensures (free, q.blockTable) == Take(old(free), old(q.blockTable), needed)
    {
      for i := 0 to needed
        invariant needed - i <= |free|
        invariant Take(free, q.blockTable, needed - i) == Take(old(free), old(q.blockTable), needed)
      {
        var k := |free| - 1;
        var b := free[k];
        free := free[..k];
        q.blockTable := q.blockTable + [b];
      }
    }

    method AppendSlot(q: SequenceState) returns (ok: bool)
      requires blockSize > 0
      modifies this`free, q`blockTable
      ensures ok == Appended(old(free), old(q.View()), blockSize).Some?
      ensures (free, q.View()) ==
        if ok then Appended(old(free), old(q.View()), blockSize).value else (old(free), old(q.View()))
    {
      if BlocksNeeded(q.numComputedTokens + 1, blockSize) <= |q.blockTable| {
        return true;
      }
      if free == [] {
        return false;
      }
      var k := |free| - 1;
      q.blockTable := q.blockTable + [free[k]];
      free := free[..k];
      return true;
    }

    method Free(q: SequenceState)
      modifies this`free, q`blockTable
      ensures (free, q.View()) == Freed(old(free), old(q.View()))
    {
      free := free + q.blockTable;
      q.blockTable := [];
    }
  }
}
