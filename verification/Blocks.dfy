/** How the thread pool splits a range of indices into blocks, and a loop over them into tasks. */
module LoopBlocks {
  import opened Naturals

  datatype Blocks = Blocks(first: int, afterLast: int, count: nat, size: nat, remainder: nat)

  function Remainder(a: nat, b: nat): (r: nat)
    requires b > 0
    ensures r < b
  {
    a % b
  }

  lemma Division(a: nat, b: nat)
    requires b > 0
    ensures b * Quotient(a, b) + Remainder(a, b) == a
  {
  }

  lemma QuotientPositive(a: nat, b: nat)
    requires 0 < b <= a
    ensures Quotient(a, b) > 0
  {
  }

  /** Divide a range into at most `wanted` blocks; an empty range has none. */
  function Divide(first: int, afterLast: int, wanted: nat): Blocks
    requires wanted > 0
  {
    if afterLast > first then
      var total := afterLast - first;
      var count := if wanted < total then wanted else total;
      var size, remainder := Quotient(total, count), Remainder(total, count);
      if size == 0 then Blocks(first, afterLast, if total > 1 then total else 1, 1, remainder)
      else Blocks(first, afterLast, count, size, remainder)
    else Blocks(first, afterLast, 0, 0, 0)
  }

  function Start(b: Blocks, block: nat): int {
    b.first + block * b.size + (if block < b.remainder then block else b.remainder)
  }

  function End(b: Blocks, block: nat): int
    requires block < b.count
  {
    if block == b.count - 1 then b.afterLast else Start(b, block + 1)
  }

  /** The blocks start where the range does, each ends where the next starts, and none is empty. */
  lemma Tiles(first: int, afterLast: int, wanted: nat, block: nat)
    requires wanted > 0 && block < Divide(first, afterLast, wanted).count
    ensures var b := Divide(first, afterLast, wanted);
            && Start(b, 0) == first && End(b, b.count - 1) == afterLast
            && (block + 1 < b.count ==> End(b, block) == Start(b, block + 1))
            && b.size <= End(b, block) - Start(b, block) <= b.size + 1
            && b.size > 0 && b.count <= wanted && b.count <= afterLast - first
  {
    var b := Divide(first, afterLast, wanted);
    var total := afterLast - first;
    QuotientPositive(total, b.count);
    Division(total, b.count);
    assert (block + 1) * b.size == block * b.size + b.size;
    if block == b.count - 1 {
      assert b.count * b.size == (block + 1) * b.size;
    }
  }

  lemma StartsGrow(b: Blocks, i: nat, j: nat)
    requires i <= j
    ensures Start(b, i) <= Start(b, j)
  {
    assert j * b.size == i * b.size + (j - i) * b.size;
  }

  lemma Disjoint(first: int, afterLast: int, wanted: nat, j: nat, k: nat)
    requires wanted > 0 && j < k < Divide(first, afterLast, wanted).count
    ensures End(Divide(first, afterLast, wanted), j) <= Start(Divide(first, afterLast, wanted), k)
  {
    hide Divide, Start;
    Tiles(first, afterLast, wanted, j);
    StartsGrow(Divide(first, afterLast, wanted), j + 1, k);
  }

  /** Some block has the index. */
  lemma {:induction false} BlockOf(first: int, afterLast: int, wanted: nat, i: int, upTo: nat) returns (block: nat)
    requires wanted > 0 && first <= i
    requires var b := Divide(first, afterLast, wanted); upTo < b.count && i < End(b, upTo)
    ensures block <= upTo
    ensures Start(Divide(first, afterLast, wanted), block) <= i < End(Divide(first, afterLast, wanted), block)
  {
    var b := Divide(first, afterLast, wanted);
    Tiles(first, afterLast, wanted, upTo);
    if Start(b, upTo) <= i {
      block := upTo;
    } else {
      Tiles(first, afterLast, wanted, upTo - 1);
      block := BlockOf(first, afterLast, wanted, i, upTo - 1);
    }
  }

  /** Every index of the range lies in exactly one block. */
  lemma ExactlyOneBlock(first: int, afterLast: int, wanted: nat, i: int)
    requires wanted > 0 && first <= i < afterLast
    ensures var b := Divide(first, afterLast, wanted);
            && (exists block: nat :: block < b.count && Start(b, block) <= i < End(b, block))
            && (forall j: nat, k: nat :: j < k < b.count && Start(b, j) <= i < End(b, j) ==>
                                           !(Start(b, k) <= i < End(b, k)))
  {
    hide Divide, Start;
    var b := Divide(first, afterLast, wanted);
    CountPositive(first, afterLast, wanted);
    Tiles(first, afterLast, wanted, b.count - 1);
    var block := BlockOf(first, afterLast, wanted, i, b.count - 1);
    forall j: nat, k: nat | j < k < b.count && Start(b, j) <= i < End(b, j)
      ensures !(Start(b, k) <= i < End(b, k))
    {
      Disjoint(first, afterLast, wanted, j, k);
    }
  }

  lemma CountPositive(first: int, afterLast: int, wanted: nat)
    requires wanted > 0 && first < afterLast
    ensures Divide(first, afterLast, wanted).count > 0
  {
  }

  ghost function Range(from: int, end: int): (r: seq<int>)
    requires from <= end
    ensures |r| == end - from && forall k :: 0 <= k < |r| ==> r[k] == from + k
  {
    seq(end - from, k requires 0 <= k < end - from => from + k)
  }

  /** One task of a parallel loop: the indices it calls the loop function with, in order. */
  method RunBlock(start: int, end: int) returns (calls: seq<int>)
    requires start <= end
    ensures calls == Range(start, end)
  {
    calls := [];
    var i := start;
    while i < end
      invariant start <= i <= end && calls == Range(start, i)
    {
      calls := calls + [i];
      i := i + 1;
    }
  }

  /** The tasks of detach_loop(), in the order of submission: together they are the range, each index once. */
  method DetachLoop(first: int, afterLast: int, numBlocks: nat, threadCount: nat)
    returns (tasks: seq<(int, int)>, ghost calls: seq<int>)
    requires threadCount > 0
    ensures |tasks| ==
            if afterLast <= first then 0
            else Divide(first, afterLast, if numBlocks > 0 then numBlocks else threadCount).count
    ensures calls == Joined(tasks)
    ensures calls == if afterLast > first then Range(first, afterLast) else []
  {
    tasks, calls := [], [];
    if afterLast > first {
      var wanted := if numBlocks > 0 then numBlocks else threadCount;
      var b := Divide(first, afterLast, wanted);
      CountPositive(first, afterLast, wanted);
      Tiles(first, afterLast, wanted, 0);
      for block := 0 to b.count
        invariant |tasks| == block && calls == Joined(tasks)
        invariant var reached := if block == b.count then afterLast else Start(b, block);
                  first <= reached && calls == Range(first, reached)
      {
        Tiles(first, afterLast, wanted, block);
        var task := (Start(b, block), End(b, block));
        ghost var before := tasks;
        tasks := tasks + [task];
        assert tasks[..block] == before;
        calls := calls + Range(task.0, task.1);
      }
    }
  }

  /** The calls of the tasks, one task after the other. */
  ghost function Joined(tasks: seq<(int, int)>): seq<int> {
    if tasks == [] then []
    else
      var t := tasks[|tasks| - 1];
      Joined(tasks[..|tasks| - 1]) + (if t.0 <= t.1 then Range(t.0, t.1) else [])
  }
}
