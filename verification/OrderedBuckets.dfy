/**
 * The bucket array of ordered_hash.h: each used bucket holds the index of a value and the low half of its hash, and
 * distances from the ideal bucket are computed from the hash.
 *
 * Values may be dead, i.e. without a bucket; their position is then |bs|.  An index with dead values describes every
 * intermediate state: a value in hand, a value whose bucket was cleared, slots that a compaction has left behind.
 */
module OrderedBuckets {
  import opened Circular
  import opened Naturals

  type uint32 = x: nat | x < 0x1_0000_0000

  datatype Slot = Free | Used(index: nat, hash: uint32)

  ghost predicate HomesFit(home: uint32 -> nat, n: nat) {
    forall h: uint32 :: home(h) < n
  }

  /** Distance of a used bucket from the ideal one of its hash. */
  ghost function DistAt(home: uint32 -> nat, bs: seq<Slot>, i: nat): (d: nat)
    requires HomesFit(home, |bs|) && i < |bs|
    ensures d < |bs|
  {
    if bs[i].Free? then 0 else Dist(i, home(bs[i].hash), |bs|)
  }

  ghost predicate Ordered(home: uint32 -> nat, bs: seq<Slot>, i: nat)
    requires HomesFit(home, |bs|) && i < |bs|
  {
    var j := Next(i, |bs|);
    DistAt(home, bs, j) > 0 ==> bs[i].Used? && DistAt(home, bs, j) <= DistAt(home, bs, i) + 1
  }

  ghost predicate AllOrdered(home: uint32 -> nat, bs: seq<Slot>)
    requires HomesFit(home, |bs|)
  {
    forall i :: 0 <= i < |bs| ==> Ordered(home, bs, i)
  }

  ghost predicate Live(bs: seq<Slot>, pos: seq<nat>, v: nat)
    requires v < |pos|
  {
    pos[v] < |bs|
  }

  ghost predicate Placed(hs: seq<uint32>, bs: seq<Slot>, pos: seq<nat>, v: nat)
    requires |pos| == |hs| && v < |pos|
  {
    pos[v] <= |bs| && (pos[v] < |bs| ==> bs[pos[v]] == Used(v, hs[v]))
  }

  ghost predicate Sound(hs: seq<uint32>, bs: seq<Slot>, pos: seq<nat>, i: nat)
    requires |pos| == |hs| && i < |bs|
  {
    bs[i].Used? ==> bs[i].index < |hs| && pos[bs[i].index] == i && bs[i].hash == hs[bs[i].index]
  }

  /** Live values and used buckets point at each other; nothing is said of the order of the buckets. */
  ghost predicate Linked(home: uint32 -> nat, hs: seq<uint32>, bs: seq<Slot>, pos: seq<nat>) {
    && HomesFit(home, |bs|) && |pos| == |hs| && 0 < |bs|
    && (forall v :: 0 <= v < |pos| ==> Placed(hs, bs, pos, v))
    && (forall i :: 0 <= i < |bs| ==> Sound(hs, bs, pos, i))
  }

  ghost predicate Index(home: uint32 -> nat, hs: seq<uint32>, bs: seq<Slot>, pos: seq<nat>) {
    Linked(home, hs, bs, pos) && AllOrdered(home, bs)
  }

  ghost predicate AllLive(bs: seq<Slot>, pos: seq<nat>) {
    forall v :: 0 <= v < |pos| ==> Live(bs, pos, v)
  }

  // ---------------------------------------------------------------- probing

  /** Walking m buckets back from a bucket at least m from home, every bucket is used and distances fall slowly. */
  lemma {:induction false} Chain(home: uint32 -> nat, bs: seq<Slot>, i: nat, j: nat)
    requires HomesFit(home, |bs|) && AllOrdered(home, bs) && i < |bs| && j < |bs|
    requires bs[i].Used? && DistAt(home, bs, i) >= Dist(i, j, |bs|)
    ensures bs[j].Used? && DistAt(home, bs, j) >= DistAt(home, bs, i) - Dist(i, j, |bs|)
    decreases Dist(i, j, |bs|)
  {
    var n := |bs|;
    if i == j {
    } else {
      var p := if i == 0 then n - 1 else i - 1;
      assert Next(p, n) == i && Ordered(home, bs, p);
      Chain(home, bs, p, j);
    }
  }

  /** The bucket t steps behind another. */
  function Step(from: nat, t: nat, n: nat): (j: nat)
    requires from < n && t <= n
    ensures j < n
  {
    if from + t < n then from + t else from + t - n
  }

  lemma StepDist(from: nat, t: nat, n: nat)
    requires from < n && t < n
    ensures Dist(Step(from, t, n), from, n) == t
    ensures Next(Step(from, t, n), n) == Step(from, t + 1, n)
  {
  }

  /** A live value of the hash at or behind step t proves the bucket there used and at least as far from home. */
  lemma StoredBehind(home: uint32 -> nat, hs: seq<uint32>, bs: seq<Slot>, pos: seq<nat>, v: nat, t: nat)
    requires Index(home, hs, bs, pos) && v < |pos| && Live(bs, pos, v) && t < |bs|
    requires t <= Dist(pos[v], home(hs[v]), |bs|)
    ensures var j := Step(home(hs[v]), t, |bs|);
            && bs[j].Used? && t <= DistAt(home, bs, j)
            && (t == Dist(pos[v], home(hs[v]), |bs|) ==> j == pos[v] && bs[j].index == v)
  {
    var n, h := |bs|, home(hs[v]);
    var j := Step(h, t, n);
    assert Placed(hs, bs, pos, v);
    StepDist(h, t, n);
    DistBetween(pos[v], j, h, n);
    Chain(home, bs, pos[v], j);
    if t == Dist(pos[v], h, n) {
      DistInjective(pos[v], j, h, n);
    }
  }

  // ---------------------------------------------------------------- a free bucket exists

  /** With a dead value and no more values than buckets, some bucket is free. */
  lemma FreeExists(home: uint32 -> nat, hs: seq<uint32>, bs: seq<Slot>, pos: seq<nat>, dead: nat) returns (e: nat)
    requires Linked(home, hs, bs, pos) && |hs| <= |bs|
    requires dead < |pos| && !Live(bs, pos, dead)
    ensures e < |bs| && bs[e].Free?
  {
    e := 0;
    if exists i :: 0 <= i < |bs| && bs[i].Free? {
      e :| 0 <= e < |bs| && bs[e].Free?;
    } else {
      assert Placed(hs, bs, pos, dead);
      forall i | i in Below(|bs| + 1)
        ensures i in Image(pos)
      {
        if i < |bs| {
          assert Sound(hs, bs, pos, i);
        }
      }
      SubsetSize(Below(|bs| + 1), Image(pos));
    }
  }

  // ---------------------------------------------------------------- inserting an index

  /** Dead value c.index is in hand at bucket place, t buckets from its ideal one. */
  ghost predicate Carrying(home: uint32 -> nat, hs: seq<uint32>, bs: seq<Slot>, pos: seq<nat>, c: Slot, place: nat,
                           t: nat) {
    var n := |bs|;
    && Index(home, hs, bs, pos)
    && c.Used? && c.index < |hs| && c.hash == hs[c.index] && !Live(bs, pos, c.index)
    && place < n && t == Dist(place, home(c.hash), n)
    && (forall p :: 0 <= p < n && Next(p, n) == place && t > 0 ==> bs[p].Used? && t <= DistAt(home, bs, p) + 1)
  }

  lemma CarryStart(home: uint32 -> nat, hs: seq<uint32>, bs: seq<Slot>, pos: seq<nat>, v: nat)
    requires Index(home, hs, bs, pos) && v < |pos| && !Live(bs, pos, v)
    ensures Carrying(home, hs, bs, pos, Used(v, hs[v]), home(hs[v]), 0)
  {
  }

  /** Next to a used bucket, a distance can still grow if some bucket is free. */
  lemma RoomBehind(home: uint32 -> nat, bs: seq<Slot>, i: nat, e: nat)
    requires HomesFit(home, |bs|) && AllOrdered(home, bs) && i < |bs| && bs[i].Used? && e < |bs| && bs[e].Free?
    ensures DistAt(home, bs, i) + 1 < |bs|
    ensures Dist(Next(i, |bs|), home(bs[i].hash), |bs|) == DistAt(home, bs, i) + 1
  {
    DistNext(i, home(bs[i].hash), |bs|);
    if DistAt(home, bs, i) + 1 == |bs| {
      Chain(home, bs, i, e);
    }
  }

  /** Past a bucket that is no nearer to its home. */
  lemma CarryPast(home: uint32 -> nat, hs: seq<uint32>, bs: seq<Slot>, pos: seq<nat>, c: Slot, place: nat, t: nat,
                  e: nat)
    requires Carrying(home, hs, bs, pos, c, place, t) && bs[place].Used? && t <= DistAt(home, bs, place)
    requires e < |bs| && bs[e].Free?
    ensures Carrying(home, hs, bs, pos, c, Next(place, |bs|), t + 1)
  {
    RoomBehind(home, bs, place, e);
    DistNext(place, home(c.hash), |bs|);
    forall p | 0 <= p < |bs| && Next(p, |bs|) == Next(place, |bs|)
      ensures p == place
    {
      NextInjective(p, place, |bs|);
    }
  }

  lemma PutOrdered(home: uint32 -> nat, bs: seq<Slot>, c: Slot, place: nat, t: nat)
    requires HomesFit(home, |bs|) && AllOrdered(home, bs) && place < |bs| && c.Used?
    requires t == Dist(place, home(c.hash), |bs|) && (bs[place].Used? ==> DistAt(home, bs, place) < t)
    requires forall p | 0 <= p < |bs| && Next(p, |bs|) == place && t > 0 ::
               bs[p].Used? && t <= DistAt(home, bs, p) + 1
    ensures AllOrdered(home, bs[place := c])
  {
    var bs' := bs[place := c];
    forall i | 0 <= i < |bs|
      ensures Ordered(home, bs', i)
    {
      assert Ordered(home, bs, i) && Ordered(home, bs, place);
    }
  }

  lemma PutLinked(home: uint32 -> nat, hs: seq<uint32>, bs: seq<Slot>, pos: seq<nat>, c: Slot, place: nat)
    requires Linked(home, hs, bs, pos) && place < |bs|
    requires c.Used? && c.index < |hs| && c.hash == hs[c.index] && !Live(bs, pos, c.index)
    ensures bs[place].Used? ==> bs[place].index < |pos| && bs[place].index != c.index
    ensures var pos1 := if bs[place].Used? then pos[bs[place].index := |bs|] else pos;
            Linked(home, hs, bs[place := c], pos1[c.index := place])
  {
    assert Sound(hs, bs, pos, place);
    var pos1 := if bs[place].Used? then pos[bs[place].index := |bs|] else pos;
    var bs', pos' := bs[place := c], pos1[c.index := place];
    forall v | 0 <= v < |pos|
      ensures Placed(hs, bs', pos', v)
    {
      assert Placed(hs, bs, pos, v);
    }
    forall i | 0 <= i < |bs|
      ensures Sound(hs, bs', pos', i)
    {
      assert Sound(hs, bs, pos, i);
    }
  }

  /** Put down in a bucket nearer to its home, whose own value is in hand next. */
  lemma CarrySwap(home: uint32 -> nat, hs: seq<uint32>, bs: seq<Slot>, pos: seq<nat>, c: Slot, place: nat, t: nat,
                  e: nat)
    requires Carrying(home, hs, bs, pos, c, place, t) && bs[place].Used? && DistAt(home, bs, place) < t
    requires e < |bs| && bs[e].Free?
    ensures bs[place].index < |pos| && bs[place].index != c.index
    ensures Carrying(home, hs, bs[place := c], pos[bs[place].index := |bs|][c.index := place], bs[place],
                     Next(place, |bs|), DistAt(home, bs, place) + 1)
  {
    var o := bs[place];
    assert Sound(hs, bs, pos, place);
    RoomBehind(home, bs, place, e);
    PutOrdered(home, bs, c, place, t);
    PutLinked(home, hs, bs, pos, c, place);
    forall p | 0 <= p < |bs| && Next(p, |bs|) == Next(place, |bs|)
      ensures p == place
    {
      NextInjective(p, place, |bs|);
    }
  }

  lemma CarryEnd(home: uint32 -> nat, hs: seq<uint32>, bs: seq<Slot>, pos: seq<nat>, c: Slot, place: nat, t: nat)
    requires Carrying(home, hs, bs, pos, c, place, t) && bs[place].Free?
    ensures Index(home, hs, bs[place := c], pos[c.index := place])
  {
    PutOrdered(home, bs, c, place, t);
    PutLinked(home, hs, bs, pos, c, place);
  }

  // ---------------------------------------------------------------- clearing a bucket and shifting back

  /** Ordered but for the free bucket b, whose neighbours are still as its old value left them. */
  ghost predicate OrderedAround(home: uint32 -> nat, bs: seq<Slot>, b: nat)
    requires HomesFit(home, |bs|)
  {
    var n := |bs|;
    && b < n && bs[b].Free?
    && (forall i :: 0 <= i < n && i != b ==> Ordered(home, bs, i))
    && (DistAt(home, bs, Next(b, n)) >= 2 ==>
          forall p :: 0 <= p < n && Next(p, n) == b ==>
            bs[p].Used? && DistAt(home, bs, Next(b, n)) <= DistAt(home, bs, p) + 2)
  }

  lemma ClearOrdered(home: uint32 -> nat, bs: seq<Slot>, b: nat)
    requires HomesFit(home, |bs|) && AllOrdered(home, bs) && b < |bs| && bs[b].Used?
    ensures OrderedAround(home, bs[b := Free], b)
  {
    var n, bs' := |bs|, bs[b := Free];
    assert Ordered(home, bs, b);
    forall i | 0 <= i < n && i != b
      ensures Ordered(home, bs', i)
    {
      assert Ordered(home, bs, i);
    }
    forall p | 0 <= p < n && Next(p, n) == b && DistAt(home, bs', Next(b, n)) >= 2
      ensures bs'[p].Used? && DistAt(home, bs', Next(b, n)) <= DistAt(home, bs', p) + 2
    {
      assert Ordered(home, bs, p);
    }
  }

  /** One swap of the backward shift. */
  lemma ShiftOrdered(home: uint32 -> nat, bs: seq<Slot>, b: nat)
    requires HomesFit(home, |bs|) && OrderedAround(home, bs, b) && DistAt(home, bs, Next(b, |bs|)) > 0
    ensures var nb := Next(b, |bs|);
            OrderedAround(home, bs[b := bs[nb]][nb := Free], nb)
            && DistAt(home, bs[b := bs[nb]][nb := Free], b) == DistAt(home, bs, nb) - 1
  {
    var n, nb := |bs|, Next(b, |bs|);
    var bs' := bs[b := bs[nb]][nb := Free];
    DistNext(b, home(bs[nb].hash), n);
    assert Ordered(home, bs, nb);
    forall i | 0 <= i < n && i != nb
      ensures Ordered(home, bs', i)
    {
      if i != b {
        assert Ordered(home, bs, i);
      }
    }
    forall p | 0 <= p < n && Next(p, n) == nb
      ensures p == b
    {
      NextInjective(p, b, n);
    }
  }

  lemma ShiftEnd(home: uint32 -> nat, bs: seq<Slot>, b: nat)
    requires HomesFit(home, |bs|) && OrderedAround(home, bs, b) && DistAt(home, bs, Next(b, |bs|)) == 0
    ensures AllOrdered(home, bs)
  {
  }

  lemma ClearLinked(home: uint32 -> nat, hs: seq<uint32>, bs: seq<Slot>, pos: seq<nat>, b: nat)
    requires Linked(home, hs, bs, pos) && b < |bs| && bs[b].Used?
    ensures bs[b].index < |pos| && Linked(home, hs, bs[b := Free], pos[bs[b].index := |bs|])
  {
    assert Sound(hs, bs, pos, b);
    var bs', pos' := bs[b := Free], pos[bs[b].index := |bs|];
    forall v | 0 <= v < |pos|
      ensures Placed(hs, bs', pos', v)
    {
      assert Placed(hs, bs, pos, v);
    }
    forall i | 0 <= i < |bs|
      ensures Sound(hs, bs', pos', i)
    {
      assert Sound(hs, bs, pos, i);
    }
  }

  lemma ShiftLinked(home: uint32 -> nat, hs: seq<uint32>, bs: seq<Slot>, pos: seq<nat>, b: nat)
    requires Linked(home, hs, bs, pos) && b < |bs| && bs[b].Free? && bs[Next(b, |bs|)].Used?
    ensures var nb := Next(b, |bs|);
            && bs[nb].index < |pos|
            && Linked(home, hs, bs[b := bs[nb]][nb := Free], pos[bs[nb].index := b])
  {
    var nb := Next(b, |bs|);
    assert Sound(hs, bs, pos, nb);
    var bs', pos' := bs[b := bs[nb]][nb := Free], pos[bs[nb].index := b];
    forall v | 0 <= v < |pos|
      ensures Placed(hs, bs', pos', v)
    {
      assert Placed(hs, bs, pos, v);
    }
    forall i | 0 <= i < |bs|
      ensures Sound(hs, bs', pos', i)
    {
      assert Sound(hs, bs, pos, i);
    }
  }

  /** The distances of the first k buckets together: every swap of the backward shift lowers the total. */
  ghost function TotalDist(home: uint32 -> nat, bs: seq<Slot>, k: nat): nat
    requires HomesFit(home, |bs|) && k <= |bs|
  {
    if k == 0 then 0 else TotalDist(home, bs, k - 1) + DistAt(home, bs, k - 1)
  }

  lemma {:induction false} TotalUpdate(home: uint32 -> nat, bs: seq<Slot>, i: nat, x: Slot, k: nat)
    requires HomesFit(home, |bs|) && k <= |bs| && i < |bs|
    ensures TotalDist(home, bs[i := x], k) ==
            if i < k then TotalDist(home, bs, k) - DistAt(home, bs, i) + DistAt(home, bs[i := x], i)
            else TotalDist(home, bs, k)
  {
    if k == 0 {
    } else {
      TotalUpdate(home, bs, i, x, k - 1);
    }
  }

  lemma ShiftLowersTotal(home: uint32 -> nat, bs: seq<Slot>, b: nat)
    requires HomesFit(home, |bs|) && OrderedAround(home, bs, b) && DistAt(home, bs, Next(b, |bs|)) > 0
    ensures var nb := Next(b, |bs|);
            TotalDist(home, bs[b := bs[nb]][nb := Free], |bs|) == TotalDist(home, bs, |bs|) - 1
  {
    var nb := Next(b, |bs|);
    ShiftOrdered(home, bs, b);
    TotalUpdate(home, bs, b, bs[nb], |bs|);
    TotalUpdate(home, bs[b := bs[nb]], nb, Free, |bs|);
  }

  // ---------------------------------------------------------------- renumbering values

  function ShiftSlot(s: Slot, from: nat, delta: int): Slot
    requires delta == 1 || (delta == -1 && from > 0)
  {
    if s.Used? && s.index >= from then Used(s.index + delta, s.hash) else s
  }

  /** Every index of at least `from` moved by delta. */
  ghost function Shifted(bs: seq<Slot>, from: nat, delta: int): (r: seq<Slot>)
    requires delta == 1 || (delta == -1 && from > 0)
    ensures |r| == |bs| && forall i :: 0 <= i < |bs| ==> r[i] == ShiftSlot(bs[i], from, delta)
  {
    seq(|bs|, i requires 0 <= i < |bs| => ShiftSlot(bs[i], from, delta))
  }

  /** Renumbering keeps every distance. */
  lemma ShiftedDist(home: uint32 -> nat, bs: seq<Slot>, from: nat, delta: int)
    requires HomesFit(home, |bs|) && (delta == 1 || (delta == -1 && from > 0))
    ensures forall i :: 0 <= i < |bs| ==> DistAt(home, Shifted(bs, from, delta), i) == DistAt(home, bs, i)
  {
  }

  lemma ShiftedOrdered(home: uint32 -> nat, bs: seq<Slot>, from: nat, delta: int)
    requires HomesFit(home, |bs|) && (delta == 1 || (delta == -1 && from > 0)) && AllOrdered(home, bs)
    ensures AllOrdered(home, Shifted(bs, from, delta))
  {
    var bs' := Shifted(bs, from, delta);
    ShiftedDist(home, bs, from, delta);
    forall i | 0 <= i < |bs|
      ensures Ordered(home, bs', i)
    {
      assert Ordered(home, bs, i);
    }
  }

  lemma ShiftedOrderedAround(home: uint32 -> nat, bs: seq<Slot>, from: nat, delta: int, b: nat)
    requires HomesFit(home, |bs|) && (delta == 1 || (delta == -1 && from > 0)) && OrderedAround(home, bs, b)
    ensures OrderedAround(home, Shifted(bs, from, delta), b)
  {
    var bs' := Shifted(bs, from, delta);
    ShiftedDist(home, bs, from, delta);
    forall i | 0 <= i < |bs| && i != b
      ensures Ordered(home, bs', i)
    {
      assert Ordered(home, bs, i);
    }
  }

  function InsertAt<T>(s: seq<T>, p: nat, x: T): (r: seq<T>)
    requires p <= |s|
    ensures |r| == |s| + 1
  {
    s[..p] + [x] + s[p..]
  }

  function RemoveAt<T>(s: seq<T>, p: nat): (r: seq<T>)
    requires p < |s|
    ensures |r| == |s| - 1
  {
    s[..p] + s[p + 1..]
  }

  /** A new dead value before value p. */
  lemma GapLinked(home: uint32 -> nat, hs: seq<uint32>, bs: seq<Slot>, pos: seq<nat>, p: nat, h: uint32)
    requires Linked(home, hs, bs, pos) && p <= |hs|
    ensures Linked(home, InsertAt(hs, p, h), Shifted(bs, p, 1), InsertAt(pos, p, |bs|))
  {
    var hs', bs', pos' := InsertAt(hs, p, h), Shifted(bs, p, 1), InsertAt(pos, p, |bs|);
    forall v | 0 <= v < |pos'|
      ensures Placed(hs', bs', pos', v)
    {
      if v != p {
        assert Placed(hs, bs, pos, if v < p then v else v - 1);
      }
    }
    forall i | 0 <= i < |bs|
      ensures Sound(hs', bs', pos', i)
    {
      assert Sound(hs, bs, pos, i);
    }
  }

  /** Appending does not renumber anything. */
  lemma ShiftedBeyond(home: uint32 -> nat, hs: seq<uint32>, bs: seq<Slot>, pos: seq<nat>)
    requires Linked(home, hs, bs, pos)
    ensures Shifted(bs, |hs|, 1) == bs
  {
    forall i | 0 <= i < |bs|
      ensures Shifted(bs, |hs|, 1)[i] == bs[i]
    {
      assert Sound(hs, bs, pos, i);
    }
  }

  /** Dead value v is forgotten. */
  lemma ForgetLinked(home: uint32 -> nat, hs: seq<uint32>, bs: seq<Slot>, pos: seq<nat>, v: nat)
    requires Linked(home, hs, bs, pos) && v < |hs| && !Live(bs, pos, v)
    ensures Linked(home, RemoveAt(hs, v), Shifted(bs, v + 1, -1), RemoveAt(pos, v))
  {
    var hs', bs', pos' := RemoveAt(hs, v), Shifted(bs, v + 1, -1), RemoveAt(pos, v);
    forall u | 0 <= u < |pos'|
      ensures Placed(hs', bs', pos', u)
    {
      assert Placed(hs, bs, pos, if u < v then u else u + 1);
    }
    forall i | 0 <= i < |bs|
      ensures Sound(hs', bs', pos', i)
    {
      assert Sound(hs, bs, pos, i);
    }
  }

  /** Dead values at the end are forgotten. */
  lemma TruncateLinked(home: uint32 -> nat, hs: seq<uint32>, bs: seq<Slot>, pos: seq<nat>, m: nat)
    requires Linked(home, hs, bs, pos) && m <= |hs|
    requires forall v :: m <= v < |pos| ==> !Live(bs, pos, v)
    ensures Linked(home, hs[..m], bs, pos[..m])
  {
    forall v | 0 <= v < m
      ensures Placed(hs[..m], bs, pos[..m], v)
    {
      assert Placed(hs, bs, pos, v);
    }
    forall i | 0 <= i < |bs|
      ensures Sound(hs[..m], bs, pos[..m], i)
    {
      assert Sound(hs, bs, pos, i);
      if bs[i].Used? && bs[i].index >= m {
        assert Live(bs, pos, bs[i].index);
      }
    }
  }

  /** A live value moves into the slot of a dead one, and its bucket follows. */
  lemma MoveLinked(home: uint32 -> nat, hs: seq<uint32>, bs: seq<Slot>, pos: seq<nat>, v: nat, w: nat)
    requires Linked(home, hs, bs, pos) && v < |hs| && w < |hs| && Live(bs, pos, v) && !Live(bs, pos, w)
    ensures var b := pos[v];
            Linked(home, hs[w := hs[v]], bs[b := Used(w, hs[v])], pos[w := b][v := |bs|])
  {
    var b := pos[v];
    assert Placed(hs, bs, pos, v);
    var hs', bs', pos' := hs[w := hs[v]], bs[b := Used(w, hs[v])], pos[w := b][v := |bs|];
    forall u | 0 <= u < |pos|
      ensures Placed(hs', bs', pos', u)
    {
      assert Placed(hs, bs, pos, u);
    }
    forall i | 0 <= i < |bs|
      ensures Sound(hs', bs', pos', i)
    {
      assert Sound(hs, bs, pos, i);
    }
  }

  /** Two live values trade slots, and their buckets trade indexes. */
  lemma TradeLinked(home: uint32 -> nat, hs: seq<uint32>, bs: seq<Slot>, pos: seq<nat>, v: nat, w: nat)
    requires Linked(home, hs, bs, pos) && v < |hs| && w < |hs| && v != w && Live(bs, pos, v) && Live(bs, pos, w)
    ensures Linked(home, hs[v := hs[w]][w := hs[v]],
                   bs[pos[v] := Used(w, hs[v])][pos[w] := Used(v, hs[w])], pos[v := pos[w]][w := pos[v]])
  {
    assert Placed(hs, bs, pos, v) && Placed(hs, bs, pos, w);
    var hs', pos' := hs[v := hs[w]][w := hs[v]], pos[v := pos[w]][w := pos[v]];
    var bs' := bs[pos[v] := Used(w, hs[v])][pos[w] := Used(v, hs[w])];
    forall u | 0 <= u < |pos|
      ensures Placed(hs', bs', pos', u)
    {
      assert Placed(hs, bs, pos, u);
    }
    forall i | 0 <= i < |bs|
      ensures Sound(hs', bs', pos', i)
    {
      assert Sound(hs, bs, pos, i);
    }
  }

  /** Rewriting indexes alone keeps the order. */
  lemma IndexesOrdered(home: uint32 -> nat, bs: seq<Slot>, bs': seq<Slot>)
    requires HomesFit(home, |bs|) && |bs'| == |bs| && AllOrdered(home, bs)
    requires forall i :: 0 <= i < |bs| ==> bs[i].Used? == bs'[i].Used? && (bs[i].Used? ==> bs[i].hash == bs'[i].hash)
    ensures AllOrdered(home, bs')
  {
    forall i | 0 <= i < |bs|
      ensures Ordered(home, bs', i)
    {
      assert Ordered(home, bs, i);
      var j := Next(i, |bs|);
      assert DistAt(home, bs', j) == DistAt(home, bs, j) && DistAt(home, bs', i) == DistAt(home, bs, i);
    }
  }
}
