/** Positions around a bucket array that wraps from its end to its start. */
module Circular {

  function Next(i: nat, n: nat): (j: nat)
    requires i < n
    ensures j < n
  {
    if i + 1 == n then 0 else i + 1
  }

  /** How many steps lead from `from` forwards to i. */
  function Dist(i: nat, from: nat, n: nat): (d: nat)
    requires i < n && from < n
    ensures d < n
  {
    if from <= i then i - from else n + i - from
  }

  lemma DistNext(i: nat, from: nat, n: nat)
    requires i < n && from < n
    ensures Dist(Next(i, n), from, n) == if Dist(i, from, n) + 1 == n then 0 else Dist(i, from, n) + 1
  {
  }

  /** Towards a target that is not here yet, a step forwards shortens the way by one. */
  lemma DistToward(target: nat, i: nat, n: nat)
    requires target < n && i < n && target != i
    ensures Dist(target, Next(i, n), n) == Dist(target, i, n) - 1
  {
  }

  lemma DistBetween(i: nat, j: nat, from: nat, n: nat)
    requires i < n && j < n && from < n && Dist(j, from, n) <= Dist(i, from, n)
    ensures Dist(i, j, n) == Dist(i, from, n) - Dist(j, from, n)
  {
  }

  lemma DistInjective(i: nat, j: nat, from: nat, n: nat)
    requires i < n && j < n && from < n && Dist(i, from, n) == Dist(j, from, n)
    ensures i == j
  {
  }

  lemma NextInjective(i: nat, j: nat, n: nat)
    requires i < n && j < n && Next(i, n) == Next(j, n)
    ensures i == j
  {
  }
}

/**
 * The bucket array of unordered_dense.h: each bucket holds a distance with a fingerprint and the index of a value, or
 * is empty with both zero.
 */
module RobinHood {
  import opened Circular
  import opened Naturals

  type uint64 = x: nat | x < 0x1_0000_0000_0000_0000

  const DIST_INC: nat := 256
  const MAX_BUCKETS: nat := 0x80_0000

  datatype Bucket = Bucket(daf: nat, idx: nat)

  const EMPTY := Bucket(0, 0)

  /** The 32-bit additions of the source. */
  function DistInc(x: nat): nat {
    (x + DIST_INC) % 0x1_0000_0000
  }

  function DistDec(x: nat): nat
    requires x >= DIST_INC
  {
    x - DIST_INC
  }

  /** The distance-and-fingerprint of a value `dist` buckets from its home. */
  function Daf(hash: uint64, dist: nat): nat {
    (dist + 1) * DIST_INC + hash % 256
  }

  lemma DafInc(hash: uint64, dist: nat)
    requires dist < MAX_BUCKETS
    ensures DistInc(Daf(hash, dist)) == Daf(hash, dist + 1) == Daf(hash, dist) + DIST_INC
  {
  }

  // ---------------------------------------------------------------- the index invariant

  ghost predicate HomesFit(home: uint64 -> nat, n: nat) {
    forall h: uint64 :: home(h) < n
  }

  ghost predicate Placed(bs: seq<Bucket>, pos: seq<nat>, v: nat)
    requires v < |pos|
  {
    pos[v] < |bs| && bs[pos[v]].daf > 0 && bs[pos[v]].idx == v
  }

  ghost predicate Sound(home: uint64 -> nat, hs: seq<uint64>, bs: seq<Bucket>, pos: seq<nat>, i: nat)
    requires HomesFit(home, |bs|) && |pos| == |hs| && i < |bs|
  {
    if bs[i].daf == 0 then bs[i] == EMPTY
    else
      && bs[i].idx < |hs| && pos[bs[i].idx] == i
      && bs[i].daf == Daf(hs[bs[i].idx], Dist(i, home(hs[bs[i].idx]), |bs|))
  }

  /** A displaced value is never much poorer than its neighbour in front. */
  ghost predicate Ordered(bs: seq<Bucket>, i: nat)
    requires i < |bs|
  {
    var d := bs[Next(i, |bs|)].daf;
    d < 2 * DIST_INC || d <= bs[i].daf + DIST_INC
  }

  ghost predicate AllOrdered(bs: seq<Bucket>) {
    forall i :: 0 <= i < |bs| ==> Ordered(bs, i)
  }

  ghost predicate Shape(home: uint64 -> nat, hs: seq<uint64>, bs: seq<Bucket>, pos: seq<nat>) {
    0 < |bs| <= MAX_BUCKETS && |pos| == |hs| && HomesFit(home, |bs|)
  }

  /**
   * The buckets index the values whose hashes are hs: pos gives the bucket of every value, no bucket holds anything
   * else, each distance and fingerprint is true, and probe sequences are ordered.
   */
  ghost predicate Index(home: uint64 -> nat, hs: seq<uint64>, bs: seq<Bucket>, pos: seq<nat>) {
    && Shape(home, hs, bs, pos)
    && (forall v :: 0 <= v < |pos| ==> Placed(bs, pos, v))
    && (forall i :: 0 <= i < |bs| ==> Sound(home, hs, bs, pos, i))
    && AllOrdered(bs)
  }

  // ---------------------------------------------------------------- probing

  /** Walking m buckets back from a rich enough bucket, richness falls by at most one distance per step. */
  lemma {:induction false} Chain(bs: seq<Bucket>, i: nat, j: nat)
    requires i < |bs| && j < |bs| && AllOrdered(bs)
    requires bs[i].daf >= (Dist(i, j, |bs|) + 1) * DIST_INC
    ensures bs[j].daf >= bs[i].daf - Dist(i, j, |bs|) * DIST_INC
    decreases Dist(i, j, |bs|)
  {
    var n := |bs|;
    if i == j {
    } else {
      var p := if i == 0 then n - 1 else i - 1;
      assert Next(p, n) == i && Ordered(bs, p);
      Chain(bs, p, j);
    }
  }

  /** A probe for a hash has reached bucket j with d, meeting no empty bucket and only richer ones on its way. */
  ghost predicate Probing(home: uint64 -> nat, bs: seq<Bucket>, hash: uint64, j: nat, d: nat)
    requires HomesFit(home, |bs|)
  {
    var n := |bs|;
    && j < n && d == Daf(hash, Dist(j, home(hash), n))
    && (forall e :: 0 <= e < n && bs[e].daf == 0 ==> Dist(j, home(hash), n) <= Dist(e, home(hash), n))
    && (forall p :: 0 <= p < n && Next(p, n) == j && j != home(hash) ==> d <= bs[p].daf + DIST_INC)
  }

  lemma ProbeStart(home: uint64 -> nat, bs: seq<Bucket>, hash: uint64)
    requires HomesFit(home, |bs|)
    ensures Probing(home, bs, hash, home(hash), Daf(hash, 0))
  {
  }

  lemma ProbeNext(home: uint64 -> nat, bs: seq<Bucket>, hash: uint64, j: nat, d: nat, e: nat)
    requires HomesFit(home, |bs|) && |bs| <= MAX_BUCKETS && Probing(home, bs, hash, j, d)
    requires d <= bs[j].daf && e < |bs| && bs[e].daf == 0
    ensures Probing(home, bs, hash, Next(j, |bs|), DistInc(d))
    ensures Dist(Next(j, |bs|), home(hash), |bs|) == Dist(j, home(hash), |bs|) + 1
    ensures Dist(j, home(hash), |bs|) < Dist(e, home(hash), |bs|)
  {
    var n, h := |bs|, home(hash);
    if Dist(e, h, n) == Dist(j, h, n) {
      DistInjective(e, j, h, n);
    }
    DistNext(j, h, n);
    DafInc(hash, Dist(j, h, n));
    forall f | 0 <= f < n && bs[f].daf == 0
      ensures Dist(j, h, n) + 1 <= Dist(f, h, n)
    {
      if Dist(f, h, n) == Dist(j, h, n) {
        DistInjective(f, j, h, n);
      }
    }
    forall p | 0 <= p < n && Next(p, n) == Next(j, n)
      ensures p == j
    {
      NextInjective(p, j, n);
    }
  }

  /** A value of the hash that lies at or behind bucket j proves bucket j at least as rich as the probe. */
  lemma StoredBehind(home: uint64 -> nat, hs: seq<uint64>, bs: seq<Bucket>, pos: seq<nat>, v: nat, j: nat)
    requires Index(home, hs, bs, pos) && v < |hs| && j < |bs| && Placed(bs, pos, v)
    requires Dist(j, home(hs[v]), |bs|) <= Dist(pos[v], home(hs[v]), |bs|)
    ensures Daf(hs[v], Dist(j, home(hs[v]), |bs|)) <= bs[j].daf
    ensures pos[v] == j ==> bs[j].daf == Daf(hs[v], Dist(j, home(hs[v]), |bs|)) && bs[j].idx == v
  {
    var n, h := |bs|, home(hs[v]);
    assert Placed(bs, pos, v);
    assert Sound(home, hs, bs, pos, pos[v]);
    DistBetween(pos[v], j, h, n);
    Chain(bs, pos[v], j);
  }

  // ---------------------------------------------------------------- an empty bucket exists

  /** Fewer values than buckets leave a bucket empty. */
  lemma EmptyExists(home: uint64 -> nat, hs: seq<uint64>, bs: seq<Bucket>, pos: seq<nat>) returns (e: nat)
    requires Index(home, hs, bs, pos) && |hs| < |bs|
    ensures e < |bs| && bs[e].daf == 0
  {
    e := 0;
    if exists i :: 0 <= i < |bs| && bs[i].daf == 0 {
      e :| 0 <= e < |bs| && bs[e].daf == 0;
    } else {
      forall i | i in Below(|bs|)
        ensures i in Image(pos)
      {
        assert Sound(home, hs, bs, pos, i);
      }
      SubsetSize(Below(|bs|), Image(pos));
    }
  }

  // ---------------------------------------------------------------- placing a bucket and shifting up

  /** As Index, except that the bucket c of one value is in hand and about to be placed. */
  ghost predicate Carrying(home: uint64 -> nat, hs: seq<uint64>, bs: seq<Bucket>, pos: seq<nat>, c: Bucket,
                           place: nat) {
    var n := |bs|;
    && Shape(home, hs, bs, pos)
    && place < n && c.idx < |hs|
    && c.daf == Daf(hs[c.idx], Dist(place, home(hs[c.idx]), n))
    && (forall v :: 0 <= v < |pos| && v != c.idx ==> Placed(bs, pos, v))
    && (forall i :: 0 <= i < n ==> Sound(home, hs, bs, pos, i) && (bs[i].daf > 0 ==> bs[i].idx != c.idx))
    && AllOrdered(bs)
    && bs[place].daf <= c.daf
    && (forall p :: 0 <= p < n && Next(p, n) == place ==> c.daf < 2 * DIST_INC || c.daf <= bs[p].daf + DIST_INC)
  }

  /** A new value at the end of hs is in hand once its probe has found a bucket that is not richer. */
  lemma CarryStart(home: uint64 -> nat, hs: seq<uint64>, bs: seq<Bucket>, pos: seq<nat>, hash: uint64, place: nat,
                   d: nat)
    requires Index(home, hs, bs, pos) && Probing(home, bs, hash, place, d) && bs[place].daf <= d
    ensures Carrying(home, hs + [hash], bs, pos + [0], Bucket(d, |hs|), place)
  {
    var hs', pos' := hs + [hash], pos + [0];
    forall v | 0 <= v < |pos|
      ensures Placed(bs, pos', v)
    {
      assert Placed(bs, pos, v);
    }
    forall i | 0 <= i < |bs|
      ensures Sound(home, hs', bs, pos', i) && (bs[i].daf > 0 ==> bs[i].idx != |hs|)
    {
      assert Sound(home, hs, bs, pos, i);
    }
  }

  /** The way from a full bucket forwards to an empty one does not pass the full bucket's home. */
  lemma HomeBeforeEmpty(home: uint64 -> nat, hs: seq<uint64>, bs: seq<Bucket>, pos: seq<nat>, i: nat, e: nat)
    requires Shape(home, hs, bs, pos) && AllOrdered(bs) && i < |bs| && e < |bs|
    requires Sound(home, hs, bs, pos, i) && bs[i].daf > 0 && bs[e].daf == 0
    ensures Next(i, |bs|) != home(hs[bs[i].idx])
  {
    var n, h := |bs|, home(hs[bs[i].idx]);
    if Next(i, n) == h {
      DistNext(i, h, n);
      Chain(bs, i, e);
    }
  }

  lemma CarryOrdered(bs: seq<Bucket>, c: Bucket, place: nat)
    requires AllOrdered(bs) && place < |bs| && bs[place].daf <= c.daf
    requires forall p :: 0 <= p < |bs| && Next(p, |bs|) == place ==>
              c.daf < 2 * DIST_INC || c.daf <= bs[p].daf + DIST_INC
    ensures AllOrdered(bs[place := c])
  {
    var bs' := bs[place := c];
    forall i | 0 <= i < |bs|
      ensures Ordered(bs', i)
    {
      assert Ordered(bs, i);
    }
  }

  /** The bucket in hand changes places with the one it meets. */
  lemma CarryNext(home: uint64 -> nat, hs: seq<uint64>, bs: seq<Bucket>, pos: seq<nat>, c: Bucket, place: nat, e: nat)
    requires Carrying(home, hs, bs, pos, c, place) && bs[place].daf > 0
    requires e < |bs| && bs[e].daf == 0
    ensures Carrying(home, hs, bs[place := c], pos[c.idx := place], Bucket(DistInc(bs[place].daf), bs[place].idx),
                     Next(place, |bs|))
    ensures bs[place := c][e].daf == 0 && Dist(e, Next(place, |bs|), |bs|) < Dist(e, place, |bs|)
  {
    var n, o := |bs|, bs[place];
    var bs', pos' := bs[place := c], pos[c.idx := place];
    assert Sound(home, hs, bs, pos, place);
    HomeBeforeEmpty(home, hs, bs, pos, place, e);
    DistNext(place, home(hs[o.idx]), n);
    DafInc(hs[o.idx], Dist(place, home(hs[o.idx]), n));
    DistToward(e, place, n);
    forall v | 0 <= v < |pos| && v != o.idx
      ensures Placed(bs', pos', v)
    {
      if v != c.idx {
        assert Placed(bs, pos, v);
      }
    }
    forall i | 0 <= i < n
      ensures Sound(home, hs, bs', pos', i) && (bs'[i].daf > 0 ==> bs'[i].idx != o.idx)
    {
      assert Sound(home, hs, bs, pos, i);
    }
    CarryOrdered(bs, c, place);
    forall p | 0 <= p < n && Next(p, n) == Next(place, n)
      ensures p == place
    {
      NextInjective(p, place, n);
    }
    assert Ordered(bs, place);
  }

  /** Set down in an empty bucket, the bucket in hand completes the index. */
  lemma CarryEnd(home: uint64 -> nat, hs: seq<uint64>, bs: seq<Bucket>, pos: seq<nat>, c: Bucket, place: nat)
    requires Carrying(home, hs, bs, pos, c, place) && bs[place].daf == 0
    ensures Index(home, hs, bs[place := c], pos[c.idx := place])
  {
    var bs', pos' := bs[place := c], pos[c.idx := place];
    forall v | 0 <= v < |pos|
      ensures Placed(bs', pos', v)
    {
      if v != c.idx {
        assert Placed(bs, pos, v);
      }
    }
    forall i | 0 <= i < |bs|
      ensures Sound(home, hs, bs', pos', i) && Ordered(bs', i)
    {
      assert Sound(home, hs, bs, pos, i) && Ordered(bs, i);
    }
  }

  // ---------------------------------------------------------------- removing a bucket and shifting down

  /** As Index, except that value v is being removed and bucket b is free to be overwritten. */
  ghost predicate Hole(home: uint64 -> nat, hs: seq<uint64>, bs: seq<Bucket>, pos: seq<nat>, v: nat, b: nat) {
    var n := |bs|;
    && Shape(home, hs, bs, pos)
    && b < n && v < |hs| && bs[b].daf > 0
    && (forall u :: 0 <= u < |pos| && u != v ==> Placed(bs, pos, u) && pos[u] != b)
    && (forall i :: 0 <= i < n && i != b ==> Sound(home, hs, bs, pos, i) && (bs[i].daf > 0 ==> bs[i].idx != v))
    && AllOrdered(bs)
  }

  lemma HoleStart(home: uint64 -> nat, hs: seq<uint64>, bs: seq<Bucket>, pos: seq<nat>, v: nat)
    requires Index(home, hs, bs, pos) && v < |hs|
    ensures Hole(home, hs, bs, pos, v, pos[v])
  {
    assert Placed(bs, pos, v);
    forall u | 0 <= u < |pos| && u != v
      ensures Placed(bs, pos, u) && pos[u] != pos[v]
    {
      assert Placed(bs, pos, u);
    }
    forall i | 0 <= i < |bs| && i != pos[v]
      ensures Sound(home, hs, bs, pos, i) && (bs[i].daf > 0 ==> bs[i].idx != v)
    {
      assert Sound(home, hs, bs, pos, i);
    }
  }

  lemma HoleOrdered(bs: seq<Bucket>, b: nat, idx: nat)
    requires AllOrdered(bs) && b < |bs| && bs[Next(b, |bs|)].daf >= 2 * DIST_INC && Next(b, |bs|) != b
    ensures AllOrdered(bs[b := Bucket(DistDec(bs[Next(b, |bs|)].daf), idx)])
  {
    var bs' := bs[b := Bucket(DistDec(bs[Next(b, |bs|)].daf), idx)];
    assert Ordered(bs, b);
    forall i | 0 <= i < |bs|
      ensures Ordered(bs', i)
    {
      assert Ordered(bs, i);
    }
  }

  /** A displaced neighbour moves one bucket closer to its home and leaves the hole behind it. */
  lemma HoleNext(home: uint64 -> nat, hs: seq<uint64>, bs: seq<Bucket>, pos: seq<nat>, v: nat, b: nat, e: nat)
    requires Hole(home, hs, bs, pos, v, b) && e < |bs| && bs[e].daf == 0
    requires bs[Next(b, |bs|)].daf >= 2 * DIST_INC
    ensures var nb := Next(b, |bs|);
            var bs' := bs[b := Bucket(DistDec(bs[nb].daf), bs[nb].idx)];
            && bs[nb].idx < |pos|
            && Hole(home, hs, bs', pos[bs[nb].idx := b], v, nb)
            && bs'[e].daf == 0 && Dist(e, nb, |bs|) < Dist(e, b, |bs|)
  {
    var n, nb := |bs|, Next(b, |bs|);
    var o := bs[nb];
    DistToward(e, b, n);
    assert nb != b;
    assert Sound(home, hs, bs, pos, nb);
    var bs', pos' := bs[b := Bucket(DistDec(o.daf), o.idx)], pos[o.idx := b];
    var h := home(hs[o.idx]);
    assert nb != h;
    DistNext(b, h, n);
    assert Ordered(bs, b);
    forall u | 0 <= u < |pos| && u != v
      ensures Placed(bs', pos', u) && pos'[u] != nb
    {
      assert Placed(bs, pos, u) && pos[u] != b;
    }
    forall i | 0 <= i < n && i != nb
      ensures Sound(home, hs, bs', pos', i) && (bs'[i].daf > 0 ==> bs'[i].idx != v)
    {
      if i != b {
        assert Sound(home, hs, bs, pos, i);
      }
    }
    HoleOrdered(bs, b, o.idx);
  }

  /** What is left after a removal: every value but v is placed. */
  ghost predicate IndexWithout(home: uint64 -> nat, hs: seq<uint64>, bs: seq<Bucket>, pos: seq<nat>, v: nat) {
    && Shape(home, hs, bs, pos) && v < |hs|
    && (forall u :: 0 <= u < |pos| && u != v ==> Placed(bs, pos, u))
    && (forall i :: 0 <= i < |bs| ==> Sound(home, hs, bs, pos, i) && (bs[i].daf > 0 ==> bs[i].idx != v))
    && AllOrdered(bs)
  }

  lemma HoleEnd(home: uint64 -> nat, hs: seq<uint64>, bs: seq<Bucket>, pos: seq<nat>, v: nat, b: nat)
    requires Hole(home, hs, bs, pos, v, b) && bs[Next(b, |bs|)].daf < 2 * DIST_INC
    ensures IndexWithout(home, hs, bs[b := EMPTY], pos, v)
  {
    var bs' := bs[b := EMPTY];
    forall u | 0 <= u < |pos| && u != v
      ensures Placed(bs', pos, u)
    {
      assert Placed(bs, pos, u) && pos[u] != b;
    }
    forall i | 0 <= i < |bs|
      ensures Sound(home, hs, bs', pos, i) && (bs'[i].daf > 0 ==> bs'[i].idx != v) && Ordered(bs', i)
    {
      assert Ordered(bs, i);
      if i != b {
        assert Sound(home, hs, bs, pos, i);
      }
    }
  }

  /** The last value takes the index of the removed one, or is itself the removed one. */
  lemma Renumber(home: uint64 -> nat, hs: seq<uint64>, bs: seq<Bucket>, pos: seq<nat>, v: nat)
    requires IndexWithout(home, hs, bs, pos, v)
    requires v != |hs| - 1 ==> Placed(bs, pos, |hs| - 1)
    ensures var last := |hs| - 1;
            if v == last then Index(home, hs[..last], bs, pos[..last])
            else Index(home, hs[v := hs[last]][..last], bs[pos[last] := bs[pos[last]].(idx := v)],
                       pos[v := pos[last]][..last])
  {
    var last := |hs| - 1;
    var bs' := if v == last then bs else bs[pos[last] := bs[pos[last]].(idx := v)];
    var hs' := if v == last then hs[..last] else hs[v := hs[last]][..last];
    var pos' := if v == last then pos[..last] else pos[v := pos[last]][..last];
    forall u | 0 <= u < last
      ensures Placed(bs', pos', u)
    {
      if u != v {
        assert Placed(bs, pos, u);
      }
    }
    forall i | 0 <= i < |bs|
      ensures Sound(home, hs', bs', pos', i) && Ordered(bs', i)
    {
      assert Sound(home, hs, bs, pos, i) && Ordered(bs, i);
    }
    assert AllOrdered(bs');
  }
}
