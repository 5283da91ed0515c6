/**
 * The table of unordered_dense.h: values stored without holes in a vector, and a robin-hood array of buckets that
 * index them.
 *
 * The vectors are sequences that the methods reassign.  `pos` is the bucket of every value; it exists for the proof.
 * Bucket counts stay within MAX_BUCKETS, so that no 24-bit distance overflows.
 */
module DenseTables {
  import opened Circular
  import opened Naturals
  import opened RobinHood
  import opened TableValues

  /** The bucket of a hash is its top bits. */
  function HomeOf(shifts: nat): uint64 -> nat {
    (h: uint64) => Quotient(h, Pow2(shifts))
  }

  lemma MaxBucketsIsPower()
    ensures Pow2(23) == MAX_BUCKETS && Pow2(2) == 4 && Pow2(2) <= Pow2(23)
  {
    Pow2Sixteen();
    assert Pow2(4) == 16;
    assert Pow2(7) == 128;
    Pow2Add(16, 7);
  }

  /** A table of at most MAX_BUCKETS buckets can still halve its shift. */
  lemma ShiftsPositive(shifts: nat)
    requires shifts <= 64 && Pow2(64 - shifts) <= MAX_BUCKETS
    ensures shifts > 0
  {
    Pow2SixtyFour();
  }

  lemma TopBitsFit(shifts: nat)
    requires shifts <= 64
    ensures HomesFit(HomeOf(shifts), Pow2(64 - shifts))
  {
    Pow2SixtyFour();
    Pow2Add(64 - shifts, shifts);
    forall h: uint64
      ensures HomeOf(shifts)(h) < Pow2(64 - shifts)
    {
      QuotientBelow(h, Pow2(64 - shifts), Pow2(shifts));
    }
  }

  function Hashes<K, V>(hash: K -> uint64, values: seq<(K, V)>): (hs: seq<uint64>)
    ensures |hs| == |values| && forall i :: 0 <= i < |values| ==> hs[i] == hash(values[i].0)
  {
    seq<uint64>(|values|, i requires 0 <= i < |values| => hash(values[i].0))
  }

  function Cleared(n: nat): seq<Bucket> {
    seq(n, _ => EMPTY)
  }

  lemma ClearedIndex(home: uint64 -> nat, n: nat)
    requires 0 < n <= MAX_BUCKETS && HomesFit(home, n)
    ensures Index(home, [], Cleared(n), [])
  {
  }

  // ---------------------------------------------------------------- what a probe knows about a key

  /** No value with the key lies in front of bucket j. */
  ghost predicate NotPassed<K, V>(home: uint64 -> nat, hash: K -> uint64, values: seq<(K, V)>, bs: seq<Bucket>,
                                  pos: seq<nat>, key: K, j: nat)
    requires Index(home, Hashes(hash, values), bs, pos) && j < |bs|
  {
    var h := home(hash(key));
    forall v :: 0 <= v < |values| && values[v].0 == key && Placed(bs, pos, v) ==>
      Dist(j, h, |bs|) <= Dist(pos[v], h, |bs|)
  }

  /** A probe that has become richer than its bucket proves the key absent. */
  lemma ProbeAbsent<K, V>(home: uint64 -> nat, hash: K -> uint64, values: seq<(K, V)>, bs: seq<Bucket>, pos: seq<nat>,
                          key: K, j: nat, d: nat)
    requires Index(home, Hashes(hash, values), bs, pos) && Probing(home, bs, hash(key), j, d)
    requires NotPassed(home, hash, values, bs, pos, key, j) && d > bs[j].daf
    ensures !HasKey(values, key)
  {
    forall v | 0 <= v < |values|
      ensures values[v].0 != key
    {
      assert Placed(bs, pos, v);
      if values[v].0 == key {
        StoredBehind(home, Hashes(hash, values), bs, pos, v, j);
      }
    }
  }

  /** A probe that does not find the key in a bucket can leave the bucket behind. */
  lemma ProbePasses<K, V>(home: uint64 -> nat, hash: K -> uint64, values: seq<(K, V)>, bs: seq<Bucket>, pos: seq<nat>,
                          key: K, j: nat, d: nat, e: nat)
    requires Index(home, Hashes(hash, values), bs, pos) && Probing(home, bs, hash(key), j, d)
    requires NotPassed(home, hash, values, bs, pos, key, j) && d <= bs[j].daf
    requires e < |bs| && bs[e].daf == 0
    requires bs[j].idx < |values| && !(d == bs[j].daf && values[bs[j].idx].0 == key)
    ensures NotPassed(home, hash, values, bs, pos, key, Next(j, |bs|))
  {
    var n, h := |bs|, home(hash(key));
    ProbeNext(home, bs, hash(key), j, d, e);
    forall v | 0 <= v < |values| && values[v].0 == key && Placed(bs, pos, v)
      ensures Dist(Next(j, n), h, n) <= Dist(pos[v], h, n)
    {
      StoredBehind(home, Hashes(hash, values), bs, pos, v, j);
      if Dist(pos[v], h, n) == Dist(j, h, n) {
        DistInjective(pos[v], j, h, n);
      }
    }
  }

  /** Once richer than its bucket, a probe stays so at the next one. */
  lemma StaysRicher(bs: seq<Bucket>, j: nat, d: nat)
    requires AllOrdered(bs) && j < |bs| && bs[j].daf < d && d >= DIST_INC
    ensures bs[Next(j, |bs|)].daf < d + DIST_INC
  {
    assert Ordered(bs, j);
  }

  /** A lookup at bucket j either may still meet the key, or has passed the place where it would have been. */
  ghost predicate Seeking<K, V>(home: uint64 -> nat, hash: K -> uint64, values: seq<(K, V)>, bs: seq<Bucket>,
                                pos: seq<nat>, key: K, j: nat, d: nat)
    requires Index(home, Hashes(hash, values), bs, pos)
  {
    && j < |bs| && DIST_INC <= d
    && ((Probing(home, bs, hash(key), j, d) && NotPassed(home, hash, values, bs, pos, key, j)) ||
        (!HasKey(values, key) && bs[j].daf < d))
  }

  lemma NothingPassed<K, V>(home: uint64 -> nat, hash: K -> uint64, values: seq<(K, V)>, bs: seq<Bucket>,
                            pos: seq<nat>, key: K)
    requires Index(home, Hashes(hash, values), bs, pos)
    ensures NotPassed(home, hash, values, bs, pos, key, home(hash(key)))
  {
  }

  lemma SeekFacts<K, V>(home: uint64 -> nat, hash: K -> uint64, values: seq<(K, V)>, bs: seq<Bucket>, pos: seq<nat>,
                        key: K, j: nat, d: nat)
    requires Index(home, Hashes(hash, values), bs, pos) && Seeking(home, hash, values, bs, pos, key, j, d)
    ensures d <= bs[j].daf ==> bs[j].idx < |values|
    ensures d > bs[j].daf ==> !HasKey(values, key)
  {
    if d <= bs[j].daf {
      BucketIndexes(home, Hashes(hash, values), bs, pos, j);
    } else if HasKey(values, key) {
      ProbeAbsent(home, hash, values, bs, pos, key, j, d);
    }
  }

  /** A bucket without the key is left behind. */
  lemma SeekTurn<K, V>(home: uint64 -> nat, hash: K -> uint64, values: seq<(K, V)>, bs: seq<Bucket>, pos: seq<nat>,
                       key: K, j: nat, d: nat, e: nat)
    requires Index(home, Hashes(hash, values), bs, pos) && Seeking(home, hash, values, bs, pos, key, j, d)
    requires d <= bs[j].daf ==> !(d == bs[j].daf && bs[j].idx < |values| && values[bs[j].idx].0 == key)
    requires d > bs[j].daf ==> d < 0xF000_0000
    requires e < |bs| && bs[e].daf == 0
    ensures Seeking(home, hash, values, bs, pos, key, Next(j, |bs|), DistInc(d))
    ensures d <= bs[j].daf ==> DistInc(d) <= 0x8000_0100
    ensures d > bs[j].daf ==> DistInc(d) == d + DIST_INC
  {
    SeekFacts(home, hash, values, bs, pos, key, j, d);
    if d <= bs[j].daf {
      ProbePasses(home, hash, values, bs, pos, key, j, d, e);
      ProbeNext(home, bs, hash(key), j, d, e);
    } else {
      StaysRicher(bs, j, d);
    }
  }

  lemma BucketIndexes(home: uint64 -> nat, hs: seq<uint64>, bs: seq<Bucket>, pos: seq<nat>, j: nat)
    requires Index(home, hs, bs, pos) && j < |bs| && bs[j].daf > 0
    ensures bs[j].idx < |hs| && pos[bs[j].idx] == j
  {
    assert Sound(home, hs, bs, pos, j);
  }

  lemma SwapRemoveHashes<K, V>(hash: K -> uint64, values: seq<(K, V)>, v: nat)
    requires v < |values|
    ensures Hashes(hash, SwapRemove(values, v)) == SwapRemove(Hashes(hash, values), v)
  {
  }

  lemma NoRicher(bs: seq<Bucket>, j: nat, d: nat)
    requires AllOrdered(bs) && j < |bs| && bs[j].daf <= d && d >= DIST_INC
    ensures bs[Next(j, |bs|)].daf <= d + DIST_INC
  {
    assert Ordered(bs, j);
  }

  /** Once v is being removed, only the last value's bucket holds the last index: empty buckets hold index zero. */
  lemma LastPlaced(home: uint64 -> nat, hs: seq<uint64>, bs: seq<Bucket>, pos: seq<nat>, v: nat)
    requires IndexWithout(home, hs, bs, pos, v)
    ensures |pos| == |hs| && v < |hs| && (v != |hs| - 1 ==> pos[|hs| - 1] < |bs|)
    ensures v != |hs| - 1 ==> Placed(bs, pos, |hs| - 1)
    ensures HomesFit(home, |bs|)
  {
    assert v != |hs| - 1 ==> Placed(bs, pos, |hs| - 1);
  }

  lemma OnlyBucketOfLast(home: uint64 -> nat, hs: seq<uint64>, bs: seq<Bucket>, pos: seq<nat>, v: nat)
    requires IndexWithout(home, hs, bs, pos, v) && v != |hs| - 1
    ensures pos[|hs| - 1] < |bs| && bs[pos[|hs| - 1]].idx == |hs| - 1
    ensures forall i :: 0 <= i < |bs| && bs[i].idx == |hs| - 1 ==> i == pos[|hs| - 1]
  {
    assert Placed(bs, pos, |hs| - 1);
    forall i | 0 <= i < |bs| && bs[i].idx == |hs| - 1
      ensures i == pos[|hs| - 1]
    {
      assert Sound(home, hs, bs, pos, i);
    }
  }

  /** No bucket from a value's home to its own bucket looks like its own: none of them is empty. */
  lemma OnlyBucketBefore(home: uint64 -> nat, hs: seq<uint64>, bs: seq<Bucket>, pos: seq<nat>, r: nat)
    requires Index(home, hs, bs, pos) && r < |hs|
    ensures pos[r] < |bs| && bs[pos[r]].idx == r && bs[pos[r]].daf > 0
    ensures forall i | 0 <= i < |bs| && Dist(i, home(hs[r]), |bs|) <= Dist(pos[r], home(hs[r]), |bs|) ::
              bs[i].idx == r ==> i == pos[r]
  {
    assert Placed(bs, pos, r);
    forall i | 0 <= i < |bs| && bs[i].idx == r && Dist(i, home(hs[r]), |bs|) <= Dist(pos[r], home(hs[r]), |bs|)
      ensures i == pos[r]
    {
      StoredBehind(home, hs, bs, pos, r, i);
      assert Sound(home, hs, bs, pos, i);
    }
  }

  /** A back-to-front removal at idx: the values behind idx are the kept ones of the original values behind it. */
  ghost predicate Filtered<T>(orig: seq<T>, now: seq<T>, keep: T -> bool, idx: nat) {
    && idx <= |now| <= |orig| && now[..idx] == orig[..idx]
    && multiset(now[idx..]) == multiset(Filter(orig[idx..], keep))
  }

  lemma FilteredKeep<T>(orig: seq<T>, now: seq<T>, keep: T -> bool, idx: nat)
    requires Filtered(orig, now, keep, idx + 1) && keep(now[idx])
    ensures Filtered(orig, now, keep, idx)
  {
    ShorterPrefix(now, orig, idx);
    FilterFront(orig, keep, idx);
    assert now[idx..] == [now[idx]] + now[idx + 1..];
  }

  lemma FilteredDrop<T>(orig: seq<T>, now: seq<T>, keep: T -> bool, idx: nat)
    requires Filtered(orig, now, keep, idx + 1) && !keep(now[idx])
    ensures Filtered(orig, SwapRemove(now, idx), keep, idx)
  {
    ShorterPrefix(now, orig, idx);
    FilterFront(orig, keep, idx);
    assert now[idx..] == [now[idx]] + now[idx + 1..];
    SwapRemoveTail(now, idx, idx);
  }

  class Table<K(==,!new), V> {
    const hash: K -> uint64
    var values: seq<(K, V)>
    var buckets: seq<Bucket>
    var shifts: nat
    var capacity: nat     // Values that the buckets hold before they are doubled
    var maxLoad: real
    ghost var pos: seq<nat>

    ghost predicate Sized()
      reads this
    {
      && shifts <= 64 && |buckets| == Pow2(64 - shifts) <= MAX_BUCKETS
      && 0.0 < maxLoad < 1.0
      && capacity == CapacityOf(|buckets|, maxLoad)
    }

    ghost predicate Valid()
      reads this
    {
      && Sized()
      && |values| < |buckets|
      && Distinct(values)
      && Index(HomeOf(shifts), Hashes(hash, values), buckets, pos)
    }

    /** The buckets index the first m values. */
    ghost predicate IndexesFirst(m: nat)
      requires m <= |values|
      reads this
    {
      Index(HomeOf(shifts), Hashes(hash, values[..m]), buckets, pos)
    }

    function BucketIdx(key: K): nat
      reads this
    {
      HomeOf(shifts)(hash(key))
    }

    method AllocateBuckets()
      requires shifts <= 64 && Pow2(64 - shifts) <= MAX_BUCKETS && 0.0 < maxLoad < 1.0
      modifies this`buckets, this`capacity, this`pos
      ensures Sized() && pos == []
      ensures Index(HomeOf(shifts), [], buckets, [])
      ensures |buckets| == Pow2(64 - shifts) && capacity < |buckets|
    {
      buckets := Cleared(Pow2(64 - shifts));
      capacity := CapacityOf(|buckets|, maxLoad);
      pos := [];
      TopBitsFit(shifts);
      ClearedIndex(HomeOf(shifts), |buckets|);
    }

    constructor (hash: K -> uint64, maxLoad: real)
      requires 0.0 < maxLoad < 1.0
      ensures Valid() && values == [] && this.hash == hash && this.maxLoad == maxLoad
    {
      this.hash := hash;
      this.maxLoad := maxLoad;
      values := [];
      shifts := 62;
      buckets, capacity, pos := [], 0, [];
      new;
      assert Pow2(2) == 4;
      AllocateBuckets();
    }

    /** Follow the probe sequence of a key past every richer bucket. */
    method NextWhileLess(key: K, ghost m: nat) returns (d: nat, j: nat)
      requires Sized() && m <= |values| && m < |buckets| && IndexesFirst(m)
      ensures Probing(HomeOf(shifts), buckets, hash(key), j, d) && buckets[j].daf <= d
      ensures NotPassed(HomeOf(shifts), hash, values[..m], buckets, pos, key, j)
    {
      ghost var home := HomeOf(shifts);
      ghost var e := EmptyExists(home, Hashes(hash, values[..m]), buckets, pos);
      j := BucketIdx(key);
      d := DIST_INC + hash(key) % 256;
      ProbeStart(home, buckets, hash(key));
      while d < buckets[j].daf
        invariant Probing(home, buckets, hash(key), j, d)
        invariant NotPassed(home, hash, values[..m], buckets, pos, key, j)
        decreases Dist(e, home(hash(key)), |buckets|) - Dist(j, home(hash(key)), |buckets|)
      {
        BucketIndexes(home, Hashes(hash, values[..m]), buckets, pos, j);
        ProbePasses(home, hash, values[..m], buckets, pos, key, j, d, e);
        ProbeNext(home, buckets, hash(key), j, d, e);
        d := DistInc(d);
        j := Next(j, |buckets|);
      }
    }

    /** Put a bucket in its place, moving every bucket from there to the next empty one up by one. */
    method PlaceAndShiftUp(bucket: Bucket, start: nat, ghost hs: seq<uint64>, ghost e: nat)
      requires Carrying(HomeOf(shifts), hs, buckets, pos, bucket, start)
      requires e < |buckets| && buckets[e].daf == 0
      modifies this`buckets, this`pos
      ensures Index(HomeOf(shifts), hs, buckets, pos) && |buckets| == old(|buckets|)
    {
      ghost var home := HomeOf(shifts);
      var c, place := bucket, start;
      while buckets[place].daf != 0
        invariant |buckets| == old(|buckets|) && e < |buckets| && buckets[e].daf == 0
        invariant Carrying(home, hs, buckets, pos, c, place)
        decreases Dist(e, place, |buckets|)
      {
        CarryNext(home, hs, buckets, pos, c, place, e);
        pos := pos[c.idx := place];
        var old_bucket := buckets[place];
        buckets := buckets[place := c];
        c := Bucket(DistInc(old_bucket.daf), old_bucket.idx);
        place := Next(place, |buckets|);
      }
      CarryEnd(home, hs, buckets, pos, c, place);
      pos := pos[c.idx := place];
      buckets := buckets[place := c];
    }

    /** Index value m, whose probe has ended at j. */
    method PlaceValue(m: nat, d: nat, j: nat)
      requires Sized() && m < |values| && m < |buckets| && IndexesFirst(m)
      requires Probing(HomeOf(shifts), buckets, hash(values[m].0), j, d) && buckets[j].daf <= d
      modifies this`buckets, this`pos
      ensures |buckets| == old(|buckets|) && IndexesFirst(m + 1)
    {
      ghost var home, hs := HomeOf(shifts), Hashes(hash, values[..m]);
      ghost var e := EmptyExists(home, hs, buckets, pos);
      CarryStart(home, hs, buckets, pos, hash(values[m].0), j, d);
      assert Hashes(hash, values[..m + 1]) == hs + [hash(values[m].0)];
      pos := pos + [0];
      PlaceAndShiftUp(Bucket(d, m), j, Hashes(hash, values[..m + 1]), e);
    }

    /** Rebuild the index of freshly cleared buckets from the values. */
    method FillBucketsFromValues()
      requires Sized() && |values| <= |buckets| && Index(HomeOf(shifts), [], buckets, pos)
      modifies this`buckets, this`pos
      ensures |buckets| == old(|buckets|) && IndexesFirst(|values|)
    {
      assert Hashes(hash, values[..0]) == [];
      for m := 0 to |values|
        invariant |buckets| == old(|buckets|) && IndexesFirst(m)
      {
        var d, j := NextWhileLess(values[m].0, m);
        PlaceValue(m, d, j);
      }
    }

    /** Double the buckets. */
    method IncreaseSize()
      requires Sized() && |values| <= |buckets| && 2 * |buckets| <= MAX_BUCKETS && shifts > 0
      modifies this`buckets, this`pos, this`shifts, this`capacity
      ensures Sized() && IndexesFirst(|values|)
      ensures |buckets| == 2 * old(|buckets|)
    {
      shifts := shifts - 1;
      AllocateBuckets();
      FillBucketsFromValues();
    }

    // -------------------------------------------------------------- lookup

    /** The index of the key's value, or the number of values if there is none. */
    method Find(key: K) returns (r: nat)
      requires Valid()
      ensures r <= |values|
      ensures r < |values| ==> values[r].0 == key
      ensures r == |values| ==> !HasKey(values, key)
    {
      if |values| == 0 {
        return 0;
      }
      ghost var home := HomeOf(shifts);
      ghost var e := EmptyExists(home, Hashes(hash, values), buckets, pos);
      var d: nat, j: nat := DIST_INC + hash(key) % 256, BucketIdx(key);
      ProbeStart(home, buckets, hash(key));
      NothingPassed(home, hash, values, buckets, pos, key);

      // The first two buckets are checked without looking for the end of the probe sequence.
      for turn := 0 to 2
        invariant Seeking(home, hash, values, buckets, pos, key, j, d)
        invariant d <= 0x8000_0100 + turn * DIST_INC
      {
        SeekFacts(home, hash, values, buckets, pos, key, j, d);
        if d == buckets[j].daf && values[buckets[j].idx].0 == key {
          return buckets[j].idx;
        }
        SeekTurn(home, hash, values, buckets, pos, key, j, d, e);
        d := DistInc(d);
        j := Next(j, |buckets|);
      }
      while true
        invariant Seeking(home, hash, values, buckets, pos, key, j, d)
        decreases if d <= buckets[j].daf then 1 + Dist(e, j, |buckets|) else 0
      {
        SeekFacts(home, hash, values, buckets, pos, key, j, d);
        if d == buckets[j].daf {
          if values[buckets[j].idx].0 == key {
            return buckets[j].idx;
          }
        } else if d > buckets[j].daf {
          return |values|;
        }
        SeekTurn(home, hash, values, buckets, pos, key, j, d, e);
        DistToward(e, j, |buckets|);
        d := DistInc(d);
        j := Next(j, |buckets|);
      }
    }

    // -------------------------------------------------------------- insertion

    /** The table can take one more value without needing more buckets than distances can count. */
    ghost predicate HasRoom()
      reads this
    {
      |values| < capacity || 2 * |buckets| <= MAX_BUCKETS
    }

    /** Store a new value, whose probe has ended at j, at the end of the values. */
    method PlaceElement(d: nat, j: nat, key: K, value: V)
      requires Valid() && HasRoom() && !HasKey(values, key)
      requires Probing(HomeOf(shifts), buckets, hash(key), j, d) && buckets[j].daf <= d
      modifies this
      ensures Valid() && values == old(values) + [(key, value)] && maxLoad == old(maxLoad)
    {
      AppendDistinct(values, key, value);
      values := values + [(key, value)];
      assert values[..|values| - 1] == old(values);
      IndexNewest(d, j);
    }

    /** Index the value that was just appended, growing if the buckets are full. */
    method IndexNewest(d: nat, j: nat)
      requires Sized() && 0 < |values| <= |buckets| && Distinct(values) && IndexesFirst(|values| - 1)
      requires |values| <= capacity || 2 * |buckets| <= MAX_BUCKETS
      requires Probing(HomeOf(shifts), buckets, hash(values[|values| - 1].0), j, d) && buckets[j].daf <= d
      modifies this`buckets, this`pos, this`shifts, this`capacity
      ensures Valid()
    {
      assert values[..|values|] == values;
      if |values| > capacity {
        ShiftsPositive(shifts);
        IncreaseSize();
      } else {
        PlaceValue(|values| - 1, d, j);
      }
    }

    /** Insert a value unless its key is present; r is the index of the key's value. */
    method TryEmplace(key: K, value: V) returns (r: nat, inserted: bool)
      requires Valid() && HasRoom()
      modifies this
      ensures Valid() && maxLoad == old(maxLoad)
      ensures inserted == !HasKey(old(values), key)
      ensures inserted ==> values == old(values) + [(key, value)] && r == |old(values)|
      ensures !inserted ==> values == old(values) && r < |values| && values[r].0 == key
    {
      ghost var home := HomeOf(shifts);
      ghost var e := EmptyExists(home, Hashes(hash, values), buckets, pos);
      var d: nat, j: nat := DIST_INC + hash(key) % 256, BucketIdx(key);
      ProbeStart(home, buckets, hash(key));
      NothingPassed(home, hash, values, buckets, pos, key);
      while true
        invariant values == old(values) && buckets == old(buckets) && pos == old(pos) && shifts == old(shifts)
        invariant capacity == old(capacity) && maxLoad == old(maxLoad)
        invariant Probing(home, buckets, hash(key), j, d) && NotPassed(home, hash, values, buckets, pos, key, j)
        decreases Dist(e, home(hash(key)), |buckets|) - Dist(j, home(hash(key)), |buckets|)
      {
        if buckets[j].daf > 0 {
          BucketIndexes(home, Hashes(hash, values), buckets, pos, j);
        }
        if d == buckets[j].daf {
          if values[buckets[j].idx].0 == key {
            return buckets[j].idx, false;
          }
        } else if d > buckets[j].daf {
          ProbeAbsent(home, hash, values, buckets, pos, key, j, d);
          r := |values|;
          PlaceElement(d, j, key, value);
          return r, true;
        }
        ProbePasses(home, hash, values, buckets, pos, key, j, d, e);
        ProbeNext(home, buckets, hash(key), j, d, e);
        d := DistInc(d);
        j := Next(j, |buckets|);
      }
    }

    /** As TryEmplace, but the value is constructed at the end of the values first and dropped if its key is present. */
    method Emplace(key: K, value: V) returns (r: nat, inserted: bool)
      requires Valid() && HasRoom()
      modifies this
      ensures Valid() && maxLoad == old(maxLoad)
      ensures inserted == !HasKey(old(values), key)
      ensures inserted ==> values == old(values) + [(key, value)] && r == |old(values)|
      ensures !inserted ==> values == old(values) && r < |values| && values[r].0 == key
    {
      ghost var before := values;
      values := values + [(key, value)];
      assert values[..|before|] == before && values[|before|] == (key, value);
      var d, j, found := SearchAmong(key, before);
      if found {
        r := buckets[j].idx;
        values := values[..|values| - 1];
        inserted := false;
      } else {
        r := |values| - 1;
        AppendDistinct(before, key, value);
        IndexNewest(d, j);
        inserted := true;
      }
    }

    /** The probe for a key among the indexed values, which are the first ones. */
    method SearchAmong(key: K, ghost before: seq<(K, V)>) returns (d: nat, j: nat, found: bool)
      requires |before| < |buckets| && before <= values
      requires Index(HomeOf(shifts), Hashes(hash, before), buckets, pos)
      ensures found == HasKey(before, key)
      ensures found ==> j < |buckets| && buckets[j].idx < |before| && before[buckets[j].idx].0 == key
      ensures !found ==> Probing(HomeOf(shifts), buckets, hash(key), j, d) && buckets[j].daf <= d
    {
      ghost var home := HomeOf(shifts);
      ghost var e := EmptyExists(home, Hashes(hash, before), buckets, pos);
      d, j := DIST_INC + hash(key) % 256, BucketIdx(key);
      ProbeStart(home, buckets, hash(key));
      NothingPassed(home, hash, before, buckets, pos, key);
      while d <= buckets[j].daf
        invariant Probing(home, buckets, hash(key), j, d) && NotPassed(home, hash, before, buckets, pos, key, j)
        decreases Dist(e, home(hash(key)), |buckets|) - Dist(j, home(hash(key)), |buckets|)
      {
        BucketIndexes(home, Hashes(hash, before), buckets, pos, j);
        if d == buckets[j].daf && values[buckets[j].idx].0 == key {
          return d, j, true;
        }
        ProbePasses(home, hash, before, buckets, pos, key, j, d, e);
        ProbeNext(home, buckets, hash(key), j, d, e);
        d := DistInc(d);
        j := Next(j, |buckets|);
      }
      ProbeAbsent(home, hash, before, buckets, pos, key, j, d);
      found := false;
    }

    // -------------------------------------------------------------- removal

    /** Remove the value of a bucket: shift displaced buckets down, and let the last value take the free index. */
    method DoErase(bucketIdx: nat) returns (removed: (K, V))
      requires Valid() && bucketIdx < |buckets| && buckets[bucketIdx].daf > 0
      modifies this`values, this`buckets, this`pos
      ensures Valid() && |old(values)| > old(buckets[bucketIdx].idx)
      ensures removed == old(values)[old(buckets[bucketIdx].idx)]
      ensures values == SwapRemove(old(values), old(buckets[bucketIdx].idx))
    {
      ghost var home, hs := HomeOf(shifts), Hashes(hash, values);
      BucketIndexes(home, hs, buckets, pos, bucketIdx);
      var v := buckets[bucketIdx].idx;
      ShiftDown(bucketIdx, hs);
      removed := values[v];
      FillIndex(v, hs);
    }

    /** Empty a bucket by moving the displaced buckets behind it one closer to their homes. */
    method ShiftDown(bucketIdx: nat, ghost hs: seq<uint64>)
      requires Index(HomeOf(shifts), hs, buckets, pos) && |hs| < |buckets|
      requires bucketIdx < |buckets| && buckets[bucketIdx].daf > 0
      modifies this`buckets, this`pos
      ensures |buckets| == old(|buckets|)
      ensures IndexWithout(HomeOf(shifts), hs, buckets, pos, old(buckets[bucketIdx].idx))
    {
      ghost var home := HomeOf(shifts);
      ghost var e := EmptyExists(home, hs, buckets, pos);
      BucketIndexes(home, hs, buckets, pos, bucketIdx);
      ghost var v := buckets[bucketIdx].idx;
      HoleStart(home, hs, buckets, pos, v);
      var b, nb := bucketIdx, Next(bucketIdx, |buckets|);
      while buckets[nb].daf >= 2 * DIST_INC
        invariant |buckets| == old(|buckets|) && e < |buckets| && buckets[e].daf == 0
        invariant Hole(home, hs, buckets, pos, v, b) && nb == Next(b, |buckets|)
        decreases Dist(e, b, |buckets|)
      {
        HoleNext(home, hs, buckets, pos, v, b, e);
        pos := pos[buckets[nb].idx := b];
        buckets := buckets[b := Bucket(DistDec(buckets[nb].daf), buckets[nb].idx)];
        b := nb;
        nb := Next(nb, |buckets|);
      }
      HoleEnd(home, hs, buckets, pos, v, b);
      buckets := buckets[b := EMPTY];
    }

    /** Walk from a bucket to the next one that holds index r, which is the target. */
    method WalkToIndex(start: nat, r: nat, ghost target: nat) returns (j: nat)
      requires start < |buckets| && target < |buckets| && buckets[target].idx == r
      requires forall i | 0 <= i < |buckets| && Dist(i, start, |buckets|) <= Dist(target, start, |buckets|) ::
                 buckets[i].idx == r ==> i == target
      ensures j == target
    {
      j := start;
      while buckets[j].idx != r
        invariant j < |buckets| && Dist(j, start, |buckets|) <= Dist(target, start, |buckets|)
        decreases Dist(target, j, |buckets|)
      {
        DistToward(target, j, |buckets|);
        SearchStep(target, j, start, |buckets|);
        j := Next(j, |buckets|);
      }
    }

    lemma SearchStep(target: nat, j: nat, h: nat, n: nat)
      requires target < n && j < n && h < n && target != j && Dist(j, h, n) <= Dist(target, h, n)
      ensures Dist(Next(j, n), h, n) <= Dist(target, h, n)
    {
      if Dist(j, h, n) == Dist(target, h, n) {
        DistInjective(j, target, h, n);
      }
      DistNext(j, h, n);
    }

    /** The last value moves to index v, unless it is the removed one. */
    method FillIndex(v: nat, ghost hs: seq<uint64>)
      requires Sized() && |values| < |buckets| && Distinct(values) && hs == Hashes(hash, values)
      requires IndexWithout(HomeOf(shifts), hs, buckets, pos, v)
      modifies this`values, this`buckets, this`pos
      ensures Valid() && values == SwapRemove(old(values), v)
    {
      hide Index, IndexWithout, Placed, CapacityOf;
      ghost var home := HomeOf(shifts);
      LastPlaced(home, hs, buckets, pos, v);
      SwapRemoveDistinct(values, v);
      SwapRemoveHashes(hash, values, v);
      var back := |values| - 1;
      Renumber(home, hs, buckets, pos, v);
      if v != back {
        OnlyBucketOfLast(home, hs, buckets, pos, v);
        values := values[v := values[back]];
        var j := WalkToIndex(BucketIdx(values[v].0), back, pos[back]);
        buckets := buckets[j := buckets[j].(idx := v)];
        pos := pos[v := pos[back]];
      }
      values := values[..back];
      pos := pos[..back];
    }

    /** Search the buckets of equal distance and fingerprint for the key. */
    method SeekEqual(key: K, d0: nat, j0: nat) returns (d: nat, j: nat)
      requires Valid() && Probing(HomeOf(shifts), buckets, hash(key), j0, d0) && buckets[j0].daf <= d0
      requires NotPassed(HomeOf(shifts), hash, values, buckets, pos, key, j0)
      ensures j < |buckets| && buckets[j].daf <= d && 0 < d
      ensures d == buckets[j].daf ==> buckets[j].idx < |values| && values[buckets[j].idx].0 == key
      ensures d != buckets[j].daf ==> !HasKey(values, key)
    {
      ghost var home, hs := HomeOf(shifts), Hashes(hash, values);
      ghost var e := EmptyExists(home, hs, buckets, pos);
      d, j := d0, j0;
      if d == buckets[j].daf {
        BucketIndexes(home, hs, buckets, pos, j);
      }
      while d == buckets[j].daf && values[buckets[j].idx].0 != key
        invariant Probing(home, buckets, hash(key), j, d) && NotPassed(home, hash, values, buckets, pos, key, j)
        invariant buckets[j].daf <= d
        invariant d == buckets[j].daf ==> buckets[j].idx < |values|
        decreases Dist(e, home(hash(key)), |buckets|) - Dist(j, home(hash(key)), |buckets|)
      {
        ProbePasses(home, hash, values, buckets, pos, key, j, d, e);
        ProbeNext(home, buckets, hash(key), j, d, e);
        NoRicher(buckets, j, d);
        DafInc(hash(key), Dist(j, home(hash(key)), |buckets|));
        d := DistInc(d);
        j := Next(j, |buckets|);
        if d == buckets[j].daf {
          BucketIndexes(home, hs, buckets, pos, j);
        }
      }
      if d != buckets[j].daf {
        ProbeAbsent(home, hash, values, buckets, pos, key, j, d);
      }
    }

    /** Remove the value of a key, if there is one; v is its index. */
    method EraseKey(key: K) returns (count: nat, ghost v: nat)
      requires Valid()
      modifies this`values, this`buckets, this`pos
      ensures Valid() && count <= 1
      ensures count == 0 ==> !HasKey(old(values), key) && values == old(values)
      ensures count == 1 ==> v < |old(values)| && old(values)[v].0 == key && values == SwapRemove(old(values), v)
    {
      if |values| == 0 {
        return 0, 0;
      }
      assert values[..|values|] == values;
      var d, j := NextWhileLess(key, |values|);
      d, j := SeekEqual(key, d, j);
      if d != buckets[j].daf {
        return 0, 0;
      }
      v := buckets[j].idx;
      var _ := DoErase(j);
      count := 1;
    }

    /** Remove the value at an index and return it. */
    method ExtractAt(r: nat) returns (removed: (K, V))
      requires Valid() && r < |values|
      modifies this`values, this`buckets, this`pos
      ensures Valid() && removed == old(values)[r] && values == SwapRemove(old(values), r)
    {
      ghost var home, hs := HomeOf(shifts), Hashes(hash, values);
      OnlyBucketBefore(home, hs, buckets, pos, r);
      var j := WalkToIndex(BucketIdx(values[r].0), r, pos[r]);
      removed := DoErase(j);
    }

    /** Remove the values at indices first to last - 1. */
    method EraseRange(first: nat, last: nat)
      requires Valid() && first <= last <= |values|
      modifies this`values, this`buckets, this`pos
      ensures Valid() && |values| == |old(values)| - (last - first)
      ensures values[..first] == old(values)[..first]
      ensures multiset(values) == multiset(old(values)[..first] + old(values)[last..])
    {
      ghost var orig := values;
      var mid: nat := first + if last - first <= |values| - last then last - first else |values| - last;
      var idx := first;
      while idx != mid
        invariant Valid() && first <= idx <= mid && Moved(orig, values, first, idx)
      {
        MovedFromEnd(orig, values, first, idx);
        var _ := ExtractAt(idx);
        idx := idx + 1;
      }
      ghost var moved := values;
      assert mid < last ==> |values| == last;
      EraseBack(mid, last);
      RangeErased(orig, moved, values, first, mid, last);
    }

    /** The second loop of a range removal: what is left of the range lies at the end and is removed from there. */
    method EraseBack(mid: nat, last: nat)
      requires Valid() && mid <= last <= |values| && (mid < last ==> last == |values|)
      modifies this`values, this`buckets, this`pos
      ensures Valid() && values == if mid < last then old(values)[..mid] else old(values)
    {
      var idx := last;
      while idx != mid
        invariant Valid() && mid <= idx <= last
        invariant values == if mid < last then old(values)[..idx] else old(values)
        decreases idx
      {
        idx := idx - 1;
        var _ := ExtractAt(idx);
      }
    }

    /** Remove every value that the predicate matches, from the back to the front. */
    method EraseIf(pred: ((K, V)) -> bool) returns (count: nat)
      requires Valid()
      modifies this`values, this`buckets, this`pos
      ensures Valid() && count == |old(values)| - |values|
      ensures multiset(values) == multiset(Filter(old(values), x => !pred(x)))
    {
      ghost var orig, keep := values, (x: (K, V)) => !pred(x);
      var oldSize := |values|;
      var idx: nat := oldSize;
      while idx > 0
        invariant Valid() && Filtered(orig, values, keep, idx)
      {
        idx := idx - 1;
        if pred(values[idx]) {
          FilteredDrop(orig, values, keep, idx);
          var _ := ExtractAt(idx);
        } else {
          FilteredKeep(orig, values, keep, idx);
        }
      }
      assert orig[0..] == orig && values[0..] == values;
      count := oldSize - |values|;
    }

    /** Take over the values of a container; those whose key came earlier give way to the last ones. */
    method Replace(container: seq<(K, V)>)
      requires Valid() && |container| <= CapacityOf(MAX_BUCKETS, maxLoad)
      modifies this
      ensures Valid()
      ensures multiset(values) <= multiset(container)
      ensures forall x :: x in container ==> HasKey(values, x.0)
      ensures values == Deduplicated(container, 0)
    {
      var s := CalcShiftsForSize(|container|);
      if s < shifts {
        shifts := s;
        AllocateBuckets();
      } else {
        Pow2Grows(64 - s, 64 - shifts);
        CapacityGrows(Pow2(64 - s), |buckets|, maxLoad);
        buckets := Cleared(|buckets|);
        pos := [];
        TopBitsFit(shifts);
        ClearedIndex(HomeOf(shifts), |buckets|);
      }
      values := container;
      assert values[..0] == [];
      var m: nat := 0;
      while m != |values|
        invariant Sized() && |values| < |buckets| && IndexesFirst'(m)
        invariant Unique(container, values, m) && Deduplicated(values, m) == Deduplicated(container, 0)
        decreases |values| - m
      {
        m := ReplaceTurn(container, m);
      }
      assert values[..m] == values;
    }

    /** As IndexesFirst, also saying that there are m values. */
    ghost predicate IndexesFirst'(m: nat)
      reads this
    {
      m <= |values| && IndexesFirst(m)
    }

    /** The last value takes the place of value m. */
    method DropValue(m: nat)
      requires m < |values|
      modifies this`values
      ensures values == SwapRemove(old(values), m)
    {
      if m != |values| - 1 {
        values := values[m := values[|values| - 1]];
      }
      values := values[..|values| - 1];
    }

    /** Index value m of a replacement, or drop it in favour of the last value if its key is already indexed. */
    method ReplaceTurn(ghost container: seq<(K, V)>, m: nat) returns (next: nat)
      requires Sized() && |values| < |buckets| && IndexesFirst'(m) && m < |values|
      requires Unique(container, values, m)
      modifies this`values, this`buckets, this`pos
      ensures Sized() && |values| < |buckets| && IndexesFirst'(next)
      ensures Unique(container, values, next) && |values| - next < |old(values)| - m
      ensures Deduplicated(values, next) == Deduplicated(old(values), m)
    {
      var key := values[m].0;
      var d, j, found := SearchAmong(key, values[..m]);
      if found {
        UniqueDrop(container, values, m);
        assert SwapRemove(values, m)[..m] == values[..m];
        DropValue(m);
        next := m;
      } else {
        UniqueKeep(container, values, m);
        PlaceValue(m, d, j);
        next := m + 1;
      }
    }

    method Clear()
      requires Valid()
      modifies this`values, this`buckets, this`pos
      ensures Valid() && values == [] && |buckets| == old(|buckets|)
    {
      values := [];
      buckets := Cleared(|buckets|);
      pos := [];
      TopBitsFit(shifts);
      ClearedIndex(HomeOf(shifts), |buckets|);
    }

    /** The largest shift whose buckets hold s values. */
    method CalcShiftsForSize(s: nat) returns (r: nat)
      requires 0.0 < maxLoad < 1.0 && s <= CapacityOf(MAX_BUCKETS, maxLoad)
      ensures 0 < r <= 62 && Pow2(64 - r) <= MAX_BUCKETS && s <= CapacityOf(Pow2(64 - r), maxLoad)
      ensures r < 62 ==> CapacityOf(Pow2(64 - (r + 1)), maxLoad) < s
    {
      r := 62;
      MaxBucketsIsPower();
      while r > 0 && CapacityOf(Pow2(64 - r), maxLoad) < s
        invariant 41 <= r <= 62 && Pow2(64 - r) <= MAX_BUCKETS
        invariant r < 62 ==> CapacityOf(Pow2(64 - (r + 1)), maxLoad) < s
      {
        if r == 41 {
          assert false;
        }
        r := r - 1;
        Pow2Grows(64 - r, 23);
      }
    }

    /** Choose the bucket count anew for at least `count` values. */
    method Rehash(count: nat)
      requires Valid() && count <= CapacityOf(MAX_BUCKETS, maxLoad) && |values| <= CapacityOf(MAX_BUCKETS, maxLoad)
      modifies this`buckets, this`pos, this`shifts, this`capacity
      ensures Valid() && count <= capacity && |values| <= capacity
    {
      var s := CalcShiftsForSize(if count < |values| then |values| else count);
      if s != shifts {
        shifts := s;
        AllocateBuckets();
        FillBucketsFromValues();
        assert values[..|values|] == values;
      }
    }
  }

  /** A replacement at m: its first m values have distinct keys, and no key of the container is lost. */
  ghost predicate Unique<K, V>(container: seq<(K, V)>, values: seq<(K, V)>, m: nat) {
    && m <= |values| && Distinct(values[..m])
    && multiset(values) <= multiset(container)
    && (forall x :: x in container ==> HasKey(values, x.0))
  }

  lemma UniqueKeep<K, V>(container: seq<(K, V)>, values: seq<(K, V)>, m: nat)
    requires Unique(container, values, m) && m < |values| && !HasKey(values[..m], values[m].0)
    ensures Unique(container, values, m + 1)
  {
    assert values[..m + 1] == values[..m] + [(values[m].0, values[m].1)];
    AppendDistinct(values[..m], values[m].0, values[m].1);
  }

  /** Values from m on stay if their key is new, and give way to the last value if it is not. */
  ghost function Deduplicated<K, V>(values: seq<(K, V)>, m: nat): seq<(K, V)>
    requires m <= |values|
    decreases |values| - m
  {
    if m == |values| then values
    else if HasKey(values[..m], values[m].0) then Deduplicated(SwapRemove(values, m), m)
    else Deduplicated(values, m + 1)
  }

  /** Of two values with one key, the one within a prefix of distinct keys survives: the prefix stays as it is. */
  lemma {:induction false} PrefixStays<K, V>(values: seq<(K, V)>, m: nat, n: nat)
    requires m <= |values| && n <= |values| && Distinct(values[..n])
    ensures n <= |Deduplicated(values, m)| && Deduplicated(values, m)[..n] == values[..n]
    decreases |values| - m
  {
    if m < n {
      NewInPrefix(values, m, n);
      PrefixStays(values, m + 1, n);
    } else if m < |values| {
      if HasKey(values[..m], values[m].0) {
        assert SwapRemove(values, m)[..n] == values[..n];
        PrefixStays(SwapRemove(values, m), m, n);
      } else {
        PrefixStays(values, m + 1, n);
      }
    }
  }

  lemma NewInPrefix<K, V>(values: seq<(K, V)>, m: nat, n: nat)
    requires m < n <= |values| && Distinct(values[..n])
    ensures !HasKey(values[..m], values[m].0)
  {
    forall i | 0 <= i < m
      ensures values[..m][i].0 != values[m].0
    {
      assert values[..n][i].0 != values[..n][m].0;
    }
  }

  lemma UniqueDrop<K, V>(container: seq<(K, V)>, values: seq<(K, V)>, m: nat)
    requires Unique(container, values, m) && m < |values| && HasKey(values[..m], values[m].0)
    ensures Unique(container, SwapRemove(values, m), m)
  {
    var rest := SwapRemove(values, m);
    assert rest[..m] == values[..m];
    SwapRemoveTail(values, m, 0);
    assert rest[0..] == rest && values[0..] == values;
    var f :| 0 <= f < m && values[..m][f].0 == values[m].0;
    forall x | x in container
      ensures HasKey(rest, x.0)
    {
      var v :| 0 <= v < |values| && values[v].0 == x.0;
      assert rest[if v == m then f else if v == |values| - 1 then m else v].0 == x.0;
    }
  }

  /** The first loop of a range removal at idx: the slots from first to idx hold values from the end. */
  ghost predicate Moved<T>(orig: seq<T>, now: seq<T>, first: nat, idx: nat) {
    && first <= idx <= |now| <= |orig| && |now| == |orig| - (idx - first)
    && now[..first] == orig[..first]
    && now[idx..] == orig[idx..|now|]
    && multiset(now[first..idx]) == multiset(orig[|now|..])
  }

  lemma MovedFromEnd<T>(orig: seq<T>, now: seq<T>, first: nat, idx: nat)
    requires Moved(orig, now, first, idx) && idx + 1 < |now|
    ensures Moved(orig, SwapRemove(now, idx), first, idx + 1)
  {
    var after, last := SwapRemove(now, idx), |now| - 1;
    assert now[last] == now[idx..][last - idx] == orig[idx..last + 1][last - idx];
    assert after[first..idx + 1] == now[first..idx] + [orig[last]];
    assert orig[last..] == [orig[last]] + orig[last + 1..];
    forall k | idx + 1 <= k < last
      ensures after[k] == orig[k]
    {
      assert now[k] == now[idx..][k - idx] == orig[idx..last + 1][k - idx];
    }
  }

  /** What both loops leave: the front of the values and the values behind the range. */
  lemma RangeErased<T>(orig: seq<T>, moved: seq<T>, values: seq<T>, first: nat, mid: nat, last: nat)
    requires first <= mid <= last <= |orig| && Moved(orig, moved, first, mid)
    requires mid - first == if last - first <= |orig| - last then last - first else |orig| - last
    requires values == if mid < last then moved[..mid] else moved
    ensures |values| == |orig| - (last - first)
    ensures values[..first] == orig[..first]
    ensures multiset(values) == multiset(orig[..first] + orig[last..])
  {
    if mid < last {
      RangeErasedShort(orig, moved, first, mid, last);
    } else {
      RangeErasedLong(orig, moved, first, last);
    }
  }

  lemma RangeErasedShort<T>(orig: seq<T>, moved: seq<T>, first: nat, mid: nat, last: nat)
    requires first <= mid < last <= |orig| && Moved(orig, moved, first, mid) && mid - first == |orig| - last
    ensures |moved| == last && moved[..mid] == orig[..first] + moved[first..mid]
    ensures multiset(moved[..mid]) == multiset(orig[..first] + orig[last..])
  {
  }

  lemma RangeErasedLong<T>(orig: seq<T>, moved: seq<T>, first: nat, last: nat)
    requires first <= last <= |orig| && Moved(orig, moved, first, last)
    ensures multiset(moved) == multiset(orig[..first] + orig[last..])
  {
    var c, d := moved[last..], orig[|moved|..];
    TailFromEnd(moved[..first], moved[first..last], c, d);
    assert moved == moved[..first] + moved[first..last] + c;
    assert orig[last..] == c + d by {
      assert c == orig[last..|moved|];
    }
  }

  lemma TailFromEnd<T>(a: seq<T>, b: seq<T>, c: seq<T>, d: seq<T>)
    requires multiset(b) == multiset(d)
    ensures multiset(a + b + c) == multiset(a + (c + d))
  {
    assert multiset(a + b + c) == multiset(a) + multiset(b) + multiset(c);
    assert multiset(a + (c + d)) == multiset(a) + (multiset(c) + multiset(d));
  }
}
