/**
 * The insertion-ordered hash table of ordered_hash.h.
 *
 * The vectors are sequences that the methods reassign; `pos` is the bucket of every value and exists for the proof.
 * Bucket counts stay within 2^32, so that the truncated hash of a bucket decides its ideal bucket.
 */
module OrderedHashes {
  import opened Circular
  import opened Naturals
  import opened OrderedBuckets
  import opened TableValues
  import RobinHood

  const MAX_SIZE: nat := 0xFFFF_FFFE
  const MAX_COUNT: nat := 0x1_0000_0000
  const NPROBES: nat := 128
  const MIN_LOAD: real := 0.15

  type Hash = RobinHood.uint64

  function Truncate(h: Hash): uint32 {
    h % 0x1_0000_0000
  }

  function Truncated<K, V>(hash: K -> Hash, values: seq<(K, V)>): (hs: seq<uint32>)
    ensures |hs| == |values| && forall i :: 0 <= i < |values| ==> hs[i] == Truncate(hash(values[i].0))
  {
    seq<uint32>(|values|, i requires 0 <= i < |values| => Truncate(hash(values[i].0)))
  }

  /** `hash & mask`, for a power of two buckets. */
  function BucketForHash(h: nat, n: nat): (i: nat)
    requires n > 0
    ensures i < n
  {
    h % n
  }

  function HomeIn(n: nat): uint32 -> nat {
    (h: uint32) => if n == 0 then 0 else BucketForHash(h, n)
  }

  ghost predicate PowerUpTo32(n: nat) {
    exists b: nat :: b <= 32 && Pow2(b) == n
  }

  lemma DivisionLaw(h: nat, n: nat)
    requires n > 0
    ensures h == n * Quotient(h, n) + BucketForHash(h, n)
  {
  }

  lemma RemainderUnique(n: nat, a: nat, r: nat, b: nat, s: nat)
    requires n * a + r == n * b + s && r < n && s < n
    ensures r == s
  {
    if a < b {
      ProductMonotone(n, a + 1, b);
    } else if b < a {
      ProductMonotone(n, b + 1, a);
    }
  }

  lemma Regroup(n: nat, q: nat, k: nat, j: nat)
    ensures n * (q * k + j) == (n * q) * k + n * j
  {
  }

  /** Reducing by a multiple of n first does not change the remainder by n. */
  lemma RemainderOfRemainder(h: nat, n: nat, q: nat, m: nat)
    requires n > 0 && m > 0 && m == n * q
    ensures BucketForHash(BucketForHash(h, m), n) == BucketForHash(h, n)
  {
    var k, r := Quotient(h, m), BucketForHash(h, m);
    DivisionLaw(h, m);
    DivisionLaw(r, n);
    DivisionLaw(h, n);
    Regroup(n, q, k, Quotient(r, n));
    RemainderUnique(n, q * k + Quotient(r, n), BucketForHash(r, n), Quotient(h, n), BucketForHash(h, n));
  }

  /** The truncated hash leads to the same bucket as the full one. */
  lemma TruncatedHome(h: Hash, n: nat)
    requires PowerUpTo32(n)
    ensures n > 0 && HomeIn(n)(Truncate(h)) == BucketForHash(h, n)
  {
    var b: nat :| b <= 32 && Pow2(b) == n;
    Pow2Add(b, 32 - b);
    Pow2ThirtyTwo();
    RemainderOfRemainder(h, n, Pow2(32 - b), 0x1_0000_0000);
  }

  lemma Pow2ThirtyTwo()
    ensures Pow2(32) == 0x1_0000_0000
  {
    Pow2Sixteen();
    Pow2Add(16, 16);
  }

  /** floor(n * load), which is zero without buckets. */
  function ThresholdOf(n: nat, load: real): (t: nat)
    requires 0.0 < load < 1.0
    ensures n > 0 ==> t < n
    ensures n == 0 ==> t == 0
  {
    if n == 0 then 0 else CapacityOf(n, load)
  }

  /** The least power of two that is at least `least` and `n`, from `least` on. */
  function RoundUpFrom(least: nat, n: nat): (r: nat)
    requires least > 0
    ensures least <= r && n <= r && (r == least || r < 2 * n)
    decreases n - least
  {
    if n <= least then least else RoundUpFrom(2 * least, n)
  }

  /** round_up_to_power_of_two */
  function RoundUp(n: nat): (r: nat)
    ensures n <= r && r > 0 && (n > 0 ==> r < 2 * n)
  {
    RoundUpFrom(1, n)
  }

  lemma {:induction false} RoundUpFromPower(b: nat, n: nat)
    requires b <= 32 && n <= MAX_COUNT
    ensures PowerUpTo32(RoundUpFrom(Pow2(b), n))
    decreases 32 - b
  {
    Pow2ThirtyTwo();
    if n <= Pow2(b) {
    } else if b < 32 {
      assert Pow2(b + 1) == 2 * Pow2(b);
      RoundUpFromPower(b + 1, n);
    }
  }

  lemma RoundUpPower(n: nat)
    requires n <= MAX_COUNT
    ensures PowerUpTo32(RoundUp(n))
  {
    assert Pow2(0) == 1;
    RoundUpFromPower(0, n);
  }

  /** A power of two is rounded to itself. */
  lemma RoundUpOfPower(n: nat)
    requires n <= MAX_COUNT && PowerUpTo32(n)
    ensures RoundUp(n) == n
  {
    RoundUpPower(n);
    var a: nat :| a <= 32 && Pow2(a) == n;
    var b: nat :| b <= 32 && Pow2(b) == RoundUp(n);
    if a < b {
      Pow2Grows(a + 1, b);
    } else {
      Pow2Grows(b, a);
    }
  }

  lemma DoublePower(n: nat)
    requires PowerUpTo32(n) && 2 * n <= MAX_COUNT
    ensures PowerUpTo32(2 * n)
  {
    var b: nat :| b <= 32 && Pow2(b) == n;
    Pow2ThirtyTwo();
    assert Pow2(b + 1) == 2 * n;
  }

  datatype InsertResult = Inserted(at: nat) | Present(at: nat) | TooMany

  // ---------------------------------------------------------------- what a probe knows about a key

  /** No live value with the key lies nearer to its home than t. */
  ghost predicate NotPassed<K, V>(hash: K -> Hash, values: seq<(K, V)>, bs: seq<Slot>, pos: seq<nat>, key: K, t: nat)
    requires |pos| == |values| && 0 < |bs|
  {
    forall v :: 0 <= v < |values| && values[v].0 == key && Live(bs, pos, v) ==>
      t <= Dist(pos[v], HomeIn(|bs|)(Truncate(hash(key))), |bs|)
  }

  ghost predicate HasLiveKey<K, V>(values: seq<(K, V)>, bs: seq<Slot>, pos: seq<nat>, key: K)
    requires |pos| == |values|
  {
    exists v :: 0 <= v < |values| && Live(bs, pos, v) && values[v].0 == key
  }

  /** The table's index, between any two steps. */
  ghost predicate Indexed<K, V>(hash: K -> Hash, values: seq<(K, V)>, bs: seq<Slot>, pos: seq<nat>) {
    PowerUpTo32(|bs|) && Index(HomeIn(|bs|), Truncated(hash, values), bs, pos)
  }

  /** A free bucket, or one whose value is nearer to home than the probe, proves the key absent. */
  lemma ProbeAbsent<K, V>(hash: K -> Hash, values: seq<(K, V)>, bs: seq<Slot>, pos: seq<nat>, key: K, t: nat)
    requires Indexed(hash, values, bs, pos) && t <= |bs| && NotPassed(hash, values, bs, pos, key, t)
    requires var j := Step(HomeIn(|bs|)(Truncate(hash(key))), t, |bs|);
             t == |bs| || bs[j].Free? || DistAt(HomeIn(|bs|), bs, j) < t
    ensures !HasLiveKey(values, bs, pos, key)
  {
    var home := HomeIn(|bs|);
    forall v | 0 <= v < |values| && Live(bs, pos, v)
      ensures values[v].0 != key
    {
      if values[v].0 == key {
        StoredBehind(home, Truncated(hash, values), bs, pos, v, t);
      }
    }
  }

  /** A bucket without the key is left behind. */
  lemma ProbePasses<K, V>(hash: K -> Hash, values: seq<(K, V)>, bs: seq<Slot>, pos: seq<nat>, key: K, t: nat)
    requires Indexed(hash, values, bs, pos) && t < |bs| && NotPassed(hash, values, bs, pos, key, t)
    requires var j := Step(HomeIn(|bs|)(Truncate(hash(key))), t, |bs|);
             bs[j].Used? ==> bs[j].index < |values| &&
                               !(bs[j].hash == Truncate(hash(key)) && values[bs[j].index].0 == key)
    ensures NotPassed(hash, values, bs, pos, key, t + 1)
  {
    var home := HomeIn(|bs|);
    forall v | 0 <= v < |values| && values[v].0 == key && Live(bs, pos, v)
      ensures t + 1 <= Dist(pos[v], home(Truncate(hash(key))), |bs|)
    {
      StoredBehind(home, Truncated(hash, values), bs, pos, v, t);
      assert Placed(Truncated(hash, values), bs, pos, v);
    }
  }

  lemma SlotIndexes<K, V>(hash: K -> Hash, values: seq<(K, V)>, bs: seq<Slot>, pos: seq<nat>, j: nat)
    requires Indexed(hash, values, bs, pos) && j < |bs| && bs[j].Used?
    ensures bs[j].index < |values| && pos[bs[j].index] == j && Live(bs, pos, bs[j].index)
    ensures bs[j].hash == Truncate(hash(values[bs[j].index].0))
  {
    assert Sound(Truncated(hash, values), bs, pos, j);
  }

  /** How a search for an insertion point reached bucket j: over used buckets at least as far from home. */
  ghost predicate Approached(home: uint32 -> nat, bs: seq<Slot>, h: uint32, j: nat, t: nat)
    requires HomesFit(home, |bs|)
  {
    && t <= |bs| && 0 < |bs| && j == Step(home(h), t, |bs|)
    && (t > 0 ==> forall p :: 0 <= p < |bs| && Next(p, |bs|) == j ==> bs[p].Used? && t <= DistAt(home, bs, p) + 1)
  }

  lemma ApproachNext(home: uint32 -> nat, bs: seq<Slot>, h: uint32, j: nat, t: nat)
    requires HomesFit(home, |bs|) && Approached(home, bs, h, j, t)
    requires bs[j].Used? && t <= DistAt(home, bs, j)
    ensures Approached(home, bs, h, Next(j, |bs|), t + 1)
  {
    StepDist(home(h), t, |bs|);
    forall p | 0 <= p < |bs| && Next(p, |bs|) == Next(j, |bs|)
      ensures p == j
    {
      NextInjective(p, j, |bs|);
    }
  }

  /** With a free bucket, the search has not gone all the way round. */
  lemma ApproachRoom(home: uint32 -> nat, bs: seq<Slot>, h: uint32, j: nat, t: nat, e: nat)
    requires HomesFit(home, |bs|) && AllOrdered(home, bs) && Approached(home, bs, h, j, t)
    requires e < |bs| && bs[e].Free?
    ensures t < |bs| && t == Dist(j, home(h), |bs|)
  {
    var n := |bs|;
    if t == n {
      var p := if j == 0 then n - 1 else j - 1;
      assert Next(p, n) == j;
      RoomBehind(home, bs, p, e);
    }
    StepDist(home(h), t, n);
  }

  /** Renumbering for a new value keeps how a probe arrived. */
  lemma ApproachedCarries<K, V>(hash: K -> Hash, values: seq<(K, V)>, bs: seq<Slot>, pos: seq<nat>, p: nat, x: (K, V),
                                j: nat, t: nat)
    requires Indexed(hash, values, bs, pos) && p <= |values| && |values| < |bs| && AllLive(bs, pos)
    requires Approached(HomeIn(|bs|), bs, Truncate(hash(x.0)), j, t)
    ensures var c := Used(p, Truncate(hash(x.0)));
            Carrying(HomeIn(|bs|), Truncated(hash, InsertAt(values, p, x)), Shifted(bs, p, 1),
                     InsertAt(pos, p, |bs|), c, j, t)
  {
    var home, hs, h := HomeIn(|bs|), Truncated(hash, values), Truncate(hash(x.0));
    var bs', hs', pos' := Shifted(bs, p, 1), InsertAt(hs, p, h), InsertAt(pos, p, |bs|);
    assert Truncated(hash, InsertAt(values, p, x)) == hs';
    GapLinked(home, hs, bs, pos, p, h);
    ShiftedOrdered(home, bs, p, 1);
    ShiftedDist(home, bs, p, 1);
    var e := FreeExists(home, hs', bs', pos', p);
    assert bs[e].Free?;
    ApproachRoom(home, bs, h, j, t, e);
    ApproachShifted(home, bs, p, h, j, t);
  }

  lemma ApproachShifted(home: uint32 -> nat, bs: seq<Slot>, p: nat, h: uint32, j: nat, t: nat)
    requires HomesFit(home, |bs|) && Approached(home, bs, h, j, t)
    ensures Approached(home, Shifted(bs, p, 1), h, j, t)
  {
    ShiftedDist(home, bs, p, 1);
  }

  /** Placing value `first` leaves every value but the one in hand as it was. */
  ghost predicate Placing(home: uint32 -> nat, hs: seq<uint32>, bs: seq<Slot>, pos: seq<nat>, was: seq<nat>, first: nat,
                          c: Slot, place: nat, t: nat, e: nat) {
    && Carrying(home, hs, bs, pos, c, place, t)
    && e < |bs| && bs[e].Free? && |was| == |pos| && first < |was|
    && (c.index == first || was[c.index] < |bs|)
    && (forall v :: 0 <= v < |pos| && v != c.index ==> (pos[v] < |bs| <==> v == first || was[v] < |bs|))
  }

  /** Only `first` has become live. */
  ghost predicate PlacedOnly(n: nat, pos: seq<nat>, was: seq<nat>, first: nat) {
    |was| == |pos| && forall v :: 0 <= v < |pos| ==> (pos[v] < n <==> v == first || was[v] < n)
  }

  lemma PlacingFacts(home: uint32 -> nat, hs: seq<uint32>, bs: seq<Slot>, pos: seq<nat>, was: seq<nat>, first: nat,
                     c: Slot, place: nat, t: nat, e: nat)
    requires Placing(home, hs, bs, pos, was, first, c, place, t, e)
    ensures HomesFit(home, |bs|) && place < |bs| && e < |bs| && c.Used? && c.index < |pos| && |was| == |pos|
  {
  }

  lemma PlacingPast(home: uint32 -> nat, hs: seq<uint32>, bs: seq<Slot>, pos: seq<nat>, was: seq<nat>, first: nat,
                    c: Slot, place: nat, t: nat, e: nat)
    requires Placing(home, hs, bs, pos, was, first, c, place, t, e)
    requires bs[place].Used? && t <= DistAt(home, bs, place)
    ensures Placing(home, hs, bs, pos, was, first, c, Next(place, |bs|), t + 1, e)
    ensures Dist(e, Next(place, |bs|), |bs|) < Dist(e, place, |bs|)
  {
    CarryPast(home, hs, bs, pos, c, place, t, e);
    DistToward(e, place, |bs|);
  }

  lemma PlacingSwap(home: uint32 -> nat, hs: seq<uint32>, bs: seq<Slot>, pos: seq<nat>, was: seq<nat>, first: nat,
                    c: Slot, place: nat, t: nat, e: nat)
    requires Placing(home, hs, bs, pos, was, first, c, place, t, e)
    requires bs[place].Used? && DistAt(home, bs, place) < t
    ensures bs[place].index < |pos|
    ensures Placing(home, hs, bs[place := c], pos[bs[place].index := |bs|][c.index := place], was, first, bs[place],
                    Next(place, |bs|), DistAt(home, bs, place) + 1, e)
    ensures Dist(e, Next(place, |bs|), |bs|) < Dist(e, place, |bs|)
  {
    CarrySwap(home, hs, bs, pos, c, place, t, e);
    DistToward(e, place, |bs|);
    assert Sound(hs, bs, pos, place);
  }

  lemma PlacingEnd(home: uint32 -> nat, hs: seq<uint32>, bs: seq<Slot>, pos: seq<nat>, was: seq<nat>, first: nat,
                   c: Slot, place: nat, t: nat, e: nat)
    requires Placing(home, hs, bs, pos, was, first, c, place, t, e) && bs[place].Free?
    ensures Index(home, hs, bs[place := c], pos[c.index := place])
    ensures PlacedOnly(|bs|, pos[c.index := place], was, first)
  {
    CarryEnd(home, hs, bs, pos, c, place, t);
  }

  lemma DoubledRounds(n: nat)
    requires 2 * n <= MAX_COUNT && (n > 0 ==> PowerUpTo32(n))
    ensures n == 0 ==> RoundUp(1) == 1
    ensures n > 0 ==> RoundUp(2 * n) == 2 * n
  {
    if n > 0 {
      DoublePower(n);
      RoundUpOfPower(2 * n);
    }
  }

  ghost predicate SameLive(n: nat, now: seq<nat>, was: seq<nat>) {
    |was| == |now| && forall v :: 0 <= v < |now| ==> (now[v] < n <==> was[v] < n)
  }

  lemma AllLiveOutside(bs: seq<Slot>, pos: seq<nat>, first: nat)
    requires AllLive(bs, pos)
    ensures LiveOutside(|bs|, pos, first, first)
  {
    forall v | 0 <= v < |pos|
      ensures pos[v] < |bs|
    {
      assert Live(bs, pos, v);
    }
  }

  lemma SameAllLive(bs: seq<Slot>, now: seq<nat>, bs0: seq<Slot>, was: seq<nat>)
    requires |bs| == |bs0| && SameLive(|bs|, now, was) && AllLive(bs0, was)
    ensures AllLive(bs, now)
  {
    forall v | 0 <= v < |now|
      ensures Live(bs, now, v)
    {
      assert Live(bs0, was, v);
    }
  }

  lemma SoundLive(hs: seq<uint32>, bs: seq<Slot>, pos: seq<nat>, i: nat)
    requires |pos| == |hs| && i < |bs| && Sound(hs, bs, pos, i) && bs[i].Used?
    ensures bs[i].index < |pos| && pos[bs[i].index] == i
  {
  }

  lemma InsertedAllLive(bs: seq<Slot>, pos: seq<nat>, bs0: seq<Slot>, was: seq<nat>, p: nat)
    requires |bs| == |bs0| && p <= |was| && AllLive(bs0, was)
    requires PlacedOnly(|bs|, pos, InsertAt(was, p, |bs|), p)
    ensures AllLive(bs, pos)
  {
    forall v | 0 <= v < |pos|
      ensures Live(bs, pos, v)
    {
      if v != p {
        assert Live(bs0, was, if v < p then v else v - 1);
      }
    }
  }

  function AllFree(n: nat): (bs: seq<Slot>)
    ensures |bs| == n && forall i :: 0 <= i < n ==> bs[i] == Free
  {
    seq(n, _ => Free)
  }

  ghost function AllDead(m: nat, n: nat): (pos: seq<nat>)
    ensures |pos| == m && forall v :: 0 <= v < m ==> pos[v] == n
  {
    seq(m, _ => n)
  }

  lemma FreeIndex(home: uint32 -> nat, hs: seq<uint32>, n: nat)
    requires HomesFit(home, n) && n > 0
    ensures Index(home, hs, AllFree(n), AllDead(|hs|, n))
  {
  }

  /** The values of the first k old buckets are live in the new ones. */
  ghost predicate RehashedUpTo(n: nat, pos: seq<nat>, was: seq<nat>, k: nat) {
    |was| == |pos| && forall v :: 0 <= v < |pos| ==> (pos[v] < n <==> was[v] < k)
  }

  lemma RehashedNext<K, V>(hash: K -> Hash, values: seq<(K, V)>, bs: seq<Slot>, was: seq<nat>, n: nat, before: seq<nat>,
                           after: seq<nat>, k: nat)
    requires Indexed(hash, values, bs, was) && k < |bs| && bs[k].Used? && bs[k].index < |values|
    requires RehashedUpTo(n, before, was, k) && PlacedOnly(n, after, before, bs[k].index)
    ensures RehashedUpTo(n, after, was, k + 1)
  {
    SlotIndexes(hash, values, bs, was, k);
    forall v | 0 <= v < |was|
      ensures was[v] == k ==> v == bs[k].index
    {
      assert Placed(Truncated(hash, values), bs, was, v);
    }
  }

  lemma RehashedSkip<K, V>(hash: K -> Hash, values: seq<(K, V)>, bs: seq<Slot>, was: seq<nat>, n: nat, now: seq<nat>,
                           k: nat)
    requires Indexed(hash, values, bs, was) && k < |bs| && bs[k].Free?
    requires RehashedUpTo(n, now, was, k)
    ensures RehashedUpTo(n, now, was, k + 1)
  {
    forall v | 0 <= v < |was|
      ensures was[v] != k
    {
      assert Placed(Truncated(hash, values), bs, was, v);
    }
  }

  /** How many buckets `count` values need. */
  function Needed(count: nat, load: real): (n: nat)
    requires 0.0 < load < 1.0
    ensures n >= count && n as real * load >= count as real
  {
    NeededBounds(count, load);
    -((-(count as real / load)).Floor)
  }

  lemma NeededBounds(count: nat, load: real)
    requires 0.0 < load < 1.0
    ensures var n := -((-(count as real / load)).Floor); n >= count && n as real * load >= count as real
  {
    var c, q := count as real, count as real / load;
    var n := -((-q).Floor);
    assert n as real >= q;
    assert q * load == c;
    assert (n as real - q) * load >= 0.0;
    assert q * (1.0 - load) >= 0.0;
    assert q >= c;
  }

  /** Enough buckets for `count` values hold them below the threshold. */
  lemma ThresholdHolds(count: nat, n: nat, load: real)
    requires 0.0 < load < 1.0 && Needed(count, load) <= n
    ensures count <= ThresholdOf(n, load)
  {
    hide Needed, ThresholdOf;
    if n > 0 {
      ThresholdIs(n, load);
      AboveProduct(Needed(count, load) as real, n as real, load);
      FloorHolds(count, n as real * load);
    }
  }

  lemma ThresholdIs(n: nat, load: real)
    requires 0.0 < load < 1.0 && n > 0
    ensures ThresholdOf(n, load) == (n as real * load).Floor
  {
  }

  lemma FloorHolds(c: nat, x: real)
    requires c as real <= x
    ensures c <= x.Floor
  {
  }

  lemma GrowthAssertion(n: nat, b: nat, load: real)
    requires 0.0 < load < 1.0
    ensures Needed(n, load) <= 2 * b <==> n as real <= (2 * b) as real * load
  {
    var quotient := n as real / load;
    assert quotient * load == n as real;
    if n as real <= (2 * b) as real * load {
      BelowQuotient(quotient, (2 * b) as real, load);
    } else {
      NeededBounds(n, load);
      if Needed(n, load) <= 2 * b {
        AboveProduct(Needed(n, load) as real, (2 * b) as real, load);
      }
    }
  }

  lemma BelowQuotient(x: real, y: real, load: real)
    requires load > 0.0 && x * load <= y * load
    ensures x <= y
  {
    if x > y {
      LargerProduct(y, x, load);
    }
  }

  lemma LargerProduct(x: real, y: real, load: real)
    requires load > 0.0 && x < y
    ensures x * load < y * load
  {
    assert (y - x) * load > 0.0;
  }

  lemma AboveProduct(x: real, y: real, load: real)
    requires load >= 0.0 && x <= y
    ensures x * load <= y * load
  {
    assert (y - x) * load >= 0.0;
  }

  /** Whether the assertion of rehash_impl() holds when n values in b buckets grow. */
  predicate GrowthAsserts(n: nat, b: nat, load: real)
    requires 0.0 < load < 1.0
  {
    Needed(n, load) <= GrownTo(b)
  }

  /** The bucket count that growth asks for. */
  function GrownTo(b: nat): nat {
    if b == 0 then 1 else 2 * b
  }

  /** With a load factor of at least one half it holds for every table that a bucket each is enough for ... */
  lemma HalfLoadAsserts(n: nat, b: nat, load: real)
    requires 0.5 <= load < 1.0 && n <= b
    ensures GrowthAsserts(n, b, load)
  {
    hide Needed;
    GrowthAssertion(n, b, load);
    if b == 0 {
      NothingNeeded(load);
    } else {
      TwiceHolds(n as real, (2 * b) as real, load);
    }
  }

  lemma NothingNeeded(load: real)
    requires 0.0 < load < 1.0
    ensures Needed(0, load) == 0
  {
    assert 0.0 / load == 0.0;
  }

  lemma TwiceHolds(n: real, twice: real, load: real)
    requires n <= 0.5 * twice && twice >= 0.0 && load >= 0.5
    ensures n <= twice * load
  {
    AboveProduct(0.5, load, twice);
  }

  /** ... and below one half it fails for every full one. */
  lemma FullTableFails(n: nat, load: real)
    requires 0.0 < load < 0.5 && n > 0
    ensures !GrowthAsserts(n, n, load)
  {
    GrowthAssertion(n, n, load);
    LargerProduct(load, 0.5, (2 * n) as real);
  }

  lemma InsertAtDistinct<K, V>(values: seq<(K, V)>, p: nat, x: (K, V))
    requires Distinct(values) && p <= |values| && !HasKey(values, x.0)
    ensures Distinct(InsertAt(values, p, x))
  {
    var after := InsertAt(values, p, x);
    forall i, j | 0 <= i < j < |after|
      ensures after[i].0 != after[j].0
    {
      if i != p {
        assert after[i] == values[if i < p then i else i - 1];
      }
      if j != p {
        assert after[j] == values[if j < p then j else j - 1];
      }
    }
  }

  lemma RemoveAtDistinct<K, V>(values: seq<(K, V)>, p: nat)
    requires Distinct(values) && p < |values|
    ensures Distinct(RemoveAt(values, p))
  {
  }

  /** The buckets once the value of bucket b is erased, before the backward shift. */
  ghost function ErasedSlots(bs: seq<Slot>, b: nat, n: nat): (r: seq<Slot>)
    requires b < |bs| && bs[b].Used?
    ensures |r| == |bs|
  {
    var v := bs[b].index;
    (if v + 1 == n then bs else Shifted(bs, v + 1, -1))[b := Free]
  }

  lemma Erased<K, V>(hash: K -> Hash, values: seq<(K, V)>, bs: seq<Slot>, pos: seq<nat>, b: nat)
    requires Indexed(hash, values, bs, pos) && AllLive(bs, pos) && b < |bs| && bs[b].Used?
    ensures bs[b].index < |values|
    ensures var v := bs[b].index;
            && Linked(HomeIn(|bs|), Truncated(hash, RemoveAt(values, v)), ErasedSlots(bs, b, |values|),
                      RemoveAt(pos, v))
            && OrderedAround(HomeIn(|bs|), ErasedSlots(bs, b, |values|), b)
            && AllLive(ErasedSlots(bs, b, |values|), RemoveAt(pos, v))
  {
    var home, hs, v := HomeIn(|bs|), Truncated(hash, values), bs[b].index;
    SlotIndexes(hash, values, bs, pos, b);
    var bs1, pos1 := bs[b := Free], pos[v := |bs|];
    ClearLinked(home, hs, bs, pos, b);
    ClearOrdered(home, bs, b);
    ForgetLinked(home, hs, bs1, pos1, v);
    ShiftedOrderedAround(home, bs1, v + 1, -1, b);
    assert RemoveAt(pos1, v) == RemoveAt(pos, v);
    assert Truncated(hash, RemoveAt(values, v)) == RemoveAt(hs, v);
    ErasedSlotsAre(hash, values, bs, pos, b);
    var bs', pos' := ErasedSlots(bs, b, |values|), RemoveAt(pos, v);
    forall u | 0 <= u < |pos'|
      ensures Live(bs', pos', u)
    {
      assert Live(bs, pos, if u < v then u else u + 1);
    }
  }

  lemma ErasedSlotsAre<K, V>(hash: K -> Hash, values: seq<(K, V)>, bs: seq<Slot>, pos: seq<nat>, b: nat)
    requires Indexed(hash, values, bs, pos) && b < |bs| && bs[b].Used?
    ensures ErasedSlots(bs, b, |values|) == Shifted(bs[b := Free], bs[b].index + 1, -1)
  {
    var v := bs[b].index;
    forall i | 0 <= i < |bs|
      ensures ErasedSlots(bs, b, |values|)[i] == Shifted(bs[b := Free], v + 1, -1)[i]
    {
      assert Sound(Truncated(hash, values), bs, pos, i);
    }
  }

  /** Values v and w trade slots, in the vector and in their buckets. */
  lemma Traded<K, V>(hash: K -> Hash, values: seq<(K, V)>, bs: seq<Slot>, pos: seq<nat>, v: nat, w: nat)
    requires Indexed(hash, values, bs, pos) && AllLive(bs, pos) && v < |values| && w < |values| && v != w
    ensures Live(bs, pos, v) && Live(bs, pos, w) && bs[pos[v]].Used? && bs[pos[w]].Used?
    ensures var bs' := bs[pos[v] := Used(w, bs[pos[v]].hash)][pos[w] := Used(v, bs[pos[w]].hash)];
            var pos' := pos[v := pos[w]][w := pos[v]];
            Indexed(hash, values[v := values[w]][w := values[v]], bs', pos') && AllLive(bs', pos')
  {
    var home, hs := HomeIn(|bs|), Truncated(hash, values);
    assert Live(bs, pos, v) && Live(bs, pos, w);
    assert Placed(hs, bs, pos, v) && Placed(hs, bs, pos, w);
    var bs' := bs[pos[v] := Used(w, hs[v])][pos[w] := Used(v, hs[w])];
    TradeLinked(home, hs, bs, pos, v, w);
    assert Truncated(hash, values[v := values[w]][w := values[v]]) == hs[v := hs[w]][w := hs[v]];
    IndexesOrdered(home, bs, bs');
    var pos' := pos[v := pos[w]][w := pos[v]];
    forall u | 0 <= u < |pos|
      ensures Live(bs', pos', u)
    {
      assert Live(bs, pos, u);
    }
  }

  /** Value v moves to the dead slot w. */
  lemma MovedDown<K, V>(hash: K -> Hash, values: seq<(K, V)>, bs: seq<Slot>, pos: seq<nat>, v: nat, w: nat)
    requires Indexed(hash, values, bs, pos) && v < |values| && w < |values| && Live(bs, pos, v) && !Live(bs, pos, w)
    ensures bs[pos[v]].Used?
    ensures Indexed(hash, values[w := values[v]], bs[pos[v] := Used(w, bs[pos[v]].hash)], pos[w := pos[v]][v := |bs|])
  {
    var home, hs := HomeIn(|bs|), Truncated(hash, values);
    assert Placed(hs, bs, pos, v);
    MoveLinked(home, hs, bs, pos, v, w);
    assert Truncated(hash, values[w := values[v]]) == hs[w := hs[v]];
    IndexesOrdered(home, bs, bs[pos[v] := Used(w, hs[v])]);
  }

  lemma Cut<K, V>(hash: K -> Hash, values: seq<(K, V)>, bs: seq<Slot>, pos: seq<nat>, m: nat)
    requires Indexed(hash, values, bs, pos) && m <= |values| && LiveOutside(|bs|, pos, m, |values|)
    ensures Indexed(hash, values[..m], bs, pos[..m]) && AllLive(bs, pos[..m])
  {
    var hs := Truncated(hash, values);
    TruncateLinked(HomeIn(|bs|), hs, bs, pos, m);
    assert Truncated(hash, values[..m]) == hs[..m];
  }

  // ---------------------------------------------------------------- stable removal

  /** Slots from `first` to `it` are left behind. */
  ghost predicate LiveOutside(n: nat, pos: seq<nat>, first: nat, it: nat) {
    forall v :: 0 <= v < |pos| ==> (pos[v] < n <==> v < first || v >= it)
  }

  /** The kept values among the first `it` are in front, the others wait from `it` on. */
  ghost predicate Compacted<K, V>(orig: seq<(K, V)>, now: seq<(K, V)>, keep: ((K, V)) -> bool, first: nat, it: nat) {
    && first <= it <= |orig| == |now| && now[it..] == orig[it..]
    && now[..first] + Filter(orig[it..], keep) == Filter(orig, keep)
    && (forall v :: 0 <= v < first ==> now[v] in orig[..it])
    && Distinct(now[..first])
  }

  lemma CompactedDrop<K, V>(orig: seq<(K, V)>, now: seq<(K, V)>, keep: ((K, V)) -> bool, first: nat, it: nat)
    requires Compacted(orig, now, keep, first, it) && it < |orig| && !keep(now[it])
    ensures Compacted(orig, now, keep, first, it + 1)
  {
    FilterFront(orig, keep, it);
    assert now[it] == now[it..][0] == orig[it];
    assert now[it + 1..] == now[it..][1..] == orig[it..][1..];
    assert orig[..it + 1] == orig[..it] + [orig[it]];
  }

  lemma CompactedKeep<K, V>(orig: seq<(K, V)>, now: seq<(K, V)>, keep: ((K, V)) -> bool, first: nat, it: nat)
    requires Compacted(orig, now, keep, first, it) && Distinct(orig) && it < |orig| && keep(now[it])
    ensures Compacted(orig, now[first := now[it]], keep, first + 1, it + 1)
  {
    var now' := now[first := now[it]];
    FilterFront(orig, keep, it);
    assert now[it] == now[it..][0] == orig[it];
    assert now'[it + 1..] == now[it..][1..] == orig[it..][1..];
    assert orig[..it + 1] == orig[..it] + [orig[it]];
    assert now'[..first + 1] == now[..first] + [orig[it]];
    var kept := Filter(orig[it + 1..], keep);
    assert now[..first] + ([orig[it]] + kept) == now'[..first + 1] + kept;
    CompactedApart(orig, now, keep, first, it);
  }

  /** No value already in front has the key of the value at `it`. */
  lemma CompactedApart<K, V>(orig: seq<(K, V)>, now: seq<(K, V)>, keep: ((K, V)) -> bool, first: nat, it: nat)
    requires Compacted(orig, now, keep, first, it) && Distinct(orig) && it < |orig|
    ensures forall v :: 0 <= v < first ==> now[v].0 != orig[it].0
    ensures forall v :: it <= v < |now| && now[v].0 == orig[it].0 ==> v == it
  {
    forall v | 0 <= v < first
      ensures now[v].0 != orig[it].0
    {
      assert now[v] in orig[..it];
    }
    forall v | it <= v < |now|
      ensures now[v] == orig[v]
    {
      assert now[v] == now[it..][v - it];
    }
  }

  class OrderedHash<K(==,!new), V> {
    const hash: K -> Hash
    var values: seq<(K, V)>
    var buckets: seq<Slot>
    var loadThreshold: nat
    var maxLoad: real
    var growOnNextInsert: bool
    ghost var pos: seq<nat>

    ghost predicate Sized()
      reads this
    {
      0.0 < maxLoad < 1.0 && loadThreshold == ThresholdOf(|buckets|, maxLoad)
    }

    /** Every value is live, keys are distinct, and there may be as many values as buckets. */
    ghost predicate Valid()
      reads this
    {
      && Sized()
      && |values| <= |buckets| && Distinct(values)
      && (|buckets| > 0 ==> Indexed(hash, values, buckets, pos) && AllLive(buckets, pos))
    }

    /** The next new key makes the buckets grow. */
    predicate Grows()
      reads this
    {
      growOnNextInsert || |values| >= loadThreshold
    }

    /** There is room for one more bucket array of twice the size. */
    ghost predicate CanGrow()
      reads this
    {
      2 * |buckets| <= MAX_COUNT
    }

    constructor (hash: K -> Hash, maxLoad: real)
      requires 0.0 < maxLoad < 1.0
      ensures Valid() && values == [] && buckets == [] && this.hash == hash && this.maxLoad == maxLoad
    {
      this.hash := hash;
      this.maxLoad := maxLoad;
      values, buckets, loadThreshold, growOnNextInsert, pos := [], [], 0, false, [];
    }

    // -------------------------------------------------------------- lookup

    function DistanceFromIdeal(i: nat): (d: nat)
      requires i < |buckets| && buckets[i].Used?
      reads this
      ensures d == DistAt(HomeIn(|buckets|), buckets, i)
    {
      Dist(i, HomeIn(|buckets|)(buckets[i].hash), |buckets|)
    }

    /** The bucket of a key, or the number of buckets if no live value has it. */
    method FindKey(key: K) returns (r: nat)
      requires |buckets| > 0 ==> Indexed(hash, values, buckets, pos)
      ensures r <= |buckets|
      ensures r < |buckets| ==> buckets[r].Used? && buckets[r].index < |values| && values[buckets[r].index].0 == key
      ensures r < |buckets| ==> pos[buckets[r].index] == r
      ensures r == |buckets| > 0 ==> !HasLiveKey(values, buckets, pos, key)
    {
      if |buckets| == 0 {
        return 0;  // The static empty bucket
      }
      ghost var home := HomeIn(|buckets|);
      TruncatedHome(hash(key), |buckets|);
      var j, t := BucketForHash(hash(key), |buckets|), 0;
      while true
        invariant t <= |buckets| && j == Step(home(Truncate(hash(key))), t, |buckets|)
        invariant NotPassed(hash, values, buckets, pos, key, t)
        decreases |buckets| - t
      {
        if buckets[j].Free? {
          ProbeAbsent(hash, values, buckets, pos, key, t);
          return |buckets|;
        }
        SlotIndexes(hash, values, buckets, pos, j);
        if buckets[j].hash == Truncate(hash(key)) && values[buckets[j].index].0 == key {
          return j;
        } else if t > DistanceFromIdeal(j) {
          ProbeAbsent(hash, values, buckets, pos, key, t);
          return |buckets|;
        }
        ProbePasses(hash, values, buckets, pos, key, t);
        StepDist(home(Truncate(hash(key))), t, |buckets|);
        j := Next(j, |buckets|);
        t := t + 1;
      }
    }

    /** The index of the key's value, or the number of values. */
    method Find(key: K) returns (r: nat)
      requires Valid()
      ensures r <= |values|
      ensures r < |values| ==> values[r].0 == key
      ensures r == |values| <==> !HasKey(values, key)
    {
      var b := FindKey(key);
      if b == |buckets| {
        AllLiveKeys(key);
        return |values|;
      }
      return buckets[b].index;
    }

    lemma AllLiveKeys(key: K)
      requires Valid() && (|buckets| > 0 ==> !HasLiveKey(values, buckets, pos, key))
      ensures !HasKey(values, key)
    {
      forall v | 0 <= v < |values|
        ensures values[v].0 != key
      {
        assert Live(buckets, pos, v);
      }
    }

    // -------------------------------------------------------------- placing an index

    /** Put the index in hand into a bucket, whose own index is in hand from then on. */
    method Displace(j: nat, c: Slot, t: nat, ghost first: nat, ghost was: seq<nat>, ghost e: nat) returns (inHand: Slot)
      requires Placing(HomeIn(|buckets|), Truncated(hash, values), buckets, pos, was, first, c, j, t, e)
      requires buckets[j].Used? && DistAt(HomeIn(|buckets|), buckets, j) < t
      modifies this`buckets, this`pos
      ensures |buckets| == old(|buckets|) && inHand == old(buckets[j])
      ensures Placing(HomeIn(|buckets|), Truncated(hash, values), buckets, pos, was, first, inHand, Next(j, |buckets|),
                      old(DistAt(HomeIn(|buckets|), buckets, j)) + 1, e)
      ensures Dist(e, Next(j, |buckets|), |buckets|) < Dist(e, j, |buckets|)
    {
      hide Placing, Truncated;
      PlacingFacts(HomeIn(|buckets|), Truncated(hash, values), buckets, pos, was, first, c, j, t, e);
      PlacingSwap(HomeIn(|buckets|), Truncated(hash, values), buckets, pos, was, first, c, j, t, e);
      ghost var pos' := pos[buckets[j].index := |buckets|][c.index := j];
      inHand, buckets, pos := buckets[j], buckets[j := c], pos';
    }

    /** One probe with an index in hand: it takes the bucket of a value that is closer to its ideal, or goes on. */
    method PlaceTurn(j: nat, c: Slot, t: nat, ghost first: nat, ghost was: seq<nat>, ghost e: nat)
      returns (inHand: Slot, next: nat)
      requires Placing(HomeIn(|buckets|), Truncated(hash, values), buckets, pos, was, first, c, j, t, e)
      requires buckets[j].Used?
      modifies this`buckets, this`pos
      ensures |buckets| == old(|buckets|)
      ensures Placing(HomeIn(|buckets|), Truncated(hash, values), buckets, pos, was, first, inHand, Next(j, |buckets|),
                      next, e)
      ensures Dist(e, Next(j, |buckets|), |buckets|) < Dist(e, j, |buckets|)
    {
      hide Placing, Truncated;
      PlacingFacts(HomeIn(|buckets|), Truncated(hash, values), buckets, pos, was, first, c, j, t, e);
      var distance := DistanceFromIdeal(j);
      if t > distance {
        inHand := Displace(j, c, t, first, was, e);
        next := distance + 1;
      } else {
        PlacingPast(HomeIn(|buckets|), Truncated(hash, values), buckets, pos, was, first, c, j, t, e);
        inHand, next := c, t + 1;
      }
    }

    /** Robin-hood placement of an index: richer buckets give way to the one in hand. */
    method InsertIndex(place: nat, dist: nat, index: nat, hash': uint32)
      requires |values| <= |buckets| && PowerUpTo32(|buckets|)
      requires Carrying(HomeIn(|buckets|), Truncated(hash, values), buckets, pos, Used(index, hash'), place, dist)
      modifies this`buckets, this`pos, this`growOnNextInsert
      ensures |buckets| == old(|buckets|) && Indexed(hash, values, buckets, pos)
      ensures PlacedOnly(|buckets|, pos, old(pos), index)
      ensures old(growOnNextInsert) ==> growOnNextInsert
      ensures growOnNextInsert && !old(growOnNextInsert) ==> |values| as real >= MIN_LOAD * |buckets| as real
    {
      hide PlacedOnly, Ordered, Sound, Placed, Truncated;
      ghost var home, hs := HomeIn(|buckets|), Truncated(hash, values);
      ghost var e := FreeExists(home, hs, buckets, pos, index);
      var j: nat, t: nat, inHand := place, dist, Used(index, hash');
      while buckets[j].Used?
        invariant |buckets| == old(|buckets|)
        invariant Placing(home, hs, buckets, pos, old(pos), index, inHand, j, t, e)
        invariant old(growOnNextInsert) ==> growOnNextInsert
        invariant growOnNextInsert && !old(growOnNextInsert) ==> |values| as real >= MIN_LOAD * |buckets| as real
        decreases Dist(e, j, |buckets|)
      {
        inHand, t := PlaceTurn(j, inHand, t, index, old(pos), e);
        j := Next(j, |buckets|);
        if t > NPROBES && !growOnNextInsert && |values| as real >= MIN_LOAD * |buckets| as real {
          growOnNextInsert := true;
        }
      }
      PlacingEnd(home, hs, buckets, pos, old(pos), index, inHand, j, t, e);
      buckets, pos := buckets[j := inHand], pos[inHand.index := j];
    }

    /** Place an index again, from its ideal bucket on, in a new bucket array. */
    method Reinsert(index: nat, hash': uint32)
      requires |values| <= |buckets| && Indexed(hash, values, buckets, pos)
      requires index < |values| && !Live(buckets, pos, index) && hash' == Truncate(hash(values[index].0))
      modifies this`buckets, this`pos
      ensures |buckets| == old(|buckets|) && Indexed(hash, values, buckets, pos)
      ensures PlacedOnly(|buckets|, pos, old(pos), index)
    {
      ghost var home, hs := HomeIn(|buckets|), Truncated(hash, values);
      ghost var e := FreeExists(home, hs, buckets, pos, index);
      var j: nat, t: nat, inHand := BucketForHash(hash', |buckets|), 0, Used(index, hash');
      CarryStart(home, hs, buckets, pos, index);
      while buckets[j].Used?
        invariant |buckets| == old(|buckets|)
        invariant Placing(home, hs, buckets, pos, old(pos), index, inHand, j, t, e)
        decreases Dist(e, j, |buckets|)
      {
        inHand, t := PlaceTurn(j, inHand, t, index, old(pos), e);
        j := Next(j, |buckets|);
      }
      PlacingEnd(home, hs, buckets, pos, old(pos), index, inHand, j, t, e);
      buckets, pos := buckets[j := inHand], pos[inHand.index := j];
    }

    /** Move every index to an array of another size; the values are not touched. */
    method RehashImpl(bucketCount: nat)
      requires Valid() && |values| <= bucketCount <= MAX_COUNT
      modifies this`buckets, this`pos, this`loadThreshold, this`growOnNextInsert
      ensures Valid()
      ensures |buckets| == if bucketCount > 0 then RoundUp(bucketCount) else 0
      ensures |buckets| == old(|buckets|) ==> buckets == old(buckets) && growOnNextInsert == old(growOnNextInsert)
      ensures |buckets| != old(|buckets|) ==> !growOnNextInsert
    {
      var n := if bucketCount > 0 then RoundUp(bucketCount) else 0;
      if n == |buckets| {
        return;
      }
      RoundUpPower(bucketCount);
      var oldBuckets := buckets;
      ghost var was := pos;
      buckets, pos := AllFree(n), AllDead(|values|, n);
      loadThreshold := ThresholdOf(n, maxLoad);
      growOnNextInsert := false;
      if n > 0 {
        FreeIndex(HomeIn(n), Truncated(hash, values), n);
      }
      if |oldBuckets| > 0 {
        Refill(oldBuckets, was);
      }
    }

    /** Take over the indexes of the old bucket array. */
    method Refill(oldBuckets: seq<Slot>, ghost was: seq<nat>)
      requires |values| <= |buckets| && Indexed(hash, values, oldBuckets, was) && AllLive(oldBuckets, was)
      requires |buckets| > 0 ==> Indexed(hash, values, buckets, pos)
      requires pos == AllDead(|values|, |buckets|)
      modifies this`buckets, this`pos
      ensures |buckets| == old(|buckets|)
      ensures |buckets| > 0 ==> Indexed(hash, values, buckets, pos) && AllLive(buckets, pos)
    {
      for k := 0 to |oldBuckets|
        invariant |buckets| == old(|buckets|)
        invariant |buckets| > 0 ==> Indexed(hash, values, buckets, pos)
        invariant RehashedUpTo(|buckets|, pos, was, k)
      {
        if oldBuckets[k].Used? {
          SlotIndexes(hash, values, oldBuckets, was, k);
          ghost var before := pos;
          Reinsert(oldBuckets[k].index, oldBuckets[k].hash);
          RehashedNext(hash, values, oldBuckets, was, |buckets|, before, pos, k);
        } else {
          RehashedSkip(hash, values, oldBuckets, was, |buckets|, pos, k);
        }
      }
      forall v | 0 <= v < |pos|
        ensures Live(buckets, pos, v)
      {
        assert Live(oldBuckets, was, v);
      }
    }

    /** Make room for one more value. */
    method GrowOnHighLoad() returns (grew: bool)
      requires Valid() && (Grows() ==> CanGrow())
      modifies this`buckets, this`pos, this`loadThreshold, this`growOnNextInsert
      ensures Valid() && |values| < |buckets|
      ensures grew == old(Grows())
      ensures |buckets| == if grew then GrownTo(old(|buckets|)) else old(|buckets|)
      ensures !grew ==> buckets == old(buckets) && pos == old(pos)
      ensures !growOnNextInsert
    {
      if Grows() {
        var count := if |buckets| == 0 then 1 else 2 * |buckets|;
        DoubledRounds(|buckets|);
        RehashImpl(count);
        growOnNextInsert := false;
        return true;
      } else {
        return false;
      }
    }

    // -------------------------------------------------------------- insertion

    /** Where a key is, or where its index would go. */
    method SearchForInsert(key: K) returns (found: bool, j: nat, t: nat)
      requires Valid()
      ensures found == HasKey(values, key)
      ensures found ==>
                j < |buckets| && buckets[j].Used? && buckets[j].index < |values| && values[buckets[j].index].0 == key
      ensures !found && |buckets| > 0 ==> Approached(HomeIn(|buckets|), buckets, Truncate(hash(key)), j, t)
    {
      if |buckets| == 0 {
        return false, 0, 0;  // The static empty bucket
      }
      ghost var home, h := HomeIn(|buckets|), Truncate(hash(key));
      TruncatedHome(hash(key), |buckets|);
      j, t := BucketForHash(hash(key), |buckets|), 0;
      while buckets[j].Used? && t <= DistanceFromIdeal(j)
        invariant Approached(home, buckets, h, j, t) && NotPassed(hash, values, buckets, pos, key, t)
        decreases |buckets| - t
      {
        SlotIndexes(hash, values, buckets, pos, j);
        if buckets[j].hash == Truncate(hash(key)) && values[buckets[j].index].0 == key {
          return true, j, t;
        }
        ProbePasses(hash, values, buckets, pos, key, t);
        ApproachNext(home, buckets, h, j, t);
        j := Next(j, |buckets|);
        t := t + 1;
      }
      ProbeAbsent(hash, values, buckets, pos, key, t);
      AllLiveKeys(key);
      return false, j, t;
    }

    /** Shift every index of at least `from` by delta. */
    method ShiftIndexesInBuckets(from: nat, delta: int)
      requires delta == 1 || (delta == -1 && from > 0)
      modifies this`buckets
      ensures buckets == Shifted(old(buckets), from, delta)
    {
      for i := 0 to |buckets|
        invariant |buckets| == old(|buckets|)
        invariant forall k :: 0 <= k < i ==> buckets[k] == ShiftSlot(old(buckets)[k], from, delta)
        invariant forall k :: i <= k < |buckets| ==> buckets[k] == old(buckets)[k]
      {
        if buckets[i].Used? && buckets[i].index >= from {
          buckets := buckets[i := Used(buckets[i].index + delta, buckets[i].hash)];
        }
      }
    }

    /** The part of an insertion that follows an unsuccessful search. */
    method EmplaceAbsent(p: nat, key: K, value: V, j: nat, t: nat) returns (r: InsertResult)
      requires Valid() && p <= |values| && !HasKey(values, key)
      requires |buckets| > 0 ==> Approached(HomeIn(|buckets|), buckets, Truncate(hash(key)), j, t)
      requires Grows() ==> CanGrow()
      modifies this
      ensures Valid() && maxLoad == old(maxLoad)
      ensures r == if old(|values|) >= MAX_SIZE then TooMany else Inserted(p)
      ensures r == TooMany ==> values == old(values) && buckets == old(buckets)
      ensures r == Inserted(p) ==> values == InsertAt(old(values), p, (key, value))
      ensures |buckets| == if r.Inserted? && old(Grows()) then GrownTo(old(|buckets|)) else old(|buckets|)
    {
      if |values| >= MAX_SIZE {
        return TooMany;
      }
      var j', t' := j, t;
      var grew := GrowOnHighLoad();
      if grew {
        TruncatedHome(hash(key), |buckets|);
        j', t' := BucketForHash(hash(key), |buckets|), 0;
      }
      PlaceAbsent(p, key, value, j', t');
      return Inserted(p);
    }

    /** Add a value with room for it, from the bucket that the search reached. */
    method PlaceAbsent(p: nat, key: K, value: V, j: nat, t: nat)
      requires Valid() && p <= |values| && !HasKey(values, key) && |values| < |buckets|
      requires Approached(HomeIn(|buckets|), buckets, Truncate(hash(key)), j, t)
      modifies this
      ensures Valid() && maxLoad == old(maxLoad)
      ensures values == InsertAt(old(values), p, (key, value)) && |buckets| == old(|buckets|)
    {
      InsertAtDistinct(values, p, (key, value));
      ApproachedCarries(hash, values, buckets, pos, p, (key, value), j, t);
      ShiftedBeyond(HomeIn(|buckets|), Truncated(hash, values), buckets, pos);
      ghost var pos' := InsertAt(pos, p, |buckets|);
      ghost var bs, was := buckets, pos;
      values := InsertAt(values, p, (key, value));
      if p != |values| - 1 {
        ShiftIndexesInBuckets(p, 1);
      }
      pos := pos';
      InsertIndex(j, t, p, Truncate(hash(key)));
      InsertedAllLive(buckets, pos, bs, was, p);
    }

    /** insert(): a new key appends its value, and the index gains it. */
    method Insert(key: K, value: V) returns (r: InsertResult)
      requires Valid() && (Grows() ==> CanGrow())
      modifies this
      ensures Valid() && maxLoad == old(maxLoad)
      ensures old(HasKey(values, key)) ==>
                r.Present? && values == old(values) && r.at < |values| && values[r.at].0 == key
      ensures !old(HasKey(values, key)) ==>
                if old(|values|) >= MAX_SIZE then r == TooMany && values == old(values)
                else r == Inserted(old(|values|)) && values == old(values) + [(key, value)]
      ensures |buckets| == if r.Inserted? && old(Grows()) then GrownTo(old(|buckets|)) else old(|buckets|)
    {
      r := InsertAtPosition(|values|, key, value);
    }

    /** Insert the element before position p. */
    method InsertAtPosition(p: nat, key: K, value: V) returns (r: InsertResult)
      requires Valid() && p <= |values| && (Grows() ==> CanGrow())
      modifies this
      ensures Valid() && maxLoad == old(maxLoad)
      ensures old(HasKey(values, key)) ==>
                r.Present? && values == old(values) && r.at < |values| && values[r.at].0 == key
      ensures !old(HasKey(values, key)) ==>
                if old(|values|) >= MAX_SIZE then r == TooMany && values == old(values)
                else r == Inserted(p) && values == old(values)[..p] + [(key, value)] + old(values)[p..]
      ensures |buckets| == if r.Inserted? && old(Grows()) then GrownTo(old(|buckets|)) else old(|buckets|)
    {
      var found, j, t := SearchForInsert(key);
      if found {
        return Present(buckets[j].index);
      }
      r := EmplaceAbsent(p, key, value, j, t);
    }

    // -------------------------------------------------------------- removal

    /** Close the gap at free bucket b. */
    method BackwardShift(b: nat)
      requires PowerUpTo32(|buckets|) && Linked(HomeIn(|buckets|), Truncated(hash, values), buckets, pos)
      requires OrderedAround(HomeIn(|buckets|), buckets, b)
      modifies this`buckets, this`pos
      ensures |buckets| == old(|buckets|) && Indexed(hash, values, buckets, pos)
      ensures SameLive(|buckets|, pos, old(pos))
    {
      ghost var home, hs := HomeIn(|buckets|), Truncated(hash, values);
      var previous: nat := b;
      var current: nat := Next(previous, |buckets|);
      while buckets[current].Used? && DistanceFromIdeal(current) > 0
        invariant |buckets| == old(|buckets|) && previous < |buckets| && current == Next(previous, |buckets|)
        invariant Linked(home, hs, buckets, pos) && OrderedAround(home, buckets, previous)
        invariant SameLive(|buckets|, pos, old(pos))
        decreases TotalDist(home, buckets, |buckets|)
      {
        ShiftLowersTotal(home, buckets, previous);
        ShiftOrdered(home, buckets, previous);
        ShiftLinked(home, hs, buckets, pos, previous);
        SoundLive(hs, buckets, pos, current);
        ghost var pos' := pos[buckets[current].index := previous];
        buckets := buckets[previous := buckets[current]][current := buckets[previous]];
        pos := pos';
        previous, current := current, Next(current, |buckets|);
      }
      ShiftEnd(home, buckets, previous);
    }

    /** Erase the value of bucket b; every later value moves up. */
    method EraseValueFromBucket(b: nat)
      requires Valid() && b < |buckets| && buckets[b].Used? && buckets[b].index < |values|
      modifies this`values, this`buckets, this`pos
      ensures Valid() && |buckets| == old(|buckets|)
      ensures values == RemoveAt(old(values), old(buckets[b].index))
    {
      ghost var vs, bs, v := values, buckets, buckets[b].index;
      Erased(hash, vs, bs, pos, b);
      RemoveAtDistinct(vs, v);
      ghost var pos' := RemoveAt(pos, v);
      values := RemoveAt(values, buckets[b].index);
      if buckets[b].index != |values| {
        ShiftIndexesInBuckets(buckets[b].index + 1, -1);
      }
      buckets, pos := buckets[b := Free], pos';
      assert buckets == ErasedSlots(bs, b, |vs|);
      ghost var bs' := buckets;
      BackwardShift(b);
      SameAllLive(buckets, pos, bs', pos');
    }

    /** Erase a key; the order of the others stays. */
    method EraseKey(key: K) returns (count: nat)
      requires Valid()
      modifies this`values, this`buckets, this`pos
      ensures Valid() && |buckets| == old(|buckets|)
      ensures count == if old(HasKey(values, key)) then 1 else 0
      ensures count == 0 ==> values == old(values)
      ensures count == 1 ==>
                exists v :: 0 <= v < old(|values|) && old(values[v].0) == key && values == RemoveAt(old(values), v)
    {
      var b := FindKey(key);
      if b == |buckets| {
        AllLiveKeys(key);
        return 0;
      }
      EraseValueFromBucket(b);
      return 1;
    }

    /** Erase the value at an iterator. */
    method EraseAt(v: nat)
      requires Valid() && v < |values|
      modifies this`values, this`buckets, this`pos
      ensures Valid() && |buckets| == old(|buckets|)
      ensures values == RemoveAt(old(values), v)
    {
      assert Live(buckets, pos, v);
      var b := FindKey(values[v].0);
      EraseValueFromBucket(b);
    }

    /** Erase a key in the place of the last value. */
    method UnorderedErase(key: K) returns (count: nat)
      requires Valid()
      modifies this`values, this`buckets, this`pos
      ensures Valid() && |buckets| == old(|buckets|)
      ensures count == if old(HasKey(values, key)) then 1 else 0
      ensures count == 0 ==> values == old(values)
      ensures count == 1 ==>
                exists v :: 0 <= v < old(|values|) && old(values[v].0) == key && values == SwapRemove(old(values), v)
    {
      var b := FindKey(key);
      if b == |buckets| {
        AllLiveKeys(key);
        return 0;
      }
      ghost var v := buckets[b].index;
      var last := |values| - 1;
      if key != values[last].0 {
        assert Live(buckets, pos, last);
        var bl := FindKey(values[last].0);
        Traded(hash, values, buckets, pos, v, last);
        ghost var pos' := pos[v := pos[last]][last := pos[v]];
        values := values[buckets[b].index := values[buckets[bl].index]][buckets[bl].index := values[buckets[b].index]];
        var one, other := Used(buckets[bl].index, buckets[b].hash), Used(buckets[b].index, buckets[bl].hash);
        buckets := buckets[b := one][bl := other];
        pos := pos';
      }
      EraseValueFromBucket(b);
      return 1;
    }

    /** Clear a bucket without touching the values. */
    method ClearBucket(b: nat)
      requires Indexed(hash, values, buckets, pos) && b < |buckets| && buckets[b].Used?
      modifies this`buckets, this`pos
      ensures |buckets| == old(|buckets|) && Indexed(hash, values, buckets, pos)
      ensures old(buckets[b].index) < |pos| && SameLive(|buckets|, pos, old(pos[buckets[b].index := |buckets|]))
    {
      ClearLinked(HomeIn(|buckets|), Truncated(hash, values), buckets, pos, b);
      ClearOrdered(HomeIn(|buckets|), buckets, b);
      ghost var pos' := pos[buckets[b].index := |buckets|];
      buckets, pos := buckets[b := Free], pos';
      BackwardShift(b);
    }

    /** The bucket of the value at `it`, in the middle of a compaction. */
    method BucketOf(it: nat, ghost orig: seq<(K, V)>, ghost keep: ((K, V)) -> bool, ghost first: nat) returns (b: nat)
      requires Indexed(hash, values, buckets, pos) && it < |values| && Distinct(orig)
      requires Compacted(orig, values, keep, first, it) && LiveOutside(|buckets|, pos, first, it)
      ensures b < |buckets| && buckets[b].Used? && buckets[b].index == it && pos[it] == b
    {
      assert Live(buckets, pos, it);
      CompactedApart(orig, values, keep, first, it);
      assert values[it] == values[it..][0] == orig[it];
      b := FindKey(values[it].0);
    }

    /** One value is dropped, or moved down to the first slot left behind. */
    method CompactTurn(pred: ((K, V)) -> bool, it: nat, first: nat, ghost orig: seq<(K, V)>,
                       ghost keep: ((K, V)) -> bool)
      returns (first': nat)
      requires Indexed(hash, values, buckets, pos) && first < it < |values| && Distinct(orig)
      requires Compacted(orig, values, keep, first, it) && LiveOutside(|buckets|, pos, first, it)
      requires keep(values[it]) == !pred(values[it])
      modifies this`values, this`buckets, this`pos
      ensures Indexed(hash, values, buckets, pos) && |buckets| == old(|buckets|)
      ensures first' <= it
      ensures Compacted(orig, values, keep, first', it + 1) && LiveOutside(|buckets|, pos, first', it + 1)
    {
      var b := BucketOf(it, orig, keep, first);
      if pred(values[it]) {
        CompactedDrop(orig, values, keep, first, it);
        ClearBucket(b);
        return first;
      } else {
        CompactedKeep(orig, values, keep, first, it);
        MovedDown(hash, values, buckets, pos, it, first);
        ghost var pos' := pos[first := b][it := |buckets|];
        buckets := buckets[b := Used(first, buckets[b].hash)];
        values := values[first := values[it]];
        pos := pos';
        return first + 1;
      }
    }

    /** The first value that the predicate matches, or the number of values. */
    method FindFirst(pred: ((K, V)) -> bool, ghost keep: ((K, V)) -> bool) returns (first: nat)
      requires Distinct(values) && forall x :: keep(x) == !pred(x)
      ensures first <= |values| && Compacted(values, values, keep, first, first)
      ensures first < |values| ==> pred(values[first])
      ensures first == |values| ==> values == Filter(values, keep)
    {
      first := 0;
      while first < |values| && !pred(values[first])
        invariant first <= |values| && Compacted(values, values, keep, first, first)
      {
        CompactedKeep(values, values, keep, first, first);
        assert values[first := values[first]] == values;
        first := first + 1;
      }
      if first == |values| {
        assert values[..first] + Filter(values[first..], keep) == values;
      }
    }

    /** Cut off the slots left behind. */
    method DropTail(first: nat)
      requires Sized() && |values| <= |buckets| && first <= |values| && Distinct(values[..first])
      requires Indexed(hash, values, buckets, pos) && LiveOutside(|buckets|, pos, first, |values|)
      modifies this`values, this`pos
      ensures Valid() && values == old(values)[..first]
    {
      Cut(hash, values, buckets, pos, first);
      values, pos := values[..first], pos[..first];
    }

    /** Remove every value that the predicate matches; the order of the others stays. */
    method EraseIf(pred: ((K, V)) -> bool) returns (deleted: nat)
      requires Valid()
      modifies this`values, this`buckets, this`pos
      ensures Valid() && |buckets| == old(|buckets|)
      ensures values == Filter(old(values), x => !pred(x))
      ensures deleted == old(|values|) - |values|
    {
      ghost var orig, keep := values, (x: (K, V)) => !pred(x);
      var first: nat := FindFirst(pred, keep);
      if first == |values| {
        return 0;
      }
      AllLiveOutside(buckets, pos, first);
      var b := BucketOf(first, orig, keep, first);
      ClearBucket(b);
      CompactedDrop(orig, values, keep, first, first);
      deleted := CompactAfter(pred, first, orig, keep);
    }

    /** The pass over the values behind the first one that the predicate matches. */
    method CompactAfter(pred: ((K, V)) -> bool, start: nat, ghost orig: seq<(K, V)>, ghost keep: ((K, V)) -> bool)
      returns (deleted: nat)
      requires Sized() && |values| <= |buckets| && start < |values| && Distinct(orig) && forall x :: keep(x) == !pred(x)
      requires Indexed(hash, values, buckets, pos)
      requires Compacted(orig, values, keep, start, start + 1) && LiveOutside(|buckets|, pos, start, start + 1)
      modifies this`values, this`buckets, this`pos
      ensures Valid() && |buckets| == old(|buckets|)
      ensures values == Filter(orig, keep) && deleted == old(|values|) - |values|
    {
      var first: nat, it: nat := start, start + 1;
      while it < |values|
        invariant first < it <= |values| && Indexed(hash, values, buckets, pos) && |buckets| == old(|buckets|)
        invariant Compacted(orig, values, keep, first, it) && LiveOutside(|buckets|, pos, first, it)
      {
        first := CompactTurn(pred, it, first, orig, keep);
        it := it + 1;
      }
      deleted := |values| - first;
      assert values[..first] + Filter(orig[|orig|..], keep) == values[..first];
      DropTail(first);
    }

    // -------------------------------------------------------------- size of the bucket array

    /** Use at least `count` buckets, and no fewer than the load factor allows. */
    method Rehash(count: nat)
      requires Valid() && count <= MAX_COUNT && Needed(|values|, maxLoad) <= MAX_COUNT
      modifies this`buckets, this`pos, this`loadThreshold, this`growOnNextInsert
      ensures Valid() && count <= |buckets| && |values| <= loadThreshold
    {
      var count' := if count < Needed(|values|, maxLoad) then Needed(|values|, maxLoad) else count;
      RehashImpl(count');
      ThresholdHolds(|values|, |buckets|, maxLoad);
    }

    /** After reserve(count) the table holds `count` values before it grows on high load. */
    method Reserve(count: nat)
      requires Valid() && Needed(count, maxLoad) <= MAX_COUNT && Needed(|values|, maxLoad) <= MAX_COUNT
      modifies this`buckets, this`pos, this`loadThreshold, this`growOnNextInsert
      ensures Valid() && count <= loadThreshold
    {
      Rehash(Needed(count, maxLoad));
      ThresholdHolds(count, |buckets|, maxLoad);
    }

    method Clear()
      requires Valid()
      modifies this`values, this`buckets, this`pos, this`growOnNextInsert
      ensures Valid() && values == [] && |buckets| == old(|buckets|) && !growOnNextInsert
    {
      for i := 0 to |buckets|
        invariant |buckets| == old(|buckets|) && forall k :: 0 <= k < i ==> buckets[k] == Free
      {
        buckets := buckets[i := Free];
      }
      values, pos := [], [];
      growOnNextInsert := false;
      assert buckets == AllFree(|buckets|) && AllDead(0, |buckets|) == [];
      if |buckets| > 0 {
        FreeIndex(HomeIn(|buckets|), [], |buckets|);
        assert Truncated(hash, values) == [];
      }
    }
  }

  /** Every valid table with a load factor of at least one half passes the assertion when it grows. */
  lemma TableAsserts<K(!new), V>(t: OrderedHash<K, V>)
    requires t.Valid() && t.maxLoad >= 0.5
    ensures GrowthAsserts(|t.values|, |t.buckets|, t.maxLoad)
  {
    HalfLoadAsserts(|t.values|, |t.buckets|, t.maxLoad);
  }

  /**
   * One insertion into a new table at a load factor below one half leaves a full table that grows with the next key,
   * and the assertion fails there.
   */
  method FailingTable<K(!new, ==), V>(hash: K -> Hash, load: real, key: K, value: V) returns (t: OrderedHash<K, V>)
    requires 0.0 < load < 0.5
    ensures fresh(t) && t.Valid() && t.maxLoad == load && t.values == [(key, value)]
    ensures t.Grows() && !GrowthAsserts(|t.values|, |t.buckets|, load)
  {
    t := new OrderedHash(hash, load);
    var r := t.Insert(key, value);
    FullTableFails(1, load);
    HalfOfOne(load);
  }

  lemma HalfOfOne(load: real)
    requires 0.0 < load < 1.0
    ensures ThresholdOf(1, load) == 0
  {
  }
}
