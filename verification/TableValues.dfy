/** Values, keys and sizes that both hash tables share. */
module TableValues {
  import opened Naturals

  function Pow2(e: nat): (p: nat)
    ensures p > 0
  {
    if e == 0 then 1 else 2 * Pow2(e - 1)
  }

  lemma {:induction false} Pow2Add(a: nat, b: nat)
    ensures Pow2(a + b) == Pow2(a) * Pow2(b)
  {
    if b == 0 {
    } else {
      Pow2Add(a, b - 1);
      assert Pow2(a + b) == 2 * Pow2(a + b - 1);
      assert Pow2(a) * (2 * Pow2(b - 1)) == 2 * (Pow2(a) * Pow2(b - 1));
    }
  }

  lemma Pow2Sixteen()
    ensures Pow2(16) == 0x1_0000
  {
    assert Pow2(4) == 16;
    assert Pow2(8) == 256;
    assert Pow2(12) == 4096;
  }

  lemma Pow2SixtyFour()
    ensures Pow2(64) == 0x1_0000_0000_0000_0000
  {
    Pow2Sixteen();
    Pow2Add(16, 16);
    Pow2Add(32, 32);
  }

  lemma ProductMonotone(a: nat, b: nat, c: nat)
    requires b <= c
    ensures a * b <= a * c
  {
    assert a * (c - b) >= 0;
  }

  lemma QuotientBelow(a: nat, b: nat, c: nat)
    requires c > 0 && a < b * c
    ensures Quotient(a, c) < b
  {
    var q := Quotient(a, c);
    assert c * q <= a;
    if q >= b {
      ProductMonotone(c, b, q);
    }
  }

  /** How many values n buckets hold before they are doubled. */
  function CapacityOf(n: nat, load: real): (c: nat)
    requires n > 0 && 0.0 < load < 1.0
    ensures c < n
  {
    CapacityBelow(n, load);
    (n as real * load).Floor
  }

  lemma CapacityBelow(n: nat, load: real)
    requires n > 0 && 0.0 < load < 1.0
    ensures 0 <= (n as real * load).Floor < n
  {
    assert 0.0 < n as real * load < n as real;
  }

  lemma {:induction false} Pow2Grows(a: nat, b: nat)
    requires a <= b
    ensures Pow2(a) <= Pow2(b)
  {
    if a < b {
      Pow2Grows(a, b - 1);
    }
  }

  lemma CapacityGrows(a: nat, b: nat, load: real)
    requires 0 < a <= b && 0.0 < load < 1.0
    ensures CapacityOf(a, load) <= CapacityOf(b, load)
  {
    assert (b as real - a as real) * load >= 0.0;
  }

  ghost predicate Distinct<K, V>(values: seq<(K, V)>) {
    forall i, j :: 0 <= i < j < |values| ==> values[i].0 != values[j].0
  }

  ghost predicate HasKey<K, V>(values: seq<(K, V)>, key: K) {
    exists v :: 0 <= v < |values| && values[v].0 == key
  }

  /** Without the value at v, filled by the last one. */
  function SwapRemove<T>(values: seq<T>, v: nat): (rest: seq<T>)
    requires v < |values|
    ensures |rest| == |values| - 1
  {
    var last := |values| - 1;
    if v == last then values[..last] else values[v := values[last]][..last]
  }

  lemma SwapRemoveDistinct<K, V>(values: seq<(K, V)>, v: nat)
    requires v < |values| && Distinct(values)
    ensures Distinct(SwapRemove(values, v))
  {
  }

  // ---------------------------------------------------------------- the map a table stands for

  ghost function Contents<K(!new), V>(values: seq<(K, V)>): (m: map<K, V>)
    requires Distinct(values)
    ensures forall v :: 0 <= v < |values| ==> values[v].0 in m && m[values[v].0] == values[v].1
    ensures forall key :: key in m <==> HasKey(values, key)
  {
    map v | 0 <= v < |values| :: values[v].0 := values[v].1
  }

  lemma AppendDistinct<K, V>(values: seq<(K, V)>, key: K, value: V)
    requires Distinct(values) && !HasKey(values, key)
    ensures Distinct(values + [(key, value)])
  {
    var after := values + [(key, value)];
    forall i, j | 0 <= i < j < |after|
      ensures after[i].0 != after[j].0
    {
      assert values[i].0 != key;
    }
  }

  lemma AppendContents<K(!new), V>(values: seq<(K, V)>, key: K, value: V)
    requires Distinct(values) && !HasKey(values, key)
    ensures Distinct(values + [(key, value)])
    ensures Contents(values + [(key, value)]) == Contents(values)[key := value]
  {
    var after := values + [(key, value)];
    AppendDistinct(values, key, value);
    forall k
      ensures k in Contents(after) <==> k in Contents(values)[key := value]
    {
      if HasKey(values, k) {
        var v :| 0 <= v < |values| && values[v].0 == k;
        assert after[v].0 == k;
      }
      assert after[|values|].0 == key;
    }
    forall k | k in Contents(after)
      ensures Contents(after)[k] == Contents(values)[key := value][k]
    {
      var v :| 0 <= v < |after| && after[v].0 == k;
    }
  }

  lemma SwapRemoveKey<K, V>(values: seq<(K, V)>, r: nat, k: K)
    requires Distinct(values) && r < |values|
    ensures HasKey(SwapRemove(values, r), k) <==> HasKey(values, k) && k != values[r].0
  {
    var after, last := SwapRemove(values, r), |values| - 1;
    if HasKey(values, k) && k != values[r].0 {
      var v :| 0 <= v < |values| && values[v].0 == k;
      assert after[if v == last then r else v].0 == k;
    }
    if HasKey(after, k) {
      var v :| 0 <= v < last && after[v].0 == k;
      assert values[if v == r then last else v].0 == k;
    }
  }

  lemma SwapRemoveContents<K(!new), V>(values: seq<(K, V)>, r: nat)
    requires Distinct(values) && r < |values|
    ensures Distinct(SwapRemove(values, r))
    ensures Contents(SwapRemove(values, r)) == Contents(values) - {values[r].0}
  {
    hide Contents, HasKey;
    SwapRemoveDistinct(values, r);
    forall k
      ensures HasKey(SwapRemove(values, r), k) <==> HasKey(values, k) && k != values[r].0
    {
      SwapRemoveKey(values, r, k);
    }
    ContentsAre(SwapRemove(values, r), Contents(values) - {values[r].0});
  }

  lemma ContentsAre<K(!new), V>(values: seq<(K, V)>, m: map<K, V>)
    requires Distinct(values) && forall k :: k in m <==> HasKey(values, k)
    requires forall v :: 0 <= v < |values| && values[v].0 in m ==> m[values[v].0] == values[v].1
    ensures Contents(values) == m
  {
    hide Contents;
    forall k | k in m
      ensures Contents(values)[k] == m[k]
    {
      var v :| 0 <= v < |values| && values[v].0 == k;
    }
  }

  // ---------------------------------------------------------------- bulk removal on plain sequences

  ghost function Filter<T>(s: seq<T>, keep: T -> bool): seq<T> {
    if s == [] then [] else (if keep(s[0]) then [s[0]] else []) + Filter(s[1..], keep)
  }

  lemma FilterFront<T>(s: seq<T>, keep: T -> bool, i: nat)
    requires i < |s|
    ensures Filter(s[i..], keep) == (if keep(s[i]) then [s[i]] else []) + Filter(s[i + 1..], keep)
  {
    assert s[i..][1..] == s[i + 1..];
  }

  lemma ShorterPrefix<T>(a: seq<T>, b: seq<T>, i: nat)
    requires i < |a| && i < |b| && a[..i + 1] == b[..i + 1]
    ensures a[i] == b[i] && a[..i] == b[..i]
  {
    assert a[i] == a[..i + 1][i] && b[i] == b[..i + 1][i];
    assert a[..i] == a[..i + 1][..i] && b[..i] == b[..i + 1][..i];
  }

  lemma SwapRemoveTail<T>(values: seq<T>, r: nat, from: nat)
    requires from <= r < |values|
    ensures SwapRemove(values, r)[..from] == values[..from]
    ensures multiset(SwapRemove(values, r)[from..]) == multiset(values[from..]) - multiset{values[r]}
  {
    if r == |values| - 1 {
      assert values[from..] == SwapRemove(values, r)[from..] + [values[r]];
    } else {
      SwapRemoveInside(values, r, from);
    }
  }

  lemma SwapRemoveInside<T>(values: seq<T>, r: nat, from: nat)
    requires from <= r < |values| - 1
    ensures multiset(SwapRemove(values, r)[from..]) == multiset(values[from..]) - multiset{values[r]}
  {
    var last := |values| - 1;
    var a, b := values[from..r], values[r + 1..last];
    assert values[from..] == a + [values[r]] + b + [values[last]];
    assert SwapRemove(values, r)[from..] == a + [values[last]] + b;
    MultisetSwap(a, values[r], b, values[last]);
  }

  lemma MultisetSwap<T>(a: seq<T>, x: T, b: seq<T>, y: T)
    ensures multiset(a + [y] + b) == multiset(a + [x] + b + [y]) - multiset{x}
  {
  }
}
