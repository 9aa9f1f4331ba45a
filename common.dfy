/** Shared vocabulary of the model: optional values, pass/fail outcomes,
    sums over sequences, and the insertion-ordered dictionaries that the
    Python services accumulate into (a `dict`/`defaultdict`/`Counter` keeps
    its keys in first-insertion order). */
module Common {

  datatype Option<T> = None | Some(value: T)

  /** The outcome of a validator that either returns or raises with a message. */
  datatype Outcome<E> = Pass | Fail(error: E)

  /** Sum of a sequence of amounts, folded from the left as a loop would. */
  function Sum(s: seq<real>): real
    decreases |s|
  {
    if s == [] then 0.0 else Sum(s[..|s| - 1]) + s[|s| - 1]
  }

  lemma {:induction false} SumAppend(a: seq<real>, b: seq<real>)
    ensures Sum(a + b) == Sum(a) + Sum(b)
    decreases |b|
  {
    if b == [] {
      assert a + b == a;
    } else {
      assert (a + b)[..|a + b| - 1] == a + b[..|b| - 1];
      SumAppend(a, b[..|b| - 1]);
    }
  }

  /** Keys of an association list, in order. */
  function KeysOf<K, V>(s: seq<(K, V)>): (r: seq<K>)
    ensures |r| == |s| && forall i | 0 <= i < |s| :: r[i] == s[i].0
  {
    seq(|s|, i requires 0 <= i < |s| => s[i].0)
  }

  /** Values of an association list, in order. */
  function ValuesOf<K, V>(s: seq<(K, V)>): (r: seq<V>)
    ensures |r| == |s| && forall i | 0 <= i < |s| :: r[i] == s[i].1
  {
    seq(|s|, i requires 0 <= i < |s| => s[i].1)
  }

  predicate Distinct<K(==)>(s: seq<K>)
  {
    forall i, j | 0 <= i < j < |s| :: s[i] != s[j]
  }

  /** An association list read as a dictionary: no key twice. */
  predicate DistinctKeys<K(==), V>(s: seq<(K, V)>)
  {
    forall i, j | 0 <= i < j < |s| :: s[i].0 != s[j].0
  }

  /** `d[k]` of a dictionary given as an association list (first entry wins). */
  function Lookup<K(==), V>(s: seq<(K, V)>, k: K): (r: Option<V>)
    ensures r.None? <==> forall i | 0 <= i < |s| :: s[i].0 != k
    ensures r.Some? ==> exists i | 0 <= i < |s| :: s[i] == (k, r.value)
  {
    if s == [] then None
    else if s[0].0 == k then Some(s[0].1)
    else Lookup(s[1..], k)
  }

  /** A value-typed insertion-ordered dictionary: `keys` lists the keys in the
      order they were first inserted, `vals` holds the current values. */
  datatype ODict<K(==), V> = ODict(keys: seq<K>, vals: map<K, V>)
  {
    ghost predicate Valid()
    {
      && Distinct(keys)
      && (forall k | k in vals :: k in keys)
      && (forall i | 0 <= i < |keys| :: keys[i] in vals)
    }

    /** `d.get(k, default)` */
    function Get(k: K, default: V): V
    {
      if k in vals then vals[k] else default
    }

    /** `d[k] = v`: an existing key keeps its position, a new key goes last. */
    function Put(k: K, v: V): (d: ODict<K, V>)
      requires Valid()
      ensures d.Valid()
      ensures d.vals == vals[k := v]
      ensures d.keys == if k in vals then keys else keys + [k]
    {
      if k in vals then ODict(keys, vals[k := v]) else ODict(keys + [k], vals[k := v])
    }

    /** `d.items()` as a list of pairs. */
    function Items(): (r: seq<(K, V)>)
      requires Valid()
      ensures |r| == |keys| && DistinctKeys(r)
      ensures forall i | 0 <= i < |r| :: r[i] == (keys[i], vals[keys[i]])
      ensures KeySetOf(r) == vals.Keys
    {
      var r := Pairs(keys, vals);
      assert forall k | k in vals :: k in KeySetOf(r) by {
        forall k | k in vals ensures k in KeySetOf(r) {
          var i :| 0 <= i < |keys| && keys[i] == k;
          assert r[i].0 == k;
        }
      }
      r
    }
  }

  function EmptyDict<K(==), V>(): (d: ODict<K, V>)
    ensures d.Valid() && d.keys == [] && d.vals == map[]
  {
    ODict([], map[])
  }

  /** The keys `key(x)` take over the elements of `s`. */
  function KeySet<T, K(==)>(s: seq<T>, key: T -> K): set<K>
    decreases |s|
  {
    if s == [] then {} else KeySet(s[..|s| - 1], key) + {key(s[|s| - 1])}
  }

  /** Sum of `w(x)` over the elements `x` of `s` with `key(x) == k`. */
  function KeySum<T, K(==)>(s: seq<T>, key: T -> K, k: K, w: T -> real): real
    decreases |s|
  {
    if s == [] then 0.0
    else KeySum(s[..|s| - 1], key, k, w) + (if key(s[|s| - 1]) == k then w(s[|s| - 1]) else 0.0)
  }

  /** Number of elements `x` of `s` with `key(x) == k`. */
  function KeyCount<T, K(==)>(s: seq<T>, key: T -> K, k: K): nat
    decreases |s|
  {
    if s == [] then 0
    else KeyCount(s[..|s| - 1], key, k) + (if key(s[|s| - 1]) == k then 1 else 0)
  }

  /** The elements of `s` with `key(x) == k`, in their original order. */
  function KeyFilter<T, K(==)>(s: seq<T>, key: T -> K, k: K): seq<T>
    decreases |s|
  {
    if s == [] then []
    else KeyFilter(s[..|s| - 1], key, k) + (if key(s[|s| - 1]) == k then [s[|s| - 1]] else [])
  }

  lemma KeySetSnoc<T, K>(s: seq<T>, key: T -> K, x: T)
    ensures KeySet(s + [x], key) == KeySet(s, key) + {key(x)}
  {
    assert (s + [x])[..|s|] == s;
  }

  lemma KeySumSnoc<T, K>(s: seq<T>, key: T -> K, k: K, w: T -> real, x: T)
    ensures KeySum(s + [x], key, k, w) == KeySum(s, key, k, w) + (if key(x) == k then w(x) else 0.0)
  {
    assert (s + [x])[..|s|] == s;
  }

  lemma KeyCountSnoc<T, K>(s: seq<T>, key: T -> K, k: K, x: T)
    ensures KeyCount(s + [x], key, k) == KeyCount(s, key, k) + (if key(x) == k then 1 else 0)
  {
    assert (s + [x])[..|s|] == s;
  }

  lemma KeyFilterSnoc<T, K>(s: seq<T>, key: T -> K, k: K, x: T)
    ensures KeyFilter(s + [x], key, k) == KeyFilter(s, key, k) + (if key(x) == k then [x] else [])
  {
    assert (s + [x])[..|s|] == s;
  }

  /** A key that no element carries contributes nothing. */
  lemma {:induction false} KeySumAbsent<T, K>(s: seq<T>, key: T -> K, k: K, w: T -> real)
    requires k !in KeySet(s, key)
    ensures KeySum(s, key, k, w) == 0.0
    decreases |s|
  {
    if s != [] {
      KeySumAbsent(s[..|s| - 1], key, k, w);
    }
  }

  lemma {:induction false} KeyCountAbsent<T, K>(s: seq<T>, key: T -> K, k: K)
    requires k !in KeySet(s, key)
    ensures KeyCount(s, key, k) == 0
    decreases |s|
  {
    if s != [] {
      KeyCountAbsent(s[..|s| - 1], key, k);
    }
  }

  /** A dictionary that maps each key occurring in `s` to the sum of `w` over
      the elements with that key, read through `proj`. */
  ghost predicate SumsByKey<T, K, V>(m: map<K, V>, s: seq<T>, key: T -> K, w: T -> real, proj: V -> real)
  {
    && m.Keys == KeySet(s, key)
    && forall k | k in m :: proj(m[k]) == KeySum(s, key, k, w)
  }

  /** `d[key(x)] = d.get(key(x), 0) + w(x)` keeps `SumsByKey` for one more element. */
  lemma SumsByKeyStep<T, K, V>(m: map<K, V>, s: seq<T>, key: T -> K, w: T -> real, proj: V -> real, x: T, v: V)
    requires SumsByKey(m, s, key, w, proj)
    requires proj(v) == (if key(x) in m then proj(m[key(x)]) else 0.0) + w(x)
    ensures SumsByKey(m[key(x) := v], s + [x], key, w, proj)
  {
    KeySetSnoc(s, key, x);
    var m' := m[key(x) := v];
    forall k | k in m' ensures proj(m'[k]) == KeySum(s + [x], key, k, w) {
      KeySumSnoc(s, key, k, w, x);
      if k == key(x) && k !in m {
        KeySumAbsent(s, key, k, w);
      }
    }
  }

  /** A dictionary that maps each key occurring in `s` to its number of occurrences. */
  ghost predicate CountsByKey<T, K>(m: map<K, int>, s: seq<T>, key: T -> K)
  {
    && m.Keys == KeySet(s, key)
    && forall k | k in m :: m[k] == KeyCount(s, key, k) >= 1
  }

  /** `d[key(x)] = d.get(key(x), 0) + 1` keeps `CountsByKey` for one more element. */
  lemma CountsByKeyStep<T, K>(m: map<K, int>, s: seq<T>, key: T -> K, x: T)
    requires CountsByKey(m, s, key)
    ensures CountsByKey(m[key(x) := (if key(x) in m then m[key(x)] else 0) + 1], s + [x], key)
  {
    KeySetSnoc(s, key, x);
    var m' := m[key(x) := (if key(x) in m then m[key(x)] else 0) + 1];
    forall k | k in m' ensures m'[k] == KeyCount(s + [x], key, k) >= 1 {
      KeyCountSnoc(s, key, k, x);
      if k == key(x) && k !in m {
        KeyCountAbsent(s, key, k);
      }
    }
  }

  /** Sum of `w(x)` over all elements. */
  function TotalBy<T>(s: seq<T>, w: T -> real): real
    decreases |s|
  {
    if s == [] then 0.0 else TotalBy(s[..|s| - 1], w) + w(s[|s| - 1])
  }

  lemma {:induction false} TotalByAppend<T>(a: seq<T>, b: seq<T>, w: T -> real)
    ensures TotalBy(a + b, w) == TotalBy(a, w) + TotalBy(b, w)
    decreases |b|
  {
    if b == [] {
      assert a + b == a;
    } else {
      assert (a + b)[..|a + b| - 1] == a + b[..|b| - 1];
      TotalByAppend(a, b[..|b| - 1], w);
    }
  }

  /** A sum does not depend on the order of its terms. */
  lemma {:induction false} TotalByPermutation<T>(a: seq<T>, b: seq<T>, w: T -> real)
    requires multiset(a) == multiset(b)
    ensures TotalBy(a, w) == TotalBy(b, w)
    decreases |a|
  {
    if a == [] {
      assert |b| == |multiset(b)| == 0;
    } else {
      var x := a[|a| - 1];
      assert a == a[..|a| - 1] + [x];
      assert x in multiset(b);
      var p :| 0 <= p < |b| && b[p] == x;
      assert b == b[..p] + [x] + b[p + 1..];
      var b' := b[..p] + b[p + 1..];
      assert multiset(b') == multiset(b) - multiset{x};
      assert multiset(a[..|a| - 1]) == multiset(a) - multiset{x};
      TotalByPermutation(a[..|a| - 1], b', w);
      TotalByAppend(b[..p] + [x], b[p + 1..], w);
      TotalByAppend(b[..p], [x], w);
      TotalByAppend(b[..p], b[p + 1..], w);
      assert TotalBy([x], w) == w(x) by {
        assert [x][..0] == [];
      }
    }
  }

  /** The set of keys of an association list. */
  function KeySetOf<K, V>(s: seq<(K, V)>): set<K>
  {
    set i | 0 <= i < |s| :: s[i].0
  }

  /** The entries `(k, m[k])` for the listed keys, in order. */
  function Pairs<K, V>(keys: seq<K>, m: map<K, V>): (r: seq<(K, V)>)
    requires forall i | 0 <= i < |keys| :: keys[i] in m
    ensures |r| == |keys| && forall i | 0 <= i < |r| :: r[i] == (keys[i], m[keys[i]])
  {
    seq(|keys|, i requires 0 <= i < |keys| => (keys[i], m[keys[i]]))
  }

  /** Sum of `w(m[k])` over the listed keys `k`. */
  function MapTotal<K, V>(keys: seq<K>, m: map<K, V>, w: V -> real): real
    requires forall i | 0 <= i < |keys| :: keys[i] in m
    decreases |keys|
  {
    if keys == [] then 0.0 else MapTotal(keys[..|keys| - 1], m, w) + w(m[keys[|keys| - 1]])
  }

  lemma {:induction false} MapTotalSame<K, V>(keys: seq<K>, m: map<K, V>, m': map<K, V>, w: V -> real)
    requires forall i | 0 <= i < |keys| :: keys[i] in m && keys[i] in m' && m'[keys[i]] == m[keys[i]]
    ensures MapTotal(keys, m', w) == MapTotal(keys, m, w)
    decreases |keys|
  {
    if keys != [] {
      MapTotalSame(keys[..|keys| - 1], m, m', w);
    }
  }

  /** Replacing the value at a listed key changes the total by the difference. */
  lemma {:induction false} MapTotalUpdate<K, V>(keys: seq<K>, m: map<K, V>, k: K, v: V, w: V -> real)
    requires Distinct(keys) && k in keys
    requires forall i | 0 <= i < |keys| :: keys[i] in m
    ensures MapTotal(keys, m[k := v], w) == MapTotal(keys, m, w) - w(m[k]) + w(v)
    decreases |keys|
  {
    var init := keys[..|keys| - 1];
    if keys[|keys| - 1] == k {
      assert k !in init;
      MapTotalSame(init, m, m[k := v], w);
    } else {
      assert k in init;
      MapTotalUpdate(init, m, k, v, w);
    }
  }

  /** `d[k] = v` changes the sum of the dictionary's values by `v - d.get(k, 0)`. */
  lemma MapTotalPut<K, V>(d: ODict<K, V>, k: K, v: V, w: V -> real)
    requires d.Valid()
    ensures MapTotal(d.Put(k, v).keys, d.Put(k, v).vals, w)
         == MapTotal(d.keys, d.vals, w) - (if k in d.vals then w(d.vals[k]) else 0.0) + w(v)
  {
    if k in d.vals {
      MapTotalUpdate(d.keys, d.vals, k, v, w);
    } else {
      var keys' := d.keys + [k];
      assert keys'[..|keys'| - 1] == d.keys;
      MapTotalSame(d.keys, d.vals, d.vals[k := v], w);
    }
  }

  /** Summing the entries of a dictionary is summing its values. */
  lemma {:induction false} TotalByPairs<K, V>(keys: seq<K>, m: map<K, V>, w: V -> real, we: ((K, V)) -> real)
    requires forall i | 0 <= i < |keys| :: keys[i] in m
    requires forall e: (K, V) :: we(e) == w(e.1)
    ensures TotalBy(Pairs(keys, m), we) == MapTotal(keys, m, w)
    decreases |keys|
  {
    if keys != [] {
      var init := keys[..|keys| - 1];
      assert Pairs(keys, m)[..|keys| - 1] == Pairs(init, m);
      TotalByPairs(init, m, w, we);
    }
  }

  /** An association list and any permutation of it have the same keys. */
  lemma KeySetOfPermutation<K, V>(a: seq<(K, V)>, b: seq<(K, V)>)
    requires multiset(a) == multiset(b)
    ensures KeySetOf(a) == KeySetOf(b)
  {
    forall k | k in KeySetOf(a) ensures k in KeySetOf(b) {
      var i :| 0 <= i < |a| && a[i].0 == k;
      assert a[i] in multiset(b);
      var j :| 0 <= j < |b| && b[j] == a[i];
    }
    forall k | k in KeySetOf(b) ensures k in KeySetOf(a) {
      var j :| 0 <= j < |b| && b[j].0 == k;
      assert b[j] in multiset(a);
      var i :| 0 <= i < |a| && a[i] == b[j];
    }
  }

  /** Python's `min(...)` of the weights of a non-empty sequence. */
  function MinBy<T>(s: seq<T>, w: T -> real): (m: real)
    requires s != []
    ensures forall i | 0 <= i < |s| :: m <= w(s[i])
    ensures exists i | 0 <= i < |s| :: m == w(s[i])
    decreases |s|
  {
    if |s| == 1 then w(s[0])
    else
      var m' := MinBy(s[..|s| - 1], w);
      assert forall i | 0 <= i < |s| - 1 :: s[..|s| - 1][i] == s[i];
      if w(s[|s| - 1]) < m' then w(s[|s| - 1]) else m'
  }

  /** Python's `max(...)` of the weights of a non-empty sequence. */
  function MaxBy<T>(s: seq<T>, w: T -> real): (m: real)
    requires s != []
    ensures forall i | 0 <= i < |s| :: w(s[i]) <= m
    ensures exists i | 0 <= i < |s| :: m == w(s[i])
    decreases |s|
  {
    if |s| == 1 then w(s[0])
    else
      var m' := MaxBy(s[..|s| - 1], w);
      assert forall i | 0 <= i < |s| - 1 :: s[..|s| - 1][i] == s[i];
      if w(s[|s| - 1]) > m' then w(s[|s| - 1]) else m'
  }

  /** `n * x` written as repeated addition, so that proofs about sums stay linear. */
  function Times(n: nat, x: real): real
  {
    if n == 0 then 0.0 else Times(n - 1, x) + x
  }

  lemma {:induction false} TimesIsProduct(n: nat, x: real)
    ensures Times(n, x) == (n as real) * x
  {
    if n > 0 {
      TimesIsProduct(n - 1, x);
    }
  }

  // ----- round(x, 2) -----------------------------------------------------

  /** Python's `round` to an integer on an exact real: to the nearest
      integer, and a tie to the even one. */
  function RoundHalfEven(y: real): (n: int)
    ensures y - 0.5 <= n as real <= y + 0.5
  {
    var f := y.Floor;
    var frac := y - f as real;
    if frac < 0.5 then f
    else if frac > 0.5 then f + 1
    else if f % 2 == 0 then f
    else f + 1
  }

  /** `round(x, 2)` on an exact real: to the nearest hundredth, a tie to the
      even hundredth. */
  function Round2(x: real): (r: real)
    ensures x - 0.005 <= r <= x + 0.005
  {
    RoundHalfEven(x * 100.0) as real / 100.0
  }

  lemma {:induction false} RoundHalfEvenMonotone(y: real, z: real)
    requires y <= z
    ensures RoundHalfEven(y) <= RoundHalfEven(z)
  {
    var fy, fz := y.Floor, z.Floor;
    if fy == fz {
      assert y - fy as real <= z - fz as real;
    } else {
      assert fy < fz;
    }
  }

  /** Rounding never reverses the order of two amounts. */
  lemma Round2Monotone(x: real, y: real)
    requires x <= y
    ensures Round2(x) <= Round2(y)
  {
    RoundHalfEvenMonotone(x * 100.0, y * 100.0);
  }

  /** Two amounts in rounded order are within a cent of being in order. */
  lemma Round2Order(x: real, y: real)
    requires Round2(x) >= Round2(y)
    ensures x >= y - 0.01
  {
  }

  lemma MulLe(c: real, a: real, b: real)
    requires 0.0 <= c && a <= b
    ensures c * a <= c * b
  {
  }

  /** Scaling a non-negative amount by a factor between 0 and 1 keeps it
      between 0 and the amount. */
  lemma ScaleBetween(t: real, f: real)
    requires 0.0 <= t && 0.0 <= f <= 1.0
    ensures 0.0 <= t * f <= t
  {
    MulLe(t, f, 1.0);
    MulLe(t, 0.0, f);
  }

  /** From `n * lo <= t <= n * hi` with `n > 0` follows `lo <= t / n <= hi`. */
  lemma DivBetween(lo: real, t: real, hi: real, n: nat)
    requires 0 < n && Times(n, lo) <= t <= Times(n, hi)
    ensures lo <= t / (n as real) <= hi
  {
    TimesIsProduct(n, lo);
    TimesIsProduct(n, hi);
    var r := n as real;
    var q := t / r;
    assert q * r == t;
    if q < lo {
      MulLe(r, q, lo);
    }
    if hi < q {
      MulLe(r, hi, q);
    }
  }

  /** The sum of `n` terms lies between `n` times the least and `n` times the largest. */
  lemma {:induction false} TotalByBounds<T>(s: seq<T>, w: T -> real)
    requires s != []
    ensures Times(|s|, MinBy(s, w)) <= TotalBy(s, w) <= Times(|s|, MaxBy(s, w))
    decreases |s|
  {
    if |s| > 1 {
      var s' := s[..|s| - 1];
      TotalByBounds(s', w);
      var lo, hi := MinBy(s, w), MaxBy(s, w);
      assert forall i | 0 <= i < |s'| :: s'[i] == s[i];
      assert lo <= MinBy(s', w) && MaxBy(s', w) <= hi;
      TimesMono(|s'|, lo, MinBy(s', w));
      TimesMono(|s'|, MaxBy(s', w), hi);
      assert lo <= w(s[|s| - 1]) <= hi;
    }
  }

  lemma {:induction false} TimesMono(n: nat, a: real, b: real)
    requires a <= b
    ensures Times(n, a) <= Times(n, b)
  {
    if n > 0 {
      TimesMono(n - 1, a, b);
    }
  }

  /** The mean of a non-empty sequence lies between its minimum and its maximum. */
  lemma MeanBounds<T>(s: seq<T>, w: T -> real)
    requires s != []
    ensures MinBy(s, w) <= TotalBy(s, w) / (|s| as real) <= MaxBy(s, w)
  {
    TotalByBounds(s, w);
    DivBetween(MinBy(s, w), TotalBy(s, w), MaxBy(s, w), |s|);
  }

  /** An element found at two different positions occurs at least twice. */
  lemma TwiceInMultiset<T>(s: seq<T>, i: nat, j: nat)
    requires i < j < |s| && s[i] == s[j]
    ensures multiset(s)[s[i]] >= 2
  {
    assert s == s[..j] + s[j..];
    assert s[i] in s[..j];
    assert s[j] in s[j..];
    assert multiset(s) == multiset(s[..j]) + multiset(s[j..]);
  }

  /** An element that occurs at least twice is found at two different positions. */
  lemma TwoPositions<T>(s: seq<T>, x: T) returns (p: nat, q: nat)
    requires multiset(s)[x] >= 2
    ensures p < |s| && q < |s| && p != q && s[p] == x && s[q] == x
  {
    assert x in multiset(s);
    p :| 0 <= p < |s| && s[p] == x;
    var rest := s[..p] + s[p + 1..];
    assert s == s[..p] + [x] + s[p + 1..];
    assert multiset(rest) == multiset(s) - multiset{x};
    assert x in multiset(rest);
    var r :| 0 <= r < |rest| && rest[r] == x;
    q := if r < p then r else r + 1;
  }

  /** A permutation of a dictionary's entries is again a dictionary. */
  lemma DistinctKeysPermutation<K, V>(a: seq<(K, V)>, b: seq<(K, V)>)
    requires multiset(a) == multiset(b) && DistinctKeys(a)
    ensures DistinctKeys(b)
  {
    forall i, j | 0 <= i < j < |b| ensures b[i].0 != b[j].0 {
      if b[i] == b[j] {
        TwiceInMultiset(b, i, j);
        var p, q := TwoPositions(a, b[i]);
      } else if b[i].0 == b[j].0 {
        assert b[i] in multiset(a) && b[j] in multiset(a);
        var p :| 0 <= p < |a| && a[p] == b[i];
      }
    }
  }

  /** The entries of a dictionary carry its keys, in insertion order. */
  lemma ItemsKeys<K, V>(d: ODict<K, V>)
    requires d.Valid()
    ensures KeysOf(d.Items()) == d.keys
  {
  }

  /** A reordering of a dictionary's entries: distinct keys, the same keys,
      and each entry the key with its value. */
  lemma PermutedItems<K, V>(d: ODict<K, V>, b: seq<(K, V)>)
    requires d.Valid() && multiset(b) == multiset(d.Items())
    ensures DistinctKeys(b) && KeySetOf(b) == d.vals.Keys
    ensures forall i | 0 <= i < |b| :: b[i].0 in d.vals && b[i].1 == d.vals[b[i].0]
  {
    var items := d.Items();
    DistinctKeysPermutation(items, b);
    KeySetOfPermutation(items, b);
    forall i | 0 <= i < |b| ensures b[i].0 in d.vals && b[i].1 == d.vals[b[i].0] {
      assert b[i] in multiset(items);
      var j :| 0 <= j < |items| && items[j] == b[i];
    }
  }

  /** Extending a prefix of `b` by one element, after a fixed `a`. */
  lemma PrefixSnoc<T>(a: seq<T>, b: seq<T>, j: nat)
    requires j < |b|
    ensures a + b[..j + 1] == (a + b[..j]) + [b[j]]
  {
    assert b[..j + 1] == b[..j] + [b[j]];
  }

  /** A proper fraction of naturals lies in [0, 1). */
  lemma FractionBelowOne(a: nat, b: nat)
    requires a < b
    ensures 0.0 <= (a as real) / (b as real) < 1.0
  {
  }

  lemma TakeSnoc<T>(s: seq<T>, i: nat)
    requires i < |s|
    ensures s[..i + 1] == s[..i] + [s[i]]
  {
  }
}
