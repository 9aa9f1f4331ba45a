/** The stable descending sort that Python's `sorted(..., reverse=True)`,
    `Counter.most_common()` and JavaScript's `Array.prototype.sort` with a
    `b - a` comparator all perform: elements with larger keys first, and
    elements with equal keys in their input order. */
module Sorting {
  import opened Common
  import opened Text

  predicate SortedDesc<T>(s: seq<T>, key: T -> real)
  {
    forall i, j | 0 <= i < j < |s| :: key(s[i]) >= key(s[j])
  }

  /** Puts `x` in front of the first element whose key is not larger than its
      own, so `x` stays ahead of the equal keys that followed it in the input. */
  function InsertDesc<T>(x: T, t: seq<T>, key: T -> real): (r: seq<T>)
    requires SortedDesc(t, key)
    ensures SortedDesc(r, key)
    ensures multiset(r) == multiset(t) + multiset{x}
    decreases |t|
  {
    if t == [] || key(t[0]) <= key(x) then
      [x] + t
    else
      var rest := InsertDesc(x, t[1..], key);
      InsertedBelowHead(x, t, rest, key);
      ConsSorted(t[0], rest, key);
      assert t == [t[0]] + t[1..];
      [t[0]] + rest
  }

  /** What is inserted behind the head of a sorted sequence stays below it. */
  lemma InsertedBelowHead<T>(x: T, t: seq<T>, rest: seq<T>, key: T -> real)
    requires t != [] && SortedDesc(t, key) && key(x) < key(t[0])
    requires multiset(rest) == multiset(t[1..]) + multiset{x}
    ensures forall e | e in rest :: key(e) <= key(t[0])
  {
    forall e | e in rest ensures key(e) <= key(t[0]) {
      assert e in multiset(rest);
      if e != x {
        assert e in multiset(t[1..]);
        var k :| 0 <= k < |t[1..]| && t[1..][k] == e;
        assert t[k + 1] == e;
      }
    }
  }

  /** A head no smaller than anything behind it keeps a sorted sequence sorted. */
  lemma ConsSorted<T>(h: T, rest: seq<T>, key: T -> real)
    requires SortedDesc(rest, key)
    requires forall e | e in rest :: key(e) <= key(h)
    ensures SortedDesc([h] + rest, key)
  {
    forall i, j | 0 <= i < j < |rest| + 1
      ensures key(([h] + rest)[i]) >= key(([h] + rest)[j])
    {
      assert ([h] + rest)[j] == rest[j - 1];
      if i == 0 {
        assert rest[j - 1] in rest;
      } else {
        assert ([h] + rest)[i] == rest[i - 1];
      }
    }
  }

  /** Insertion sort, descending by `key`, stable. */
  function SortDesc<T>(s: seq<T>, key: T -> real): (r: seq<T>)
    ensures SortedDesc(r, key)
    ensures multiset(r) == multiset(s)
    ensures |r| == |s|
    decreases |s|
  {
    if s == [] then []
    else
      assert s == [s[0]] + s[1..];
      InsertDesc(s[0], SortDesc(s[1..], key), key)
  }

  /** The elements of `s` whose key is `v`, in order. */
  function Tied<T>(s: seq<T>, key: T -> real, v: real): seq<T>
    decreases |s|
  {
    if s == [] then []
    else (if key(s[0]) == v then [s[0]] else []) + Tied(s[1..], key, v)
  }

  lemma TiedCons<T>(a: T, s: seq<T>, key: T -> real, v: real)
    ensures Tied([a] + s, key, v) == (if key(a) == v then [a] else []) + Tied(s, key, v)
  {
    assert ([a] + s)[1..] == s;
  }

  lemma {:induction false} InsertDescTied<T>(x: T, t: seq<T>, key: T -> real, v: real)
    requires SortedDesc(t, key)
    ensures Tied(InsertDesc(x, t, key), key, v) == Tied([x] + t, key, v)
    decreases |t|
  {
    if t != [] && key(t[0]) > key(x) {
      var rest := InsertDesc(x, t[1..], key);
      var hx := if key(x) == v then [x] else [];
      var h0 := if key(t[0]) == v then [t[0]] else [];
      calc {
        Tied(InsertDesc(x, t, key), key, v);
        { assert InsertDesc(x, t, key) == [t[0]] + rest; }
        Tied([t[0]] + rest, key, v);
        { TiedCons(t[0], rest, key, v); }
        h0 + Tied(rest, key, v);
        { InsertDescTied(x, t[1..], key, v); TiedCons(x, t[1..], key, v); }
        h0 + (hx + Tied(t[1..], key, v));
        { assert h0 == [] || hx == []; }
        hx + (h0 + Tied(t[1..], key, v));
        { TiedCons(t[0], t[1..], key, v); assert t == [t[0]] + t[1..]; }
        hx + Tied(t, key, v);
        { TiedCons(x, t, key, v); }
        Tied([x] + t, key, v);
      }
    }
  }

  /** Stability: among the elements with any one key, the sort keeps the input order. */
  lemma {:induction false} SortDescStable<T>(s: seq<T>, key: T -> real, v: real)
    ensures Tied(SortDesc(s, key), key, v) == Tied(s, key, v)
    decreases |s|
  {
    if s != [] {
      SortDescStable(s[1..], key, v);
      InsertDescTied(s[0], SortDesc(s[1..], key), key, v);
      assert ([s[0]] + SortDesc(s[1..], key))[1..] == SortDesc(s[1..], key);
    }
  }

  /** The position of the first element with the largest key. */
  function FirstMaxIndex<T>(s: seq<T>, key: T -> real): (i: nat)
    requires s != []
    ensures i < |s|
    ensures forall j | 0 <= j < |s| :: key(s[j]) <= key(s[i])
    ensures forall j | 0 <= j < i :: key(s[j]) < key(s[i])
    decreases |s|
  {
    if |s| == 1 then 0
    else
      var j := FirstMaxIndex(s[1..], key);
      if key(s[0]) >= key(s[1 + j]) then 0 else 1 + j
  }

  /** The head of the sorted sequence is the first element with the largest key. */
  lemma {:induction false} SortDescHead<T>(s: seq<T>, key: T -> real)
    requires s != []
    ensures SortDesc(s, key)[0] == s[FirstMaxIndex(s, key)]
    decreases |s|
  {
    if |s| > 1 {
      SortDescHead(s[1..], key);
      var t := SortDesc(s[1..], key);
      assert t[0] in multiset(s[1..]);
      assert forall e | e in s[1..] :: key(e) <= key(t[0]) by {
        forall e | e in s[1..] ensures key(e) <= key(t[0]) {
          assert e in multiset(t);
          var k :| 0 <= k < |t| && t[k] == e;
          assert k == 0 || key(t[0]) >= key(t[k]);
        }
      }
    }
  }

  // ----- ascending by name ------------------------------------------------

  /** Entries in ascending order of their string key, the order in which
      `json.dumps(..., sort_keys=True)` writes a dictionary. */
  predicate SortedByName<V>(s: seq<(string, V)>)
  {
    forall i, j | 0 <= i < j < |s| :: StrLe(s[i].0, s[j].0)
  }

  /** Puts `x` in front of the first entry whose key it does not exceed. */
  function InsertByName<V>(x: (string, V), t: seq<(string, V)>): (r: seq<(string, V)>)
    requires SortedByName(t)
    ensures SortedByName(r)
    ensures multiset(r) == multiset(t) + multiset{x}
    decreases |t|
  {
    if t == [] || StrLe(x.0, t[0].0) then
      BelowSortedHead(x, t);
      NameConsSorted(x, t);
      [x] + t
    else
      var rest := InsertByName(x, t[1..]);
      StrLeTotal(x.0, t[0].0);
      InsertedAboveHead(x, t, rest);
      NameConsSorted(t[0], rest);
      assert t == [t[0]] + t[1..];
      [t[0]] + rest
  }

  /** A key not above the head of a sorted sequence is not above any of it. */
  lemma BelowSortedHead<V>(x: (string, V), t: seq<(string, V)>)
    requires SortedByName(t) && (t == [] || StrLe(x.0, t[0].0))
    ensures forall e | e in t :: StrLe(x.0, e.0)
  {
    forall e | e in t ensures StrLe(x.0, e.0) {
      var k :| 0 <= k < |t| && t[k] == e;
      if k > 0 {
        StrLeTransitive(x.0, t[0].0, e.0);
      }
    }
  }

  /** What is inserted behind the head of a sorted sequence stays above it. */
  lemma InsertedAboveHead<V>(x: (string, V), t: seq<(string, V)>, rest: seq<(string, V)>)
    requires t != [] && SortedByName(t) && StrLe(t[0].0, x.0)
    requires multiset(rest) == multiset(t[1..]) + multiset{x}
    ensures forall e | e in rest :: StrLe(t[0].0, e.0)
  {
    forall e | e in rest ensures StrLe(t[0].0, e.0) {
      assert e in multiset(rest);
      if e != x {
        assert e in multiset(t[1..]);
        var k :| 0 <= k < |t[1..]| && t[1..][k] == e;
        assert t[k + 1] == e;
      }
    }
  }

  /** A head not above anything behind it keeps a sorted sequence sorted. */
  lemma NameConsSorted<V>(h: (string, V), rest: seq<(string, V)>)
    requires SortedByName(rest)
    requires forall e | e in rest :: StrLe(h.0, e.0)
    ensures SortedByName([h] + rest)
  {
    forall i, j | 0 <= i < j < |rest| + 1
      ensures StrLe(([h] + rest)[i].0, ([h] + rest)[j].0)
    {
      assert ([h] + rest)[j] == rest[j - 1];
      if i == 0 {
        assert rest[j - 1] in rest;
      } else {
        assert ([h] + rest)[i] == rest[i - 1];
      }
    }
  }

  /** Insertion sort, ascending by the string key. */
  function SortByName<V>(s: seq<(string, V)>): (r: seq<(string, V)>)
    ensures SortedByName(r)
    ensures multiset(r) == multiset(s)
    ensures |r| == |s|
    decreases |s|
  {
    if s == [] then []
    else
      assert s == [s[0]] + s[1..];
      InsertByName(s[0], SortByName(s[1..]))
  }

  /** With distinct keys the order is strict. */
  lemma SortedByNameStrict<V>(s: seq<(string, V)>)
    requires SortedByName(s) && DistinctKeys(s)
    ensures forall i, j | 0 <= i < j < |s| :: StrLe(s[i].0, s[j].0) && !StrLe(s[j].0, s[i].0)
  {
    forall i, j | 0 <= i < j < |s| ensures !StrLe(s[j].0, s[i].0) {
      if StrLe(s[j].0, s[i].0) {
        StrLeAntisymmetric(s[i].0, s[j].0);
      }
    }
  }
}
