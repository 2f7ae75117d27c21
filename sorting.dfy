/** Python's `sorted(s, key=..., reverse=...)` and `list.sort`: a stable
    sort by a key, where `reverse=True` orders keys descending and still
    keeps elements with equal keys in their original order. */
module Sorting {

  /** The sort keys the engine produces: numbers, strings, and the
      `float('inf')` that stands for `None`. */
  datatype SortKey = Number(x: real) | Text(s: string) | Infinity

  /** Python's `<=` on `str`: lexicographic by code point. */
  predicate StrLe(a: string, b: string)
    decreases |a|
  {
    a == [] || (b != [] && (a[0] < b[0] || (a[0] == b[0] && StrLe(a[1..], b[1..]))))
  }

  lemma {:induction false} StrLeRefl(a: string)
    ensures StrLe(a, a)
  {
    if a != [] {
      StrLeRefl(a[1..]);
    }
  }

  lemma {:induction false} StrLeTotal(a: string, b: string)
    ensures StrLe(a, b) || StrLe(b, a)
  {
    if a != [] && b != [] && a[0] == b[0] {
      StrLeTotal(a[1..], b[1..]);
    }
  }

  lemma {:induction false} StrLeAntisym(a: string, b: string)
    requires StrLe(a, b) && StrLe(b, a)
    ensures a == b
  {
    if a != [] && b != [] {
      StrLeAntisym(a[1..], b[1..]);
      assert a == [a[0]] + a[1..] && b == [b[0]] + b[1..];
    }
  }

  lemma {:induction false} StrLeTrans(a: string, b: string, c: string)
    requires StrLe(a, b) && StrLe(b, c)
    ensures StrLe(a, c)
  {
    if a != [] && b != [] && c != [] && a[0] == b[0] == c[0] {
      StrLeTrans(a[1..], b[1..], c[1..]);
    }
  }

  function Rank(k: SortKey): int
  {
    match k
    case Number(_) => 0
    case Text(_) => 1
    case Infinity => 2
  }

  /** The order on keys. Numbers compare as numbers, strings as strings and
      `Infinity` is above every number. Python raises `TypeError` when a
      string key meets a number; this order puts strings between the numbers
      and `Infinity`. */
  predicate KeyLe(a: SortKey, b: SortKey)
  {
    match (a, b)
    case (Number(x), Number(y)) => x <= y
    case (Text(s), Text(t)) => StrLe(s, t)
    case _ => Rank(a) <= Rank(b)
  }

  /** `KeyLe` is a total order. */
  lemma KeyLeTotalOrder(a: SortKey, b: SortKey, c: SortKey)
    ensures KeyLe(a, a)
    ensures KeyLe(a, b) || KeyLe(b, a)
    ensures KeyLe(a, b) && KeyLe(b, a) ==> a == b
    ensures KeyLe(a, b) && KeyLe(b, c) ==> KeyLe(a, c)
  {
    if a.Text? {
      StrLeRefl(a.s);
      if b.Text? {
        StrLeTotal(a.s, b.s);
        if KeyLe(a, b) && KeyLe(b, a) {
          StrLeAntisym(a.s, b.s);
        }
        if c.Text? && KeyLe(a, b) && KeyLe(b, c) {
          StrLeTrans(a.s, b.s, c.s);
        }
      }
    }
  }

  /** Key `a` may stand before key `b` in the output. */
  predicate InOrder(a: SortKey, b: SortKey, desc: bool)
  {
    if desc then KeyLe(b, a) else KeyLe(a, b)
  }

  lemma InOrderTotalOrder(a: SortKey, b: SortKey, c: SortKey, desc: bool)
    ensures InOrder(a, a, desc)
    ensures InOrder(a, b, desc) || InOrder(b, a, desc)
    ensures InOrder(a, b, desc) && InOrder(b, a, desc) ==> a == b
    ensures InOrder(a, b, desc) && InOrder(b, c, desc) ==> InOrder(a, c, desc)
  {
    KeyLeTotalOrder(a, b, c);
    KeyLeTotalOrder(c, b, a);
  }

  predicate SortedBy<T>(s: seq<T>, key: T -> SortKey, desc: bool)
  {
    forall i, j :: 0 <= i < j < |s| ==> InOrder(key(s[i]), key(s[j]), desc)
  }

  /** The elements of `s` whose key is `k`, in their order in `s`. A sort is
      stable when it keeps each of these sequences as it was. */
  function WithKey<T>(s: seq<T>, key: T -> SortKey, k: SortKey): seq<T>
  {
    if s == [] then [] else (if key(s[0]) == k then [s[0]] else []) + WithKey(s[1..], key, k)
  }

  lemma {:induction false} WithKeyAppend<T>(a: seq<T>, b: seq<T>, key: T -> SortKey, k: SortKey)
    ensures WithKey(a + b, key, k) == WithKey(a, key, k) + WithKey(b, key, k)
  {
    if a == [] {
      assert a + b == b;
    } else {
      var h := if key(a[0]) == k then [a[0]] else [];
      assert (a + b)[0] == a[0] && (a + b)[1..] == a[1..] + b;
      assert WithKey(a + b, key, k) == h + WithKey(a[1..] + b, key, k);
      WithKeyAppend(a[1..], b, key, k);
      assert h + (WithKey(a[1..], key, k) + WithKey(b, key, k))
          == (h + WithKey(a[1..], key, k)) + WithKey(b, key, k);
    }
  }

  /** An element with key `k` when the sequence has some. */
  lemma {:induction false} FindKey<T>(s: seq<T>, key: T -> SortKey, k: SortKey) returns (i: nat)
    requires WithKey(s, key, k) != []
    ensures i < |s| && key(s[i]) == k
  {
    if key(s[0]) == k {
      i := 0;
    } else {
      i := FindKey(s[1..], key, k);
      i := i + 1;
    }
  }

  lemma WithKeyFirst<T>(s: seq<T>, key: T -> SortKey)
    requires s != []
    ensures WithKey(s, key, key(s[0])) != []
  {
  }

  lemma {:induction false} WithKeyNone<T>(s: seq<T>, key: T -> SortKey, k: SortKey)
    requires forall i :: 0 <= i < |s| ==> key(s[i]) != k
    ensures WithKey(s, key, k) == []
  {
    if s != [] {
      WithKeyNone(s[1..], key, k);
    }
  }

  /** Inserts `x` into `t` after every element whose key is not strictly
      after `x`'s. */
  function Insert<T>(t: seq<T>, x: T, key: T -> SortKey, desc: bool): (r: seq<T>)
    ensures |r| == |t| + 1
    ensures multiset(r) == multiset(t) + multiset{x}
  {
    if t == [] then [x]
    else if !InOrder(key(t[0]), key(x), desc) then [x] + t
    else
      assert t == [t[0]] + t[1..];
      [t[0]] + Insert(t[1..], x, key, desc)
  }

  /** Inserting into a sorted sequence keeps it sorted. */
  lemma {:induction false} InsertSorted<T>(t: seq<T>, x: T, key: T -> SortKey, desc: bool)
    requires SortedBy(t, key, desc)
    ensures SortedBy(Insert(t, x, key, desc), key, desc)
  {
    if t == [] {
    } else if !InOrder(key(t[0]), key(x), desc) {
      InsertBeforeAll(t, x, key, desc);
    } else {
      var t' := t[1..];
      InsertSorted(t', x, key, desc);
      var ins := Insert(t', x, key, desc);
      var r := [t[0]] + ins;
      forall j | 0 <= j < |ins| ensures InOrder(key(t[0]), key(ins[j]), desc) {
        assert ins[j] in multiset(ins);
        if ins[j] != x {
          assert ins[j] in multiset(t');
          var m :| 0 <= m < |t'| && t'[m] == ins[j];
          assert t[m + 1] == ins[j];
        }
      }
      forall i, j | 0 <= i < j < |r| ensures InOrder(key(r[i]), key(r[j]), desc) {
        if i > 0 {
          assert r[i] == ins[i - 1] && r[j] == ins[j - 1];
        }
      }
    }
  }

  /** When `x`'s key goes strictly before the first key of a sorted `t`, it
      goes strictly before every key of `t`. */
  lemma InsertBeforeAll<T>(t: seq<T>, x: T, key: T -> SortKey, desc: bool)
    requires SortedBy(t, key, desc) && t != [] && !InOrder(key(t[0]), key(x), desc)
    ensures forall j :: 0 <= j < |t| ==> InOrder(key(x), key(t[j]), desc) && key(t[j]) != key(x)
    ensures SortedBy([x] + t, key, desc)
  {
    InOrderTotalOrder(key(t[0]), key(x), key(x), desc);
    forall j | 0 <= j < |t|
      ensures InOrder(key(x), key(t[j]), desc) && key(t[j]) != key(x)
    {
      InOrderTotalOrder(key(x), key(t[0]), key(t[j]), desc);
      InOrderTotalOrder(key(t[0]), key(t[j]), key(x), desc);
    }
    var r := [x] + t;
    forall i, j | 0 <= i < j < |r| ensures InOrder(key(r[i]), key(r[j]), desc) {
      if i > 0 {
        assert r[i] == t[i - 1] && r[j] == t[j - 1];
      }
    }
  }

  /** Inserting `x` puts it after every element of `t` with the same key. */
  lemma {:induction false} InsertWithKey<T>(t: seq<T>, x: T, key: T -> SortKey, desc: bool, k: SortKey)
    requires SortedBy(t, key, desc)
    ensures WithKey(Insert(t, x, key, desc), key, k) == WithKey(t, key, k) + (if key(x) == k then [x] else [])
  {
    if t == [] {
      assert WithKey([x], key, k) == (if key(x) == k then [x] else []) + WithKey([x][1..], key, k);
    } else if !InOrder(key(t[0]), key(x), desc) {
      InsertWithKeyFront(t, x, key, desc, k);
    } else {
      var t' := t[1..];
      InsertWithKey(t', x, key, desc, k);
      InsertWithKeyStep(t, x, key, desc, k);
    }
  }

  lemma InsertWithKeyFront<T>(t: seq<T>, x: T, key: T -> SortKey, desc: bool, k: SortKey)
    requires SortedBy(t, key, desc) && t != [] && !InOrder(key(t[0]), key(x), desc)
    ensures WithKey(Insert(t, x, key, desc), key, k) == WithKey(t, key, k) + (if key(x) == k then [x] else [])
  {
    InsertBeforeAll(t, x, key, desc);
    var r := [x] + t;
    assert Insert(t, x, key, desc) == r;
    assert r[1..] == t;
    assert WithKey(r, key, k) == (if key(x) == k then [x] else []) + WithKey(t, key, k);
    if key(x) == k {
      WithKeyNone(t, key, k);
    }
  }

  lemma InsertWithKeyStep<T>(t: seq<T>, x: T, key: T -> SortKey, desc: bool, k: SortKey)
    requires t != [] && InOrder(key(t[0]), key(x), desc)
    requires WithKey(Insert(t[1..], x, key, desc), key, k) == WithKey(t[1..], key, k) + (if key(x) == k then [x] else [])
    ensures WithKey(Insert(t, x, key, desc), key, k) == WithKey(t, key, k) + (if key(x) == k then [x] else [])
  {
    var ins := Insert(t[1..], x, key, desc);
    var r := [t[0]] + ins;
    assert Insert(t, x, key, desc) == r;
    assert r[0] == t[0] && r[1..] == ins;
    assert WithKey(r, key, k) == (if key(t[0]) == k then [t[0]] else []) + WithKey(ins, key, k);
  }

  /** `sorted(s, key=key, reverse=desc)`: a permutation of `s`, ordered by
      key, that keeps the elements of each key in their original order. */
  function SortBy<T>(s: seq<T>, key: T -> SortKey, desc: bool): (r: seq<T>)
    ensures |r| == |s| && multiset(r) == multiset(s)
    ensures SortedBy(r, key, desc)
    ensures forall k :: WithKey(r, key, k) == WithKey(s, key, k)
  {
    if s == [] then []
    else
      var s' := s[..|s| - 1];
      var x := s[|s| - 1];
      var sorted := SortBy(s', key, desc);
      InsertSorted(sorted, x, key, desc);
      assert s == s' + [x];
      assert forall k :: WithKey(Insert(sorted, x, key, desc), key, k) == WithKey(s, key, k) by {
        forall k ensures WithKey(Insert(sorted, x, key, desc), key, k) == WithKey(s, key, k) {
          WithKeyAppend(s', [x], key, k);
          assert WithKey([x], key, k) == (if key(x) == k then [x] else []) + WithKey([x][1..], key, k);
          InsertWithKey(sorted, x, key, desc, k);
        }
      }
      Insert(sorted, x, key, desc)
  }

  /** The stable sort is the only ordering of `s` with these properties:
      sorted by key and stable. */
  lemma {:induction false} SortedStableIsSortBy<T>(s: seq<T>, r: seq<T>, key: T -> SortKey, desc: bool)
    requires SortedBy(r, key, desc)
    requires forall k :: WithKey(r, key, k) == WithKey(s, key, k)
    ensures r == SortBy(s, key, desc)
  {
    var q := SortBy(s, key, desc);
    SortedUnique(r, q, key, desc);
  }

  lemma {:induction false} SortedUnique<T>(r: seq<T>, q: seq<T>, key: T -> SortKey, desc: bool)
    requires SortedBy(r, key, desc) && SortedBy(q, key, desc)
    requires forall k :: WithKey(r, key, k) == WithKey(q, key, k)
    ensures r == q
    decreases |r| + |q|
  {
    if r == [] || q == [] {
      if r != [] {
        WithKeyFirst(r, key);
      }
      if q != [] {
        WithKeyFirst(q, key);
      }
    } else {
      var a, b := key(r[0]), key(q[0]);
      assert WithKey(r, key, a) != [] && WithKey(q, key, b) != [];
      var j := FindKey(q, key, a);
      var i := FindKey(r, key, b);
      InOrderTotalOrder(a, b, a, desc);
      InOrderTotalOrder(b, b, b, desc);
      InOrderTotalOrder(a, a, a, desc);
      assert InOrder(b, a, desc) by { if j > 0 { assert InOrder(key(q[0]), key(q[j]), desc); } }
      assert InOrder(a, b, desc) by { if i > 0 { assert InOrder(key(r[0]), key(r[i]), desc); } }
      assert a == b;
      assert r[0] == q[0] by {
        assert WithKey(r, key, a)[0] == r[0];
        assert WithKey(q, key, a)[0] == q[0];
      }
      forall k ensures WithKey(r[1..], key, k) == WithKey(q[1..], key, k) {
        var p := if a == k then [r[0]] else [];
        assert WithKey(r, key, k) == p + WithKey(r[1..], key, k);
        assert WithKey(q, key, k) == p + WithKey(q[1..], key, k);
        assert (p + WithKey(r[1..], key, k))[|p|..] == WithKey(r[1..], key, k);
        assert (p + WithKey(q[1..], key, k))[|p|..] == WithKey(q[1..], key, k);
      }
      SortedUnique(r[1..], q[1..], key, desc);
      assert r == [r[0]] + r[1..] && q == [q[0]] + q[1..];
    }
  }
}
