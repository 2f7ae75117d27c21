/** Order-preserving selection on sequences: the list comprehensions
    `[x for x in s if p(x)]` the engine is built from, and the
    subsequence relation they establish. */
module Seqs {

  /** `[x for x in s if p(x)]`, defined from the back so that a loop that
      appends to a list matches it step by step. */
  function Filter<T>(s: seq<T>, p: T -> bool): seq<T>
  {
    if s == [] then [] else Filter(s[..|s| - 1], p) + (if p(s[|s| - 1]) then [s[|s| - 1]] else [])
  }

  /** `a` is obtained from `b` by deleting elements, keeping the order. */
  predicate SubseqOf<T(==)>(a: seq<T>, b: seq<T>)
    decreases |b|
  {
    if a == [] then true
    else if b == [] then false
    else if a[|a| - 1] == b[|b| - 1] then SubseqOf(a[..|a| - 1], b[..|b| - 1])
    else SubseqOf(a, b[..|b| - 1])
  }

  lemma {:induction false} FilterAppend<T>(a: seq<T>, b: seq<T>, p: T -> bool)
    ensures Filter(a + b, p) == Filter(a, p) + Filter(b, p)
    decreases |b|
  {
    if b == [] {
      assert a + b == a;
    } else {
      var b' := b[..|b| - 1];
      assert (a + b)[..|a + b| - 1] == a + b';
      FilterAppend(a, b', p);
    }
  }

  /** Everything the filter keeps satisfies the predicate, everything it
      drops fails it, and it never invents elements. */
  lemma {:induction false} FilterMembership<T>(s: seq<T>, p: T -> bool)
    ensures forall x :: x in Filter(s, p) <==> x in s && p(x)
    ensures |Filter(s, p)| <= |s|
    ensures multiset(Filter(s, p)) <= multiset(s)
  {
    if s != [] {
      var s' := s[..|s| - 1];
      FilterMembership(s', p);
      assert s == s' + [s[|s| - 1]];
    }
  }

  /** A filter whose predicate holds everywhere changes nothing. */
  lemma {:induction false} FilterKeepsAll<T>(s: seq<T>, p: T -> bool)
    requires forall i :: 0 <= i < |s| ==> p(s[i])
    ensures Filter(s, p) == s
  {
    if s != [] {
      FilterKeepsAll(s[..|s| - 1], p);
    }
  }

  /** A filter whose predicate fails everywhere keeps nothing. */
  lemma {:induction false} FilterDropsAll<T>(s: seq<T>, p: T -> bool)
    requires forall i :: 0 <= i < |s| ==> !p(s[i])
    ensures Filter(s, p) == []
  {
    if s != [] {
      FilterDropsAll(s[..|s| - 1], p);
    }
  }

  lemma {:induction false} SubseqOfExtend<T>(a: seq<T>, b: seq<T>, x: T)
    requires SubseqOf(a, b)
    ensures SubseqOf(a, b + [x])
    decreases |a| + |b|, 1
  {
    var b2 := b + [x];
    assert b2[..|b2| - 1] == b;
    if a != [] && a[|a| - 1] == x {
      SubseqOfDropLast(a, b);
    }
  }

  lemma {:induction false} SubseqOfDropLast<T>(a: seq<T>, b: seq<T>)
    requires a != [] && SubseqOf(a, b)
    ensures SubseqOf(a[..|a| - 1], b)
    decreases |a| + |b|, 0
  {
    var b' := b[..|b| - 1];
    assert b == b' + [b[|b| - 1]];
    if a[|a| - 1] == b[|b| - 1] {
      SubseqOfExtend(a[..|a| - 1], b', b[|b| - 1]);
    } else {
      SubseqOfDropLast(a, b');
      SubseqOfExtend(a[..|a| - 1], b', b[|b| - 1]);
    }
  }

  lemma {:induction false} SubseqOfRefl<T>(a: seq<T>)
    ensures SubseqOf(a, a)
  {
    if a != [] {
      SubseqOfRefl(a[..|a| - 1]);
    }
  }

  lemma {:induction false} SubseqOfTrans<T>(a: seq<T>, b: seq<T>, c: seq<T>)
    requires SubseqOf(a, b) && SubseqOf(b, c)
    ensures SubseqOf(a, c)
    decreases |c|
  {
    if a != [] && c != [] {
      var c' := c[..|c| - 1];
      assert c == c' + [c[|c| - 1]];
      if b != [] && b[|b| - 1] == c[|c| - 1] {
        var b' := b[..|b| - 1];
        if a[|a| - 1] == b[|b| - 1] {
          SubseqOfTrans(a[..|a| - 1], b', c');
        } else {
          SubseqOfTrans(a, b', c');
          SubseqOfExtend(a, c', c[|c| - 1]);
        }
      } else if b != [] {
        SubseqOfTrans(a, b, c');
        SubseqOfExtend(a, c', c[|c| - 1]);
      }
    }
  }

  /** A subsequence is no longer than the sequence and draws its elements
      from it, with no element used more often than it occurs. */
  lemma {:induction false} SubseqOfMultiset<T>(a: seq<T>, b: seq<T>)
    requires SubseqOf(a, b)
    ensures multiset(a) <= multiset(b) && |a| <= |b|
    decreases |b|
  {
    if a != [] {
      var b' := b[..|b| - 1];
      assert b == b' + [b[|b| - 1]];
      if a[|a| - 1] == b[|b| - 1] {
        SubseqOfMultiset(a[..|a| - 1], b');
        assert a == a[..|a| - 1] + [a[|a| - 1]];
      } else {
        SubseqOfMultiset(a, b');
      }
    }
  }

  /** The result of a filter is an order-preserving subsequence of its input. */
  lemma {:induction false} FilterIsSubseq<T>(s: seq<T>, p: T -> bool)
    ensures SubseqOf(Filter(s, p), s)
  {
    if s != [] {
      var s' := s[..|s| - 1];
      FilterIsSubseq(s', p);
      if p(s[|s| - 1]) {
        var f := Filter(s, p);
        assert f[..|f| - 1] == Filter(s', p);
      } else {
        assert Filter(s, p) == Filter(s', p);
        SubseqOfExtend(Filter(s', p), s', s[|s| - 1]);
        assert s' + [s[|s| - 1]] == s;
      }
    }
  }

  /** A weaker predicate keeps at least as many elements. */
  lemma {:induction false} FilterMonotone<T>(s: seq<T>, p: T -> bool, q: T -> bool)
    requires forall x :: p(x) ==> q(x)
    ensures |Filter(s, p)| <= |Filter(s, q)|
  {
    if s != [] {
      FilterMonotone(s[..|s| - 1], p, q);
    }
  }

  /** A predicate and its negation split a sequence between them. */
  lemma {:induction false} FilterComplement<T>(s: seq<T>, p: T -> bool, q: T -> bool)
    requires forall x :: q(x) == !p(x)
    ensures |Filter(s, p)| + |Filter(s, q)| == |s|
  {
    if s != [] {
      FilterComplement(s[..|s| - 1], p, q);
    }
  }

  /** A filter keeps every copy of an element it accepts and none of one
      it rejects. */
  lemma {:induction false} FilterMultiplicity<T>(s: seq<T>, p: T -> bool, x: T)
    ensures multiset(Filter(s, p))[x] == if p(x) then multiset(s)[x] else 0
  {
    if s != [] {
      var s' := s[..|s| - 1];
      FilterMultiplicity(s', p, x);
      assert s == s' + [s[|s| - 1]];
    }
  }

  /** Filtering commutes with reordering: permuted inputs give permuted
      outputs. */
  lemma FilterPermutation<T>(a: seq<T>, b: seq<T>, p: T -> bool)
    requires multiset(a) == multiset(b)
    ensures multiset(Filter(a, p)) == multiset(Filter(b, p))
  {
    forall x: T ensures multiset(Filter(a, p))[x] == multiset(Filter(b, p))[x]
    {
      FilterMultiplicity(a, p, x);
      FilterMultiplicity(b, p, x);
    }
    MultisetExt(multiset(Filter(a, p)), multiset(Filter(b, p)));
  }

  /** Multisets with the same multiplicities are equal. */
  lemma MultisetExt<T>(a: multiset<T>, b: multiset<T>)
    requires forall x: T :: a[x] == b[x]
    ensures a == b
  {
  }

  /** Python's `s[:n]`: a negative bound counts from the end. */
  function PyPrefix<T>(s: seq<T>, n: int): (r: seq<T>)
    ensures n >= 0 ==> |r| == if n < |s| then n else |s|
    ensures n < 0 ==> |r| == if |s| + n > 0 then |s| + n else 0
    ensures r <= s
  {
    if n >= 0 then (if n < |s| then s[..n] else s)
    else if |s| + n > 0 then s[..|s| + n] else []
  }

  /** A filter shortens a sequence as soon as one element fails it. */
  lemma {:induction false} FilterShorter<T>(s: seq<T>, p: T -> bool, i: nat)
    requires i < |s| && !p(s[i])
    ensures |Filter(s, p)| < |s|
  {
    var s' := s[..|s| - 1];
    FilterMembership(s', p);
    if i < |s| - 1 {
      assert s'[i] == s[i];
      FilterShorter(s', p, i);
    }
  }

  /** Every element the filter keeps satisfies the predicate. */
  lemma {:induction false} FilterSatisfies<T>(s: seq<T>, p: T -> bool)
    ensures forall i :: 0 <= i < |Filter(s, p)| ==> p(Filter(s, p)[i])
  {
    if s != [] {
      FilterSatisfies(s[..|s| - 1], p);
    }
  }

  /** Filtering twice by the same predicate is filtering once. */
  lemma FilterIdempotent<T>(s: seq<T>, p: T -> bool)
    ensures Filter(Filter(s, p), p) == Filter(s, p)
  {
    FilterSatisfies(s, p);
    FilterKeepsAll(Filter(s, p), p);
  }

  /** `[f(x) for x in s]` */
  function Map<T, U>(s: seq<T>, f: T -> U): (r: seq<U>)
    ensures |r| == |s|
    ensures forall i :: 0 <= i < |s| ==> r[i] == f(s[i])
  {
    seq(|s|, i requires 0 <= i < |s| => f(s[i]))
  }

  lemma MapAppend<T, U>(a: seq<T>, b: seq<T>, f: T -> U)
    ensures Map(a + b, f) == Map(a, f) + Map(b, f)
  {
  }

  /** One more element of `s` adds its image to a filtered map exactly
      when it passes the filter. */
  lemma FilterMapStep<T, U>(s: seq<T>, i: nat, p: T -> bool, f: T -> U)
    requires i < |s|
    ensures Map(Filter(s[..i + 1], p), f) == Map(Filter(s[..i], p), f) + (if p(s[i]) then [f(s[i])] else [])
  {
    assert s[..i + 1][..i] == s[..i];
    var kept := Filter(s[..i], p);
    if p(s[i]) {
      MapAppend(kept, [s[i]], f);
    } else {
      assert Filter(s[..i + 1], p) == kept;
    }
  }

  /** The concatenation of `f(x)` for every `x` of `s`, in order: a loop
      that extends a list once per element. */
  function FlatMap<T, U>(s: seq<T>, f: T -> seq<U>): seq<U>
  {
    if s == [] then [] else FlatMap(s[..|s| - 1], f) + f(s[|s| - 1])
  }

  /** Everything in a flat map comes from the image of one element. */
  lemma {:induction false} FlatMapMember<T, U>(s: seq<T>, f: T -> seq<U>, u: U)
    requires u in FlatMap(s, f)
    ensures exists i :: 0 <= i < |s| && u in f(s[i])
  {
    var s' := s[..|s| - 1];
    if u !in f(s[|s| - 1]) {
      FlatMapMember(s', f, u);
      var i :| 0 <= i < |s'| && u in f(s'[i]);
      assert s[i] == s'[i];
    }
  }

  /** One more element appends its image to a flat map. */
  lemma FlatMapStep<T, U>(s: seq<T>, i: nat, f: T -> seq<U>)
    requires i < |s|
    ensures FlatMap(s[..i + 1], f) == FlatMap(s[..i], f) + f(s[i])
  {
    assert s[..i + 1][..i] == s[..i];
  }

  /** One more element appends its image to a map. */
  lemma MapStep<T, U>(s: seq<T>, i: nat, f: T -> U)
    requires i < |s|
    ensures Map(s[..i + 1], f) == Map(s[..i], f) + [f(s[i])]
  {
    assert s[..i + 1] == s[..i] + [s[i]];
    MapAppend(s[..i], [s[i]], f);
  }

  /** Conversely, the image of every element is kept in the flat map. */
  lemma {:induction false} FlatMapContains<T, U>(s: seq<T>, f: T -> seq<U>, i: nat, u: U)
    requires i < |s| && u in f(s[i])
    ensures u in FlatMap(s, f)
  {
    var s' := s[..|s| - 1];
    if i < |s| - 1 {
      assert s'[i] == s[i];
      FlatMapContains(s', f, i, u);
    }
  }

  /** The flat map is no longer than the sum of the bound on each image. */
  lemma {:induction false} FlatMapLength<T, U>(s: seq<T>, f: T -> seq<U>, bound: nat)
    requires forall i :: 0 <= i < |s| ==> |f(s[i])| <= bound
    ensures |FlatMap(s, f)| <= |s| * bound
  {
    if s != [] {
      FlatMapLength(s[..|s| - 1], f, bound);
    }
  }

  /** `sum(w(x) for x in s)` */
  function SumOf<T>(s: seq<T>, w: T -> int): int
  {
    if s == [] then 0 else SumOf(s[..|s| - 1], w) + w(s[|s| - 1])
  }

  lemma {:induction false} SumOfAppend<T>(a: seq<T>, b: seq<T>, w: T -> int)
    ensures SumOf(a + b, w) == SumOf(a, w) + SumOf(b, w)
    decreases |b|
  {
    if b == [] {
      assert a + b == a;
    } else {
      assert (a + b)[..|a + b| - 1] == a + b[..|b| - 1];
      SumOfAppend(a, b[..|b| - 1], w);
    }
  }

  /** A sum does not depend on the order of its terms. */
  lemma {:induction false} SumOfPermutation<T>(a: seq<T>, b: seq<T>, w: T -> int)
    requires multiset(a) == multiset(b)
    ensures SumOf(a, w) == SumOf(b, w)
    decreases |a|
  {
    if a != [] {
      var x := a[|a| - 1];
      var a' := a[..|a| - 1];
      assert a == a' + [x];
      assert x in multiset(b);
      var k :| 0 <= k < |b| && b[k] == x;
      SumOfRemove(b, k, w);
      SumOfPermutation(a', b[..k] + b[k + 1..], w);
    } else {
      assert b == [];
    }
  }

  /** Taking one term out of a sum. */
  lemma SumOfRemove<T>(b: seq<T>, k: nat, w: T -> int)
    requires k < |b|
    ensures multiset(b[..k] + b[k + 1..]) == multiset(b) - multiset{b[k]}
    ensures SumOf(b, w) == SumOf(b[..k] + b[k + 1..], w) + w(b[k])
  {
    var b1, x, b2 := b[..k], b[k], b[k + 1..];
    SplitAt(b, k);
    SumOfAppend(b1 + [x], b2, w);
    SumOfSingle(b1, x, w);
    SumOfAppend(b1, b2, w);
  }

  lemma SplitAt<T>(b: seq<T>, k: nat)
    requires k < |b|
    ensures b == (b[..k] + [b[k]]) + b[k + 1..]
    ensures multiset(b[..k] + b[k + 1..]) == multiset(b) - multiset{b[k]}
  {
    assert b == (b[..k] + [b[k]]) + b[k + 1..];
  }

  lemma SumOfSingle<T>(s: seq<T>, x: T, w: T -> int)
    ensures SumOf(s + [x], w) == SumOf(s, w) + w(x)
  {
    assert (s + [x])[..|s|] == s;
  }

  /** The elements of `s` whose `f`-image has been met. */
  function Seen<T, K(==)>(s: seq<T>, f: T -> K): set<K>
  {
    if s == [] then {} else Seen(s[..|s| - 1], f) + {f(s[|s| - 1])}
  }

  lemma {:induction false} SeenIff<T, K>(s: seq<T>, f: T -> K, k: K)
    ensures k in Seen(s, f) <==> exists i :: 0 <= i < |s| && f(s[i]) == k
  {
    if s != [] {
      var s' := s[..|s| - 1];
      SeenIff(s', f, k);
      if k in Seen(s', f) {
        var i :| 0 <= i < |s'| && f(s'[i]) == k;
        assert s[i] == s'[i];
      }
      if exists i :: 0 <= i < |s| && f(s[i]) == k {
        var i :| 0 <= i < |s| && f(s[i]) == k;
        if i < |s| - 1 {
          assert s'[i] == s[i];
        }
      }
    }
  }

  /** The classes met do not depend on the order of the elements. */
  lemma SeenPermutation<T, K>(a: seq<T>, b: seq<T>, f: T -> K)
    requires multiset(a) == multiset(b)
    ensures Seen(a, f) == Seen(b, f)
  {
    forall k: K ensures k in Seen(a, f) ==> k in Seen(b, f)
    {
      SeenIff(a, f, k);
      SeenIff(b, f, k);
      if k in Seen(a, f) {
        var i :| 0 <= i < |a| && f(a[i]) == k;
        assert a[i] in multiset(b);
      }
    }
    forall k: K ensures k in Seen(b, f) ==> k in Seen(a, f)
    {
      SeenIff(a, f, k);
      SeenIff(b, f, k);
      if k in Seen(b, f) {
        var i :| 0 <= i < |b| && f(b[i]) == k;
        assert b[i] in multiset(a);
      }
    }
    SetExt(Seen(a, f), Seen(b, f));
  }

  /** Sets with the same members are equal. */
  lemma SetExt<K>(a: set<K>, b: set<K>)
    requires forall k: K :: k in a <==> k in b
    ensures a == b
  {
  }

  /** The first element of each class of `f`, in order of first occurrence:
      the loop `if f(x) not in seen: seen.add(f(x)); out.append(x)`. */
  function DistinctBy<T, K(==)>(s: seq<T>, f: T -> K): seq<T>
  {
    if s == [] then []
    else
      var p := s[..|s| - 1];
      if f(s[|s| - 1]) in Seen(p, f) then DistinctBy(p, f) else DistinctBy(p, f) + [s[|s| - 1]]
  }

  /** No two elements of `s` fall in the same class. */
  predicate DistinctKeys<T, K(==)>(s: seq<T>, f: T -> K)
  {
    forall i, j :: 0 <= i < j < |s| ==> f(s[i]) != f(s[j])
  }

  /** The representatives cover every class, one each, drawn from `s` in
      order; there are as many as there are classes. */
  lemma {:induction false} DistinctByProps<T, K>(s: seq<T>, f: T -> K)
    ensures Seen(DistinctBy(s, f), f) == Seen(s, f)
    ensures DistinctKeys(DistinctBy(s, f), f)
    ensures SubseqOf(DistinctBy(s, f), s)
    ensures |DistinctBy(s, f)| == |Seen(s, f)|
  {
    if s != [] {
      var p := s[..|s| - 1];
      var x := s[|s| - 1];
      var d := DistinctBy(p, f);
      DistinctByProps(p, f);
      assert s == p + [x];
      SubseqOfExtend(d, p, x);
      if f(x) !in Seen(p, f) {
        DistinctByStep(d, x, f);
      }
    }
  }

  /** Appending an element of a new class keeps the classes distinct. */
  lemma DistinctByStep<T, K>(d: seq<T>, x: T, f: T -> K)
    requires DistinctKeys(d, f) && f(x) !in Seen(d, f)
    ensures DistinctKeys(d + [x], f)
    ensures Seen(d + [x], f) == Seen(d, f) + {f(x)}
    ensures SubseqOf(d + [x], d + [x])
  {
    var r := d + [x];
    assert r[..|r| - 1] == d;
    forall i | 0 <= i < |d| ensures f(r[i]) != f(x) {
      SeenIff(d, f, f(d[i]));
      assert r[i] == d[i];
    }
    SubseqOfRefl(r);
  }

  /** A sequence whose classes are already distinct is its own set of
      representatives. */
  lemma {:induction false} DistinctByUnchanged<T, K>(s: seq<T>, f: T -> K)
    requires DistinctKeys(s, f)
    ensures DistinctBy(s, f) == s
  {
    if s != [] {
      var p := s[..|s| - 1];
      var x := s[|s| - 1];
      assert DistinctKeys(p, f) by {
        forall i, j | 0 <= i < j < |p| ensures f(p[i]) != f(p[j]) {
          assert p[i] == s[i] && p[j] == s[j];
        }
      }
      DistinctByUnchanged(p, f);
      assert f(x) !in Seen(p, f) by {
        forall i | 0 <= i < |p| ensures f(p[i]) != f(x) {
          assert p[i] == s[i];
        }
        SeenIff(p, f, f(x));
      }
      assert p + [x] == s;
    }
  }

  /** Removing duplicates twice is removing them once. */
  lemma DistinctByIdempotent<T, K>(s: seq<T>, f: T -> K)
    ensures DistinctBy(DistinctBy(s, f), f) == DistinctBy(s, f)
  {
    DistinctByProps(s, f);
    DistinctByUnchanged(DistinctBy(s, f), f);
  }
}
