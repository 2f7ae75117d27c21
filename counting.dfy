/** `collections.Counter` over cells: per-value counts, and `most_common()`
    (counts in non-increasing order, ties in order of first occurrence). */
module Counting {
  import opened Values
  import opened Seqs
  import opened Sorting

  /** `Counter(s)[k]` for a key `k`: how many cells of `s` are `==` to it. */
  function Count(s: seq<Cell>, k: Cell): (n: nat)
    ensures n <= |s|
  {
    if s == [] then 0 else Count(s[..|s| - 1], k) + (if Key(s[|s| - 1]) == k then 1 else 0)
  }

  lemma {:induction false} CountLast(s: seq<Cell>, x: Cell, k: Cell)
    ensures Count(s + [x], k) == Count(s, k) + (if Key(x) == k then 1 else 0)
  {
    assert (s + [x])[..|s|] == s;
  }

  /** A value is counted iff it occurs. */
  lemma {:induction false} CountPositive(s: seq<Cell>, k: Cell)
    ensures Count(s, k) > 0 <==> k in Seen(s, Key)
  {
    if s != [] {
      CountPositive(s[..|s| - 1], k);
    }
  }

  /** The counts of the classes listed in `d`, added up. */
  function TotalCount(d: seq<Cell>, s: seq<Cell>): nat
  {
    if d == [] then 0 else TotalCount(d[..|d| - 1], s) + Count(s, Key(d[|d| - 1]))
  }

  lemma {:induction false} TotalCountEmpty(d: seq<Cell>)
    ensures TotalCount(d, []) == 0
  {
    if d != [] {
      TotalCountEmpty(d[..|d| - 1]);
    }
  }

  /** One more value raises the total by one exactly when `d` lists its
      class, and `d` lists each class at most once. */
  lemma {:induction false} TotalCountStep(d: seq<Cell>, s: seq<Cell>, x: Cell)
    requires DistinctKeys(d, Key)
    ensures TotalCount(d, s + [x]) == TotalCount(d, s) + (if Key(x) in Seen(d, Key) then 1 else 0)
  {
    if d != [] {
      var d', y := d[..|d| - 1], d[|d| - 1];
      assert DistinctKeys(d', Key);
      TotalCountStep(d', s, x);
      CountLast(s, x, Key(y));
      SeenIff(d', Key, Key(y));
      assert Key(y) !in Seen(d', Key);
    }
  }

  /** Adding up the counts of a list of distinct classes that covers every
      value of `s` counts every value once. */
  lemma {:induction false} TotalCountCovers(d: seq<Cell>, s: seq<Cell>)
    requires DistinctKeys(d, Key) && Seen(s, Key) <= Seen(d, Key)
    ensures TotalCount(d, s) == |s|
  {
    if s == [] {
      TotalCountEmpty(d);
    } else {
      var s', x := s[..|s| - 1], s[|s| - 1];
      assert s == s' + [x];
      TotalCountCovers(d, s');
      TotalCountStep(d, s', x);
    }
  }

  /** `Counter(s).items()` in insertion order: the first cell of each class
      with the class's count. */
  function Tally(s: seq<Cell>): (t: seq<(Cell, nat)>)
    ensures |t| == |DistinctBy(s, Key)|
    ensures forall i :: 0 <= i < |t| ==> t[i].0 == DistinctBy(s, Key)[i] && t[i].1 == Count(s, Key(t[i].0))
  {
    var d := DistinctBy(s, Key);
    seq(|d|, i requires 0 <= i < |d| => (d[i], Count(s, Key(d[i]))))
  }

  function EntryCount(e: (Cell, nat)): int
  {
    e.1
  }

  function CountKey(e: (Cell, nat)): SortKey
  {
    Number(e.1 as real)
  }

  /** `Counter(s).most_common()`: the tally sorted by count, largest first;
      the sort is stable, so ties keep their first-occurrence order. */
  function MostCommon(s: seq<Cell>): seq<(Cell, nat)>
  {
    SortBy(Tally(s), CountKey, true)
  }

  lemma {:induction false} TallySum(s: seq<Cell>, i: nat)
    requires i <= |Tally(s)|
    ensures SumOf(Tally(s)[..i], EntryCount) == TotalCount(DistinctBy(s, Key)[..i], s)
  {
    if i > 0 {
      var t, d := Tally(s), DistinctBy(s, Key);
      TallySum(s, i - 1);
      assert t[..i][..i - 1] == t[..i - 1];
      assert d[..i][..i - 1] == d[..i - 1];
    }
  }

  /** Entry `i` of `most_common()` holds a value of `s` with its true
      count. */
  lemma {:induction false} MostCommonEntry(s: seq<Cell>, i: nat)
    requires i < |MostCommon(s)|
    ensures MostCommon(s)[i].0 in s && MostCommon(s)[i].1 == Count(s, Key(MostCommon(s)[i].0))
  {
    var t, d, r := Tally(s), DistinctBy(s, Key), MostCommon(s);
    DistinctByProps(s, Key);
    SubseqOfMultiset(d, s);
    assert r[i] in multiset(t);
    var j :| 0 <= j < |t| && t[j] == r[i];
    assert d[j] in multiset(s);
  }

  /** Every entry of `most_common()` holds a value of `s` with its true
      count. */
  lemma MostCommonEntries(s: seq<Cell>)
    ensures forall i :: 0 <= i < |MostCommon(s)| ==>
      MostCommon(s)[i].0 in s && MostCommon(s)[i].1 == Count(s, Key(MostCommon(s)[i].0))
  {
    forall i | 0 <= i < |MostCommon(s)|
      ensures MostCommon(s)[i].0 in s && MostCommon(s)[i].1 == Count(s, Key(MostCommon(s)[i].0))
    {
      MostCommonEntry(s, i);
    }
  }

  /** Counts never increase along `most_common()`. */
  lemma MostCommonOrdered(s: seq<Cell>)
    ensures forall i, j :: 0 <= i < j < |MostCommon(s)| ==> MostCommon(s)[i].1 >= MostCommon(s)[j].1
  {
    var r := MostCommon(s);
    forall i, j | 0 <= i < j < |r| ensures r[i].1 >= r[j].1
    {
      assert InOrder(CountKey(r[i]), CountKey(r[j]), true);
    }
  }

  /** `most_common()` has one entry per distinct value of `s`: as many
      entries as classes, and an entry for the class of every value. */
  lemma {:induction false} MostCommonCovers(s: seq<Cell>)
    ensures |MostCommon(s)| == |Seen(s, Key)|
    ensures forall x :: x in s ==> exists i :: 0 <= i < |MostCommon(s)| && Key(MostCommon(s)[i].0) == Key(x)
  {
    var t, d, r := Tally(s), DistinctBy(s, Key), MostCommon(s);
    DistinctByProps(s, Key);
    forall x | x in s
      ensures exists i :: 0 <= i < |r| && Key(r[i].0) == Key(x)
    {
      var k :| 0 <= k < |s| && s[k] == x;
      SeenIff(s, Key, Key(x));
      SeenIff(d, Key, Key(x));
      var j :| 0 <= j < |d| && Key(d[j]) == Key(x);
      assert t[j] in multiset(r);
      var i :| 0 <= i < |r| && r[i] == t[j];
    }
  }

  /** The counts of `most_common()` add up to `|s|`. */
  lemma {:induction false} MostCommonSum(s: seq<Cell>)
    ensures SumOf(MostCommon(s), EntryCount) == |s|
  {
    var t, d, r := Tally(s), DistinctBy(s, Key), MostCommon(s);
    DistinctByProps(s, Key);
    TallySum(s, |t|);
    assert t[..|t|] == t && d[..|t|] == d;
    TotalCountCovers(d, s);
    SumOfPermutation(t, r, EntryCount);
  }

  /** The first entry of `most_common(1)`: the most frequent value, the
      earliest-seen one on ties. */
  function Mode(s: seq<Cell>): (m: (Cell, nat))
    requires s != []
  {
    MostCommonCovers(s);
    assert s[0] in s;
    MostCommon(s)[0]
  }

  /** No value of `s` is counted more often than the first entry of
      `most_common()`. */
  lemma {:induction false} FirstIsMostFrequent(s: seq<Cell>, x: Cell, r: seq<(Cell, nat)>)
    requires x in s && r == MostCommon(s)
    ensures r != [] && Count(s, Key(x)) <= r[0].1
  {
    MostCommonCovers(s);
    var i :| 0 <= i < |r| && Key(r[i].0) == Key(x);
    MostCommonEntry(s, i);
    assert r[i].1 == Count(s, Key(x));
    if i != 0 {
      assert InOrder(CountKey(r[0]), CountKey(r[i]), true);
    }
  }

  /** The mode occurs in `s`, its count is its true count, and no value of
      `s` occurs more often. */
  lemma {:induction false} ModeIsMostFrequent(s: seq<Cell>)
    requires s != []
    ensures Mode(s).0 in s && Mode(s).1 == Count(s, Key(Mode(s).0))
    ensures 0 < Mode(s).1 <= |s|
    ensures forall x :: x in s ==> Count(s, Key(x)) <= Mode(s).1
  {
    var r := MostCommon(s);
    assert s[0] in s;
    FirstIsMostFrequent(s, s[0], r);
    assert Mode(s) == r[0];
    forall x | x in s ensures Count(s, Key(x)) <= r[0].1
    {
      FirstIsMostFrequent(s, x, r);
    }
    MostCommonEntry(s, 0);
    CountPositive(s, Key(r[0].0));
    SeenIff(s, Key, Key(r[0].0));
  }
}
