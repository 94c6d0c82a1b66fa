/**
 * The ranking step of the scorer: Python's `sorted(..., key=utility,
 * reverse=True)`, a stable sort into non-increasing utility. Each scored entry
 * carries the position it had in the unsorted list, so "equal utilities keep
 * their input order" can be stated as "equal utilities keep increasing indices".
 */
module Sorting {

  /** `(index, item, utility)`, the tuple the scorer builds for each candidate. */
  datatype Scored<T> = Scored(index: int, item: T, utility: real)

  predicate SortedDesc<T>(s: seq<Scored<T>>) {
    forall i, j :: 0 <= i < j < |s| ==> s[i].utility >= s[j].utility
  }

  /** Entries with the same utility appear in increasing index order. */
  predicate StableOrder<T>(s: seq<Scored<T>>) {
    forall i, j :: 0 <= i < j < |s| && s[i].utility == s[j].utility ==> s[i].index < s[j].index
  }

  predicate IndicesIncreasing<T>(s: seq<Scored<T>>) {
    forall i, j :: 0 <= i < j < |s| ==> s[i].index < s[j].index
  }

  /** `x` placed in front of the first entry whose utility does not exceed its own. */
  function Insert<T>(x: Scored<T>, t: seq<Scored<T>>): (r: seq<Scored<T>>)
    ensures |r| == |t| + 1
    ensures multiset(r) == multiset(t) + multiset{x}
  {
    if |t| == 0 then [x]
    else if t[0].utility <= x.utility then [x] + t
    else
      assert t == [t[0]] + t[1..];
      [t[0]] + Insert(x, t[1..])
  }

  /** The stable descending sort of `s`. */
  function SortDesc<T>(s: seq<Scored<T>>): (r: seq<Scored<T>>)
    ensures |r| == |s|
    ensures multiset(r) == multiset(s)
  {
    if |s| == 0 then []
    else
      assert s == [s[0]] + s[1..];
      Insert(s[0], SortDesc(s[1..]))
  }

  lemma {:induction false} InsertSorted<T>(x: Scored<T>, t: seq<Scored<T>>)
    requires SortedDesc(t)
    ensures SortedDesc(Insert(x, t))
  {
    if |t| > 0 && t[0].utility > x.utility {
      InsertSorted(x, t[1..]);
      InsertBounded(x, t[1..], t[0].utility);
    }
  }

  /** Inserting below a bound keeps every utility below it. */
  lemma {:induction false} InsertBounded<T>(x: Scored<T>, t: seq<Scored<T>>, b: real)
    requires x.utility <= b && forall k :: 0 <= k < |t| ==> t[k].utility <= b
    ensures forall k :: 0 <= k < |Insert(x, t)| ==> Insert(x, t)[k].utility <= b
  {
    if |t| > 0 && t[0].utility > x.utility {
      InsertBounded(x, t[1..], b);
    }
  }

  lemma {:induction false} InsertStable<T>(x: Scored<T>, t: seq<Scored<T>>)
    requires SortedDesc(t) && StableOrder(t)
    requires forall k :: 0 <= k < |t| ==> x.index < t[k].index
    ensures StableOrder(Insert(x, t))
  {
    if |t| > 0 && t[0].utility > x.utility {
      InsertStable(x, t[1..]);
      var rest := Insert(x, t[1..]);
      forall k | 0 <= k < |rest| && t[0].utility == rest[k].utility
        ensures t[0].index < rest[k].index
      {
        assert rest[k] in multiset(t[1..]) + multiset{x};
        if rest[k] != x {
          assert rest[k] in t[1..];
        }
      }
    }
  }

  /** The sort orders by non-increasing utility and keeps input order among equal
      utilities, given that the input's indices increase. */
  lemma {:induction false} SortDescCorrect<T>(s: seq<Scored<T>>)
    ensures SortedDesc(SortDesc(s))
    ensures IndicesIncreasing(s) ==> StableOrder(SortDesc(s))
  {
    if |s| > 0 {
      var rest := SortDesc(s[1..]);
      SortDescCorrect(s[1..]);
      InsertSorted(s[0], rest);
      if IndicesIncreasing(s) {
        assert IndicesIncreasing(s[1..]);
        forall k | 0 <= k < |rest|
          ensures s[0].index < rest[k].index
        {
          assert rest[k] in multiset(s[1..]);
          assert rest[k] in s[1..];
        }
        InsertStable(s[0], rest);
      }
    }
  }

  /** Sorting a sorted list changes nothing. */
  lemma {:induction false} SortDescOfSorted<T>(s: seq<Scored<T>>)
    requires SortedDesc(s)
    ensures SortDesc(s) == s
  {
    if |s| > 0 {
      assert SortedDesc(s[1..]);
      SortDescOfSorted(s[1..]);
      if |s| > 1 {
        assert s[1].utility <= s[0].utility;
      }
    }
  }

  /** A list without repeated elements holds each value at most once. */
  lemma {:induction false} CountAtMostOne<T>(s: seq<T>, x: T)
    requires forall i, j :: 0 <= i < j < |s| ==> s[i] != s[j]
    ensures multiset(s)[x] <= 1
  {
    if |s| > 0 {
      var init := s[..|s| - 1];
      assert s == init + [s[|s| - 1]];
      CountAtMostOne(init, x);
      if s[|s| - 1] == x {
        assert x !in init;
      }
    }
  }

  /** A value at two positions of a list occurs at least twice in it. */
  lemma CountTwoPositions<T>(s: seq<T>, i: int, j: int)
    requires 0 <= i < j < |s| && s[i] == s[j]
    ensures multiset(s)[s[i]] >= 2
  {
    assert s == s[..i] + [s[i]] + s[i + 1..j] + [s[j]] + s[j + 1..];
  }

  /** Sorting a list whose entry at position `k` has index `k` permutes the positions:
      every entry of the result is one of the input's, every input entry is in the
      result, and no index appears twice. */
  lemma SortDescPermutesIndices<T>(s: seq<Scored<T>>)
    requires forall k :: 0 <= k < |s| ==> s[k].index == k
    ensures var r := SortDesc(s);
      && (forall j :: 0 <= j < |r| ==> 0 <= r[j].index < |s| && r[j] == s[r[j].index])
      && (forall k :: 0 <= k < |s| ==> s[k] in r)
      && (forall i, j :: 0 <= i < j < |r| ==> r[i].index != r[j].index)
  {
    SortDescEntriesFromInput(s);
    SortDescCoversInput(s);
    SortDescIndicesDistinct(s);
  }

  lemma SortDescEntriesFromInput<T>(s: seq<Scored<T>>)
    requires forall k :: 0 <= k < |s| ==> s[k].index == k
    ensures var r := SortDesc(s);
      forall j :: 0 <= j < |r| ==> 0 <= r[j].index < |s| && r[j] == s[r[j].index]
  {
    var r := SortDesc(s);
    forall j | 0 <= j < |r|
      ensures 0 <= r[j].index < |s| && r[j] == s[r[j].index]
    {
      assert r[j] in multiset(s);
    }
  }

  lemma SortDescCoversInput<T>(s: seq<Scored<T>>)
    ensures forall k :: 0 <= k < |s| ==> s[k] in SortDesc(s)
  {
    var r := SortDesc(s);
    forall k | 0 <= k < |s|
      ensures s[k] in r
    {
      assert s[k] in multiset(r);
    }
  }

  lemma SortDescIndicesDistinct<T>(s: seq<Scored<T>>)
    requires forall k :: 0 <= k < |s| ==> s[k].index == k
    ensures var r := SortDesc(s);
      forall i, j :: 0 <= i < j < |r| ==> r[i].index != r[j].index
  {
    var r := SortDesc(s);
    forall a, b | 0 <= a < b < |s|
      ensures s[a] != s[b]
    {
      assert s[a].index != s[b].index;
    }
    PermutationKeepsDistinct(s, r);
    forall i, j | 0 <= i < j < |r|
      ensures r[i].index != r[j].index
    {
      assert r[i] in multiset(s) && r[j] in multiset(s);
      assert r[i] != r[j];
    }
  }

  /** A rearrangement of a list without repeated elements has none either. */
  lemma PermutationKeepsDistinct<T>(s: seq<T>, r: seq<T>)
    requires multiset(r) == multiset(s)
    requires forall a, b :: 0 <= a < b < |s| ==> s[a] != s[b]
    ensures forall i, j :: 0 <= i < j < |r| ==> r[i] != r[j]
  {
    forall i, j | 0 <= i < j < |r|
      ensures r[i] != r[j]
    {
      if r[i] == r[j] {
        CountTwoPositions(r, i, j);
        CountAtMostOne(s, r[i]);
        assert false;
      }
    }
  }
}
