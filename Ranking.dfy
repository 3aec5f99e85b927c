/** What both `recommend` methods do after predicting: pick the unrated
    columns, sort the (item, predicted rating) pairs by rating with Python's
    stable `list.sort(reverse=True)`, and keep the slice `[:n]`. */
module Ranking {

  /** An (item id, predicted rating) pair. */
  type Pair = (int, real)

  /** `row[row == 0].index`: the items whose entry is exactly 0, in column order. */
  function Unrated(row: seq<real>, items: seq<int>): seq<int>
    requires |row| == |items|
  {
    if row == [] then []
    else
      Unrated(row[..|row| - 1], items[..|items| - 1]) +
      (if row[|row| - 1] == 0.0 then [items[|items| - 1]] else [])
  }

  /** An id is returned exactly when it labels a 0 entry. */
  lemma {:induction false} UnratedMembers(row: seq<real>, items: seq<int>)
    requires |row| == |items|
    ensures forall i :: i in Unrated(row, items) <==>
              exists j :: 0 <= j < |row| && items[j] == i && row[j] == 0.0
  {
    if row != [] {
      var n := |row| - 1;
      UnratedMembers(row[..n], items[..n]);
      forall i | (exists j :: 0 <= j < |row| && items[j] == i && row[j] == 0.0)
        ensures i in Unrated(row, items)
      {
        var j :| 0 <= j < |row| && items[j] == i && row[j] == 0.0;
        if j < n {
          assert items[..n][j] == i && row[..n][j] == 0.0;
        }
      }
      forall i | i in Unrated(row, items)
        ensures exists j :: 0 <= j < |row| && items[j] == i && row[j] == 0.0
      {
        if i in Unrated(row[..n], items[..n]) {
          var j :| 0 <= j < n && items[..n][j] == i && row[..n][j] == 0.0;
          assert items[j] == i && row[j] == 0.0;
        } else {
          assert items[n] == i && row[n] == 0.0;
        }
      }
    }
  }

  /** Place p before the first pair whose rating is not above p's. */
  function Insert(p: Pair, s: seq<Pair>): (r: seq<Pair>)
    ensures multiset(r) == multiset{p} + multiset(s)
  {
    if s == [] || p.1 >= s[0].1 then [p] + s
    else
      assert s == [s[0]] + s[1..];
      [s[0]] + Insert(p, s[1..])
  }

  /** `list.sort(key=rating, reverse=True)`. */
  function SortDesc(s: seq<Pair>): seq<Pair> {
    if s == [] then [] else Insert(s[0], SortDesc(s[1..]))
  }

  predicate Descending(s: seq<Pair>) {
    forall a, b :: 0 <= a < b < |s| ==> s[a].1 >= s[b].1
  }

  lemma {:induction false} InsertDescending(p: Pair, s: seq<Pair>)
    requires Descending(s)
    ensures Descending(Insert(p, s))
  {
    if s != [] && p.1 < s[0].1 {
      InsertDescending(p, s[1..]);
      var t := Insert(p, s[1..]);
      assert multiset(t) == multiset{p} + multiset(s[1..]);
      forall b | 0 <= b < |t| ensures s[0].1 >= t[b].1 {
        assert t[b] in multiset(t);
        if t[b] != p {
          assert t[b] in multiset(s[1..]);
          assert t[b] in s[1..];
        }
      }
    }
  }

  /** The sorted list is a permutation of the input in non-increasing order. */
  lemma SortDescSorted(s: seq<Pair>)
    ensures Descending(SortDesc(s))
    ensures multiset(SortDesc(s)) == multiset(s)
  {
    SortDescDescending(s);
    SortDescPermutation(s);
  }

  lemma {:induction false} SortDescDescending(s: seq<Pair>)
    ensures Descending(SortDesc(s))
    decreases |s|, 1
  {
    if s != [] {
      SortDescDescendingStep(s);
    }
  }

  lemma {:induction false} SortDescDescendingStep(s: seq<Pair>)
    requires s != []
    ensures Descending(SortDesc(s))
    decreases |s|, 0
  {
    SortDescDescending(s[1..]);
    InsertDescending(s[0], SortDesc(s[1..]));
  }

  lemma {:induction false} SortDescPermutation(s: seq<Pair>)
    ensures multiset(SortDesc(s)) == multiset(s)
    decreases |s|, 1
  {
    if s != [] {
      SortDescPermutationStep(s);
    }
  }

  lemma {:induction false} SortDescPermutationStep(s: seq<Pair>)
    requires s != []
    ensures multiset(SortDesc(s)) == multiset(s)
    decreases |s|, 0
  {
    SortDescPermutation(s[1..]);
    assert s == [s[0]] + s[1..];
  }

  /** The pairs whose rating is exactly v, in order. */
  function WithRating(s: seq<Pair>, v: real): seq<Pair> {
    if s == [] then []
    else (if s[0].1 == v then [s[0]] else []) + WithRating(s[1..], v)
  }

  lemma {:induction false} InsertWithRating(p: Pair, s: seq<Pair>, v: real)
    requires Descending(s)
    ensures WithRating(Insert(p, s), v) ==
            if p.1 == v then [p] + WithRating(s, v) else WithRating(s, v)
  {
    if s == [] || p.1 >= s[0].1 {
      assert Insert(p, s)[1..] == s;
    } else {
      InsertWithRating(p, s[1..], v);
      assert Insert(p, s)[1..] == Insert(p, s[1..]);
      if p.1 == v {
        assert s[0].1 != v;
      }
    }
  }

  /** Ties keep their input order: for every rating value, the pairs with that
      rating appear in the sorted list exactly as in the input. */
  lemma {:induction false} SortDescStable(s: seq<Pair>, v: real)
    ensures WithRating(SortDesc(s), v) == WithRating(s, v)
    decreases |s|, 1
  {
    if s != [] {
      SortDescStableStep(s, v);
    }
  }

  lemma {:induction false} SortDescStableStep(s: seq<Pair>, v: real)
    requires s != []
    ensures WithRating(SortDesc(s), v) == WithRating(s, v)
    decreases |s|, 0
  {
    SortDescStable(s[1..], v);
    SortDescSorted(s[1..]);
    InsertWithRating(s[0], SortDesc(s[1..]), v);
  }

  /** Python's `s[:n]`: a negative n drops pairs from the end. */
  function SliceTo(s: seq<Pair>, n: int): (r: seq<Pair>)
    ensures |r| <= |s| && r == s[..|r|]
    ensures |r| == if n >= 0 then (if n < |s| then n else |s|)
                   else if |s| + n > 0 then |s| + n else 0
  {
    if n >= 0 then (if n < |s| then s[..n] else s)
    else if |s| + n > 0 then s[..|s| + n] else []
  }

  /** `predictions.sort(...)` followed by `predictions[:n]`. */
  function Rank(ps: seq<Pair>, n: int): seq<Pair> {
    SliceTo(SortDesc(ps), n)
  }

  lemma {:induction false} WithRatingPrefix(s: seq<Pair>, k: nat, v: real)
    requires k <= |s|
    ensures WithRating(s, v) == WithRating(s[..k], v) + WithRating(s[k..], v)
  {
    if k > 0 {
      WithRatingPrefix(s[1..], k - 1, v);
      assert s[..k][1..] == s[1..][..k - 1];
      assert s[k..] == s[1..][k - 1..];
    }
  }

  /** `recommend` returns n predictions, or all of them when fewer were
      made; a negative n drops |n| of them from the end. */
  lemma RankCount(ps: seq<Pair>, n: int)
    ensures n >= 0 ==> |Rank(ps, n)| == if n < |ps| then n else |ps|
    ensures n < 0 ==> |Rank(ps, n)| == if |ps| + n > 0 then |ps| + n else 0
  {
    SortDescSorted(ps);
    assert |SortDesc(ps)| == |multiset(SortDesc(ps))| == |multiset(ps)| == |ps|;
  }

  /** What `sorted(..., reverse=True)[:n]` promises of any list of
      predictions: non-increasing, no prediction left out rated above a kept
      one, and ties kept in the order they were made. */
  lemma RankOrdered(ps: seq<Pair>, n: int)
    ensures Descending(Rank(ps, n))
    ensures forall x, y :: x in Rank(ps, n) && y in multiset(ps) - multiset(Rank(ps, n)) ==> x.1 >= y.1
    ensures forall v :: WithRating(Rank(ps, n), v) <= WithRating(ps, v)
  {
    RankSorted(ps, n);
    RankTop(ps, n);
    forall v ensures WithRating(Rank(ps, n), v) <= WithRating(ps, v) {
      RankTies(ps, n, v);
    }
  }

  /** The ranking is non-increasing and holds only predictions that were made,
      each as often as it was made. */
  lemma RankSorted(ps: seq<Pair>, n: int)
    ensures Descending(Rank(ps, n))
    ensures multiset(Rank(ps, n)) <= multiset(ps)
  {
    var sorted := SortDesc(ps);
    SortDescSorted(ps);
    var r := Rank(ps, n);
    assert sorted == r + sorted[|r|..];
    assert multiset(sorted) == multiset(r) + multiset(sorted[|r|..]);
  }

  /** Every prediction the slice leaves out is rated no higher than any kept one. */
  lemma RankTop(ps: seq<Pair>, n: int)
    ensures forall x, y :: x in Rank(ps, n) && y in multiset(ps) - multiset(Rank(ps, n)) ==> x.1 >= y.1
  {
    var sorted := SortDesc(ps);
    SortDescSorted(ps);
    var r := Rank(ps, n);
    var k := |r|;
    assert sorted == r + sorted[k..];
    assert multiset(sorted) == multiset(r) + multiset(sorted[k..]);
    forall x, y | x in r && y in multiset(ps) - multiset(r) ensures x.1 >= y.1 {
      assert y in sorted[k..];
      DescendingSplit(sorted, k, x, y);
    }
  }

  /** In a non-increasing list, everything before a cut is rated at least as
      high as everything after it. */
  lemma DescendingSplit(s: seq<Pair>, k: nat, x: Pair, y: Pair)
    requires Descending(s) && k <= |s|
    requires x in s[..k] && y in s[k..]
    ensures x.1 >= y.1
  {
    var a :| 0 <= a < k && s[..k][a] == x;
    var b :| 0 <= b < |s| - k && s[k..][b] == y;
    assert s[a] == x && s[k + b] == y;
  }

  /** Ties keep the order the predictions were made in: for every rating
      value, the kept pairs with that rating are a prefix of the predictions
      with that rating. */
  lemma RankTies(ps: seq<Pair>, n: int, v: real)
    ensures WithRating(Rank(ps, n), v) <= WithRating(ps, v)
  {
    var sorted := SortDesc(ps);
    var r := Rank(ps, n);
    SortDescStable(ps, v);
    WithRatingPrefix(sorted, |r|, v);
    assert sorted[..|r|] == r;
  }
}
