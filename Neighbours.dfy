/** Neighbour selection and the weighted sums both recommenders share:
    `Series.nlargest(n)` over the candidate similarities, and the
    numerator/denominator loop that only positive similarities feed. */
module Neighbours {
  import opened UserItem

  /** A neighbour candidate: a user (or item) id and its similarity to the target. */
  datatype Cand = Cand(id: int, sim: real)

  /** Position of the first largest similarity. */
  function FirstMax(c: seq<Cand>): (m: nat)
    requires |c| > 0
    ensures m < |c|
  {
    if |c| == 1 then 0
    else
      var rest := FirstMax(c[1..]);
      if c[0].sim >= c[rest + 1].sim then 0 else rest + 1
  }

  /** `FirstMax` finds a largest similarity, and every candidate before it is
      strictly less similar (pandas' keep='first'). */
  lemma {:induction false} FirstMaxIsFirstLargest(c: seq<Cand>)
    requires |c| > 0
    ensures forall j :: 0 <= j < |c| ==> c[j].sim <= c[FirstMax(c)].sim
    ensures forall j :: 0 <= j < FirstMax(c) ==> c[j].sim < c[FirstMax(c)].sim
  {
    if |c| > 1 {
      FirstMaxIsFirstLargest(c[1..]);
      var rest := FirstMax(c[1..]);
      forall j | 1 <= j < |c| ensures c[j].sim <= c[rest + 1].sim {
        assert c[j] == c[1..][j - 1];
      }
      forall j | 1 <= j < rest + 1 ensures c[j].sim < c[rest + 1].sim {
        assert c[j] == c[1..][j - 1];
      }
    }
  }

  function Remove(c: seq<Cand>, m: nat): (r: seq<Cand>)
    requires m < |c|
    ensures |r| == |c| - 1
  {
    c[..m] + c[m + 1..]
  }

  lemma RemoveSplit(c: seq<Cand>, m: nat)
    requires m < |c|
    ensures multiset{c[m]} + multiset(Remove(c, m)) == multiset(c)
  {
    assert c == c[..m] + [c[m]] + c[m + 1..];
  }

  /** `Series.nlargest(k)` with pandas' default keep='first': k times, the
      first of the largest remaining similarities is taken out, so the result
      is in descending order and ties go to the earlier candidate. A k of 0 or
      less selects nothing. */
  function TopK(c: seq<Cand>, k: int): seq<Cand>
    decreases |c|
  {
    if k <= 0 || |c| == 0 then []
    else
      var m := FirstMax(c);
      [c[m]] + TopK(Remove(c, m), k - 1)
  }

  /** The candidates `TopK(c, k)` leaves out. */
  function Rest(c: seq<Cand>, k: int): seq<Cand>
    decreases |c|
  {
    if k <= 0 || |c| == 0 then c
    else Rest(Remove(c, FirstMax(c)), k - 1)
  }

  lemma {:induction false} TopKSize(c: seq<Cand>, k: int)
    ensures |TopK(c, k)| == if k <= 0 then 0 else if k < |c| then k else |c|
    decreases |c|
  {
    if k > 0 && |c| > 0 {
      TopKSize(Remove(c, FirstMax(c)), k - 1);
    }
  }

  /** One step of the selection: the first maximum, then the selection from the rest. */
  lemma TopKStep(c: seq<Cand>, k: int)
    requires k > 0 && |c| > 0
    ensures TopK(c, k) == [c[FirstMax(c)]] + TopK(Remove(c, FirstMax(c)), k - 1)
    ensures Rest(c, k) == Rest(Remove(c, FirstMax(c)), k - 1)
  {
  }

  lemma UnionStep(x: Cand, t: seq<Cand>, rest: seq<Cand>, r: seq<Cand>, c: seq<Cand>)
    requires multiset(t) + multiset(rest) == multiset(r)
    requires multiset{x} + multiset(r) == multiset(c)
    ensures multiset([x] + t) + multiset(rest) == multiset(c)
  {
    assert multiset([x] + t) == multiset{x} + multiset(t);
  }

  /** The selected and the left-out candidates split the input exactly. */
  lemma {:induction false} TopKSplit(c: seq<Cand>, k: int)
    ensures multiset(TopK(c, k)) + multiset(Rest(c, k)) == multiset(c)
    decreases |c|, 1
  {
    if k > 0 && |c| > 0 {
      TopKSplitStep(c, k - 1);
    }
  }

  lemma {:induction false} TopKSplitStep(c: seq<Cand>, j: int)
    requires |c| > 0 && j >= 0
    ensures multiset(TopK(c, j + 1)) + multiset(Rest(c, j + 1)) == multiset(c)
    decreases |c|, 0
  {
    var m := FirstMax(c);
    var r := Remove(c, m);
    TopKSplit(r, j);
    RemoveSplit(c, m);
    UnionStep(c[m], TopK(r, j), Rest(r, j), r, c);
    TopKStep(c, j + 1);
  }

  /** Every selected candidate is at least as similar as every left-out one. */
  lemma {:induction false} TopKLargest(c: seq<Cand>, k: int)
    ensures forall x, y :: x in TopK(c, k) && y in Rest(c, k) ==> x.sim >= y.sim
    decreases |c|, 1
  {
    if k > 0 && |c| > 0 {
      TopKLargestStep(c, k - 1);
    }
  }

  lemma {:induction false} TopKLargestStep(c: seq<Cand>, j: int)
    requires |c| > 0 && j >= 0
    ensures forall x, y :: x in TopK(c, j + 1) && y in Rest(c, j + 1) ==> x.sim >= y.sim
    decreases |c|, 0
  {
    var m := FirstMax(c);
    var r := Remove(c, m);
    TopKStep(c, j + 1);
    TopKLargest(r, j);
    RestMembers(r, j);
    RemoveMembers(c, m);
    FirstMaxIsFirstLargest(c);
    forall y | y in Rest(r, j) ensures c[m].sim >= y.sim {
      assert y in c;
    }
  }

  lemma RestMembers(c: seq<Cand>, k: int)
    ensures forall y :: y in Rest(c, k) ==> y in c
  {
    TopKSplit(c, k);
    forall y | y in Rest(c, k) ensures y in c {
      assert y in multiset(Rest(c, k));
      assert y in multiset(c);
    }
  }

  lemma RemoveMembers(c: seq<Cand>, m: nat)
    requires m < |c|
    ensures forall x :: x in Remove(c, m) ==> x in c
  {
  }

  lemma TopKMembers(c: seq<Cand>, k: int)
    ensures forall x :: x in TopK(c, k) ==> x in c
  {
    TopKSplit(c, k);
    forall x | x in TopK(c, k) ensures x in c {
      assert x in multiset(TopK(c, k));
      assert x in multiset(c);
    }
  }

  predicate SimDescending(s: seq<Cand>) {
    forall a, b :: 0 <= a < b < |s| ==> s[a].sim >= s[b].sim
  }

  /** The selection comes out in non-increasing order of similarity. */
  lemma {:induction false} TopKDescending(c: seq<Cand>, k: int)
    ensures SimDescending(TopK(c, k))
    decreases |c|, 1
  {
    if k > 0 && |c| > 0 {
      TopKDescendingStep(c, k - 1);
    }
  }

  lemma {:induction false} TopKDescendingStep(c: seq<Cand>, j: int)
    requires |c| > 0 && j >= 0
    ensures SimDescending(TopK(c, j + 1))
    decreases |c|, 0
  {
    var m := FirstMax(c);
    var r := Remove(c, m);
    TopKStep(c, j + 1);
    TopKDescending(r, j);
    FirstMaxIsFirstLargest(c);
    TopKMembers(r, j);
    RemoveMembers(c, m);
    var t := TopK(r, j);
    forall b | 0 <= b < |t| ensures c[m].sim >= t[b].sim {
      assert t[b] in t;
    }
  }

  /** No id occurs twice among the candidates. */
  predicate DistinctIds(c: seq<Cand>) {
    forall a, b :: 0 <= a < b < |c| ==> c[a].id != c[b].id
  }

  /** Appending at most one candidate, whose id v no candidate so far has,
      keeps the ids distinct. */
  lemma DistinctIdsAppend(c: seq<Cand>, v: int, tail: seq<Cand>)
    requires DistinctIds(c) && forall x :: x in c ==> x.id != v
    requires tail == [] || (|tail| == 1 && tail[0].id == v)
    ensures DistinctIds(c + tail)
  {
    if tail != [] {
      forall a | 0 <= a < |c| ensures c[a].id != v {
        assert c[a] in c;
      }
    }
  }

  lemma RemoveDistinct(c: seq<Cand>, m: nat)
    requires DistinctIds(c) && m < |c|
    ensures DistinctIds(Remove(c, m))
  {
  }

  /** Taking out position m moves every later candidate one place down. */
  lemma RemoveShift(c: seq<Cand>, m: nat, a: nat) returns (a': nat)
    requires m < |c| && a < |c| && a != m
    ensures a' == (if a < m then a else a - 1) && a' < |Remove(c, m)| && Remove(c, m)[a'] == c[a]
  {
    a' := if a < m then a else a - 1;
  }

  /** keep='first' over the whole selection: among candidates with distinct
      ids, when one is selected, every earlier candidate with the same
      similarity is selected too. */
  lemma {:induction false} TopKKeepsFirst(c: seq<Cand>, k: int, a: nat, b: nat)
    requires DistinctIds(c) && a < b < |c| && c[a].sim == c[b].sim
    requires c[b] in TopK(c, k)
    ensures c[a] in TopK(c, k)
    decreases |c|, 1
  {
    assert k > 0;
    var m := FirstMax(c);
    TopKStep(c, k);
    FirstMaxIsFirstLargest(c);
    if b == m {
      assert false;
    } else if a != m {
      assert c[b].id != c[m].id;
      TopKKeepsFirstStep(c, k, a, b);
    }
  }

  /** The inductive case of `TopKKeepsFirst`: with the first largest candidate
      taken out, a and b move to their positions among the rest. */
  lemma {:induction false} TopKKeepsFirstStep(c: seq<Cand>, k: int, a: nat, b: nat)
    requires DistinctIds(c) && a < b < |c| && c[a].sim == c[b].sim && k > 0
    requires a != FirstMax(c) && b != FirstMax(c)
    requires c[b] in TopK(Remove(c, FirstMax(c)), k - 1)
    ensures c[a] in TopK(Remove(c, FirstMax(c)), k - 1)
    decreases |c|, 0
  {
    var m := FirstMax(c);
    RemoveDistinct(c, m);
    var a' := RemoveShift(c, m, a);
    var b' := RemoveShift(c, m, b);
    TopKKeepsFirst(Remove(c, m), k - 1, a', b');
  }

  /** `top.sum()`: the sum of all selected similarities, negative ones too. */
  function SimSum(c: seq<Cand>): real {
    if c == [] then 0.0 else SimSum(c[..|c| - 1]) + c[|c| - 1].sim
  }

  /** One neighbour's contribution: its similarity as weight, and the value it weighs. */
  datatype Term = Term(w: real, x: real)

  /** `numerator`: the sum of w * x over the terms with w > 0. */
  function Numerator(ts: seq<Term>): real {
    if ts == [] then 0.0
    else
      var t := ts[|ts| - 1];
      Numerator(ts[..|ts| - 1]) + (if t.w > 0.0 then t.w * t.x else 0.0)
  }

  /** `denominator`: the sum of |w| over the terms with w > 0. */
  function Denominator(ts: seq<Term>): real {
    if ts == [] then 0.0
    else
      var t := ts[|ts| - 1];
      Denominator(ts[..|ts| - 1]) + (if t.w > 0.0 then Abs(t.w) else 0.0)
  }

  /** The denominator is 0 exactly when no term has a positive weight. */
  lemma {:induction false} DenominatorZero(ts: seq<Term>)
    ensures Denominator(ts) >= 0.0
    ensures Denominator(ts) == 0.0 <==> forall k :: 0 <= k < |ts| ==> ts[k].w <= 0.0
  {
    if ts != [] {
      DenominatorZero(ts[..|ts| - 1]);
    }
  }

  /** Terms without a positive weight do not influence either sum. */
  lemma {:induction false} NonPositiveIgnored(ts: seq<Term>, us: seq<Term>)
    requires |ts| == |us|
    requires forall k :: 0 <= k < |ts| ==> ts[k].w == us[k].w
    requires forall k :: 0 <= k < |ts| && ts[k].w > 0.0 ==> ts[k].x == us[k].x
    ensures Numerator(ts) == Numerator(us) && Denominator(ts) == Denominator(us)
  {
    if ts != [] {
      NonPositiveIgnored(ts[..|ts| - 1], us[..|us| - 1]);
    }
  }

  lemma StepAbove(d: real, n: real, w: real, x: real, lo: real, d': real, n': real)
    requires d * lo <= n && w > 0.0 && lo <= x
    requires d' == d + w && n' == n + w * x
    ensures d' * lo <= n'
  {
    assert w * lo <= w * x;
  }

  lemma StepBelow(d: real, n: real, w: real, x: real, hi: real, d': real, n': real)
    requires n <= d * hi && w > 0.0 && x <= hi
    requires d' == d + w && n' == n + w * x
    ensures n' <= d' * hi
  {
    assert w * x <= w * hi;
  }

  lemma {:induction false} WeightedAbove(ts: seq<Term>, lo: real)
    requires forall k :: 0 <= k < |ts| && ts[k].w > 0.0 ==> lo <= ts[k].x
    ensures Denominator(ts) * lo <= Numerator(ts)
  {
    if ts == [] {
      assert 0.0 * lo == 0.0;
    } else {
      var init, t := ts[..|ts| - 1], ts[|ts| - 1];
      WeightedAbove(init, lo);
      if t.w > 0.0 {
        StepAbove(Denominator(init), Numerator(init), t.w, t.x, lo, Denominator(ts), Numerator(ts));
      }
    }
  }

  lemma {:induction false} WeightedBelow(ts: seq<Term>, hi: real)
    requires forall k :: 0 <= k < |ts| && ts[k].w > 0.0 ==> ts[k].x <= hi
    ensures Numerator(ts) <= Denominator(ts) * hi
  {
    if ts == [] {
      assert 0.0 * hi == 0.0;
    } else {
      var init, t := ts[..|ts| - 1], ts[|ts| - 1];
      WeightedBelow(init, hi);
      if t.w > 0.0 {
        StepBelow(Denominator(init), Numerator(init), t.w, t.x, hi, Denominator(ts), Numerator(ts));
      }
    }
  }

  /** The weighted average lies between the bounds of the values it weighs. */
  lemma WeightedAverageBetween(ts: seq<Term>, lo: real, hi: real)
    requires Denominator(ts) > 0.0
    requires forall k :: 0 <= k < |ts| && ts[k].w > 0.0 ==> lo <= ts[k].x <= hi
    ensures lo <= Numerator(ts) / Denominator(ts) <= hi
  {
    WeightedAbove(ts, lo);
    WeightedBelow(ts, hi);
    DivBetween(Numerator(ts), Denominator(ts), lo, hi);
  }

  lemma DivBetween(n: real, d: real, lo: real, hi: real)
    requires d > 0.0 && d * lo <= n <= d * hi
    ensures lo <= n / d <= hi
  {
  }
}
