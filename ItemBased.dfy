/** `ItemBasedCollaborativeFiltering`: a prediction is the similarity-weighted
    average of the user's own ratings of the items most similar to the target;
    `recommend` ranks the user's unrated items. */
module ItemBased {
  import opened UserItem
  import opened Neighbours
  import opened Ranking

  /** What `fit` leaves in the model: the neighbour count, the matrix, the
      ids of the active items that index the similarity table, and that table. */
  datatype Fitted = Fitted(k: int, matrix: Matrix, simIndex: seq<int>, sim: seq<seq<real>>)

  /** Column b of the matrix: every user's entry for one item. */
  function Column(m: Matrix, b: nat): (col: seq<real>)
    requires WellFormed(m) && b < |m.items|
    ensures |col| == |m.users|
  {
    seq(|m.users|, a requires 0 <= a < |m.users| => m.cells[a][b])
  }

  /** The active items among the first n columns, in column order. */
  function ActiveItemsUpTo(m: Matrix, n: nat): (act: seq<int>)
    requires WellFormed(m) && n <= |m.items|
    ensures forall j :: j in act ==> j in m.items
  {
    if n == 0 then []
    else
      ActiveItemsUpTo(m, n - 1) +
      (if |Positives(Column(m, n - 1))| > 0 then [m.items[n - 1]] else [])
  }

  /** `matrix.T[(matrix.T > 0).sum(axis=1) > 0].index`: the items someone
      rated positively, in column order. */
  function ActiveItems(m: Matrix): seq<int>
    requires WellFormed(m)
  {
    ActiveItemsUpTo(m, |m.items|)
  }

  lemma {:induction false} ActiveItemsUpToMembers(m: Matrix, n: nat)
    requires WellFormed(m) && n <= |m.items|
    ensures forall j :: j in ActiveItemsUpTo(m, n) <==>
              exists b :: 0 <= b < n && m.items[b] == j && |Positives(Column(m, b))| > 0
  {
    if n > 0 {
      ActiveItemsUpToMembers(m, n - 1);
    }
  }

  /** An item some user rated positively is active. */
  lemma RatedItemIsActive(m: Matrix, u: int, j: int)
    requires WellFormed(m) && u in m.users && j in m.items && Cell(m, u, j) > 0.0
    ensures j in ActiveItems(m)
  {
    ActiveItemsUpToMembers(m, |m.items|);
    var a, b := IndexOf(m.users, u), IndexOf(m.items, j);
    var col := Column(m, b);
    assert col[a] > 0.0;
    PositivesEmpty(col);
  }

  /** The mean of each rated column's positive entries, in column order. */
  function ItemMeansUpTo(m: Matrix, n: nat): seq<real>
    requires WellFormed(m) && n <= |m.items|
  {
    if n == 0 then []
    else
      var p := Positives(Column(m, n - 1));
      ItemMeansUpTo(m, n - 1) + (if |p| > 0 then [Mean(p)] else [])
  }

  /** `matrix[matrix > 0].mean().mean()`: the mean over items of each item's
      mean positive rating, NaN when no item has one. */
  function GlobalMean(m: Matrix): Score
    requires WellFormed(m)
  {
    var means := ItemMeansUpTo(m, |m.items|);
    if |means| == 0 then NaN else Num(Mean(means))
  }

  /** There is one item mean per active item. */
  lemma {:induction false} ItemMeansCount(m: Matrix, n: nat)
    requires WellFormed(m) && n <= |m.items|
    ensures |ItemMeansUpTo(m, n)| == |ActiveItemsUpTo(m, n)|
  {
    if n > 0 {
      ItemMeansCount(m, n - 1);
    }
  }

  /** On entries that are 0 or ratings in [1,5] every item mean lies in [1,5]. */
  lemma {:induction false} ItemMeansBetween(m: Matrix, n: nat)
    requires WellFormed(m) && n <= |m.items|
    requires forall a, b :: 0 <= a < |m.users| && 0 <= b < |m.items| ==>
               m.cells[a][b] == 0.0 || 1.0 <= m.cells[a][b] <= 5.0
    ensures forall k :: 0 <= k < |ItemMeansUpTo(m, n)| ==> 1.0 <= ItemMeansUpTo(m, n)[k] <= 5.0
  {
    if n > 0 {
      ItemMeansBetween(m, n - 1);
      ItemMeanRange(m, n - 1);
      var init, p := ItemMeansUpTo(m, n - 1), Positives(Column(m, n - 1));
      var means := init + (if |p| > 0 then [Mean(p)] else []);
      assert ItemMeansUpTo(m, n) == means;
      forall k | 0 <= k < |means| ensures 1.0 <= means[k] <= 5.0 {
        if k < |init| {
          assert means[k] == init[k];
        }
      }
    }
  }

  /** A rated column's mean lies in [1,5]. */
  lemma ItemMeanRange(m: Matrix, b: nat)
    requires WellFormed(m) && b < |m.items|
    requires forall a, b :: 0 <= a < |m.users| && 0 <= b < |m.items| ==>
               m.cells[a][b] == 0.0 || 1.0 <= m.cells[a][b] <= 5.0
    ensures |Positives(Column(m, b))| > 0 ==> 1.0 <= Mean(Positives(Column(m, b))) <= 5.0
  {
    var col := Column(m, b);
    assert forall a :: 0 <= a < |col| ==> col[a] == m.cells[a][b];
    UserMeanRange(col);
    PositivesEmpty(col);
  }

  /** The global mean an unknown user gets is NaN exactly when no item was
      ever rated, and otherwise (on entries 0 or in [1,5]) lies in [1,5]. */
  lemma GlobalMeanRange(m: Matrix)
    requires WellFormed(m)
    requires forall a, b :: 0 <= a < |m.users| && 0 <= b < |m.items| ==>
               m.cells[a][b] == 0.0 || 1.0 <= m.cells[a][b] <= 5.0
    ensures GlobalMean(m) == NaN <==> ActiveItems(m) == []
    ensures GlobalMean(m).Num? ==> 1.0 <= GlobalMean(m).value <= 5.0
  {
    var means := ItemMeansUpTo(m, |m.items|);
    ItemMeansCount(m, |m.items|);
    ItemMeansBetween(m, |m.items|);
    if |means| > 0 {
      MeanBetween(means, 1.0, 5.0);
    }
  }

  /** `user_ratings[user_ratings > 0].mean()`, or 3.0 when the user rated nothing. */
  function MeanOr3(row: seq<real>): real {
    var p := Positives(row);
    if |p| > 0 then Mean(p) else 3.0
  }

  predicate Valid(f: Fitted) {
    WellFormed(f.matrix) && f.simIndex == ActiveItems(f.matrix) && Square(f.sim, |f.simIndex|)
  }

  /** What the neighbour search needs of a fitted model: a well-formed
      matrix and a similarity index made of its items. */
  predicate IndexesItems(f: Fitted) {
    WellFormed(f.matrix) && forall j :: j in f.simIndex ==> j in f.matrix.items
  }

  /** The items among the first n of the similarity index, other than i, that
      u rated positively, each with `simRow`'s similarity. */
  function RatedUpTo(f: Fitted, simRow: seq<real>, u: int, i: int, n: nat): (c: seq<Cand>)
    requires IndexesItems(f) && u in f.matrix.users
    requires |simRow| == |f.simIndex| && n <= |f.simIndex|
    ensures forall x :: x in c ==> x.id in f.matrix.items
  {
    if n == 0 then []
    else
      var j := f.simIndex[n - 1];
      RatedUpTo(f, simRow, u, i, n - 1) +
      (if j != i && Cell(f.matrix, u, j) > 0.0 then [Cand(j, simRow[n - 1])] else [])
  }

  /** `relevant_similarities`: i's row of the similarity table restricted to
      the items u rated, without i itself, in column order. */
  function Relevant(f: Fitted, u: int, i: int): (c: seq<Cand>)
    requires Valid(f) && u in f.matrix.users && i in f.simIndex
    ensures forall x :: x in c ==> x.id in f.matrix.items
  {
    RatedUpTo(f, f.sim[IndexOf(f.simIndex, i)], u, i, |f.simIndex|)
  }

  /** `top_similar_items`: the n_neighbors most similar rated items. */
  function Neighbourhood(f: Fitted, u: int, i: int): (top: seq<Cand>)
    requires Valid(f) && u in f.matrix.users && i in f.simIndex
    ensures forall x :: x in top ==> x.id in f.matrix.items
  {
    var rel := Relevant(f, u, i);
    TopKMembers(rel, f.k);
    TopK(rel, f.k)
  }

  /** Each neighbour item's similarity, and u's own rating of it. */
  function OwnRatings(f: Fitted, u: int, top: seq<Cand>): (ts: seq<Term>)
    requires Valid(f) && u in f.matrix.users
    requires forall x :: x in top ==> x.id in f.matrix.items
    ensures |ts| == |top|
  {
    seq(|top|, n requires 0 <= n < |top| => Term(top[n].sim, Cell(f.matrix, u, top[n].id)))
  }

  /** One more neighbour adds the user's similarity-weighted rating of it to
      the numerator and its similarity to the denominator when its similarity
      is positive. */
  lemma OwnRatingsStep(f: Fitted, u: int, top: seq<Cand>, n: nat)
    requires Valid(f) && u in f.matrix.users && n < |top|
    requires forall x :: x in top ==> x.id in f.matrix.items
    ensures var ts, v := OwnRatings(f, u, top), top[n];
      v.id in f.matrix.items &&
      Numerator(ts[..n + 1]) == Numerator(ts[..n]) +
        (if v.sim > 0.0 then v.sim * Cell(f.matrix, u, v.id) else 0.0) &&
      Denominator(ts[..n + 1]) == Denominator(ts[..n]) + (if v.sim > 0.0 then Abs(v.sim) else 0.0)
  {
    var ts := OwnRatings(f, u, top);
    assert top[n] in top;
    assert ts[..n + 1][..n] == ts[..n];
  }

  /** Whether `predict` reaches the weighted average instead of a fallback. */
  predicate UsesNeighbours(f: Fitted, u: int, i: int)
    requires Valid(f) && u in f.matrix.users
  {
    i in f.matrix.items && i in f.simIndex &&
    var top := Neighbourhood(f, u, i);
    |Relevant(f, u, i)| > 0 && |top| > 0 && SimSum(top) != 0.0 &&
    Denominator(OwnRatings(f, u, top)) != 0.0
  }

  /** `predict(u, i)` for a user of the matrix. */
  function PredictKnown(f: Fitted, u: int, i: int): real
    requires Valid(f) && u in f.matrix.users
  {
    if !UsesNeighbours(f, u, i) then MeanOr3(Row(f.matrix, u))
    else
      var ts := OwnRatings(f, u, Neighbourhood(f, u, i));
      Clamp(Numerator(ts) / Denominator(ts))
  }

  /** `predict(u, i)`: a user missing from the matrix gets the global mean. */
  function Prediction(f: Fitted, u: int, i: int): Score
    requires Valid(f)
  {
    if u !in f.matrix.users then GlobalMean(f.matrix) else Num(PredictKnown(f, u, i))
  }

  /** The (item, prediction) pairs `recommend` builds, in column order. */
  function Candidates(f: Fitted, u: int): (ps: seq<Pair>)
    requires Valid(f) && u in f.matrix.users
  {
    var unrated := Unrated(Row(f.matrix, u), f.matrix.items);
    seq(|unrated|, n requires 0 <= n < |unrated| => (unrated[n], PredictKnown(f, u, unrated[n])))
  }

  /** `recommend(u, n)` */
  function Recommendations(f: Fitted, u: int, n: int): seq<Pair>
    requires Valid(f)
  {
    if u !in f.matrix.users then [] else Rank(Candidates(f, u), n)
  }

  // ---------------------------------------------------------------------
  // Properties of the fitted model

  lemma {:induction false} RatedUpToMembers(f: Fitted, simRow: seq<real>, u: int, i: int, n: nat)
    requires Valid(f) && u in f.matrix.users
    requires |simRow| == |f.simIndex| && n <= |f.simIndex|
    ensures forall x :: x in RatedUpTo(f, simRow, u, i, n) <==>
              exists b :: 0 <= b < n && x == Cand(f.simIndex[b], simRow[b]) &&
                          x.id != i && Cell(f.matrix, u, x.id) > 0.0
  {
    if n > 0 {
      RatedUpToMembers(f, simRow, u, i, n - 1);
    }
  }

  /** The candidate neighbours are exactly the other items u rated positively. */
  lemma RelevantAreRated(f: Fitted, u: int, i: int)
    requires Valid(f) && u in f.matrix.users && i in f.simIndex
    ensures forall x :: x in Relevant(f, u, i) ==> x.id != i && Cell(f.matrix, u, x.id) > 0.0
    ensures forall j :: j in f.matrix.items && j != i && Cell(f.matrix, u, j) > 0.0 ==>
              exists x :: x in Relevant(f, u, i) && x.id == j
  {
    var simRow := f.sim[IndexOf(f.simIndex, i)];
    RatedUpToMembers(f, simRow, u, i, |f.simIndex|);
    forall j | j in f.matrix.items && j != i && Cell(f.matrix, u, j) > 0.0
      ensures exists x :: x in Relevant(f, u, i) && x.id == j
    {
      RatedItemIsActive(f.matrix, u, j);
      var b := IndexOf(f.simIndex, j);
      assert Cand(j, simRow[b]) in Relevant(f, u, i);
    }
  }

  /** The active items are distinct, as the matrix's items are. */
  lemma {:induction false} ActiveItemsDistinct(m: Matrix, n: nat)
    requires WellFormed(m) && n <= |m.items|
    ensures Distinct(ActiveItemsUpTo(m, n))
  {
    if n > 0 {
      ActiveItemsDistinct(m, n - 1);
      ActiveItemsUpToMembers(m, n - 1);
      var init := ActiveItemsUpTo(m, n - 1);
      forall a | 0 <= a < |init| ensures init[a] != m.items[n - 1] {
        assert init[a] in init;
      }
    }
  }

  lemma SimIndexDistinct(f: Fitted)
    requires Valid(f)
    ensures Distinct(f.simIndex)
  {
    ActiveItemsDistinct(f.matrix, |f.matrix.items|);
  }

  /** No item appears twice among the candidate neighbours: each is drawn
      from a distinct position of the similarity index. */
  lemma {:induction false} RatedDistinct(f: Fitted, simRow: seq<real>, u: int, i: int, n: nat)
    requires IndexesItems(f) && u in f.matrix.users
    requires |simRow| == |f.simIndex| && n <= |f.simIndex| && Distinct(f.simIndex)
    ensures DistinctIds(RatedUpTo(f, simRow, u, i, n))
    ensures forall x, k :: x in RatedUpTo(f, simRow, u, i, n) && n <= k < |f.simIndex| ==>
              x.id != f.simIndex[k]
  {
    if n > 0 {
      var init := RatedUpTo(f, simRow, u, i, n - 1);
      RatedDistinct(f, simRow, u, i, n - 1);
      var j := f.simIndex[n - 1];
      var tail := if j != i && Cell(f.matrix, u, j) > 0.0 then [Cand(j, simRow[n - 1])] else [];
      assert RatedUpTo(f, simRow, u, i, n) == init + tail;
      DistinctIdsAppend(init, j, tail);
    }
  }

  /** `nlargest(n_neighbors)` over the rated items: at most n_neighbors of
      them (all when fewer), only rated items, and no rated item left out is
      more similar than one chosen. */
  lemma NeighbourSelection(f: Fitted, u: int, i: int)
    requires Valid(f) && u in f.matrix.users && i in f.simIndex
    ensures var rel, top := Relevant(f, u, i), Neighbourhood(f, u, i);
      && |top| == (if f.k <= 0 then 0 else if f.k < |rel| then f.k else |rel|)
      && (forall x :: x in top ==> x in rel && x.id != i && Cell(f.matrix, u, x.id) > 0.0)
      && (forall x, y :: x in top && y in multiset(rel) - multiset(top) ==> x.sim >= y.sim)
      && DistinctIds(rel)
      && (forall a, b :: 0 <= a < b < |rel| && rel[a].sim == rel[b].sim && rel[b] in top ==>
            rel[a] in top)
  {
    var rel := Relevant(f, u, i);
    SimIndexDistinct(f);
    RatedDistinct(f, f.sim[IndexOf(f.simIndex, i)], u, i, |f.simIndex|);
    forall a, b | 0 <= a < b < |rel| && rel[a].sim == rel[b].sim && rel[b] in TopK(rel, f.k)
      ensures rel[a] in TopK(rel, f.k)
    {
      TopKKeepsFirst(rel, f.k, a, b);
    }
    TopKSize(rel, f.k);
    TopKMembers(rel, f.k);
    RelevantAreRated(f, u, i);
    TopKSplit(rel, f.k);
    TopKLargest(rel, f.k);
    assert multiset(rel) - multiset(TopK(rel, f.k)) == multiset(Rest(rel, f.k));
  }

  /** On a matrix of ratings in [1,5] (0 meaning unrated) every prediction for
      a known user lies in [1,5]: the fallbacks are the user's mean or 3.0,
      and the weighted average is clamped. */
  lemma PredictionInRange(f: Fitted, u: int, i: int)
    requires Valid(f) && u in f.matrix.users
    requires forall j :: 0 <= j < |f.matrix.items| ==>
               Row(f.matrix, u)[j] == 0.0 || 1.0 <= Row(f.matrix, u)[j] <= 5.0
    ensures 1.0 <= PredictKnown(f, u, i) <= 5.0
  {
    var row := Row(f.matrix, u);
    UserMeanRange(row);
    PositivesEmpty(row);
  }

  /** On such a matrix the clamp never fires on the neighbour path: the
      prediction is exactly the weighted average of u's own ratings. */
  lemma WeightedAverageNeedsNoClamp(f: Fitted, u: int, i: int)
    requires Valid(f) && u in f.matrix.users && UsesNeighbours(f, u, i)
    requires forall j :: 0 <= j < |f.matrix.items| ==>
               Row(f.matrix, u)[j] == 0.0 || 1.0 <= Row(f.matrix, u)[j] <= 5.0
    ensures var ts := OwnRatings(f, u, Neighbourhood(f, u, i));
            PredictKnown(f, u, i) == Numerator(ts) / Denominator(ts)
  {
    var top := Neighbourhood(f, u, i);
    var ts := OwnRatings(f, u, top);
    NeighbourSelection(f, u, i);
    forall n | 0 <= n < |ts| && ts[n].w > 0.0 ensures 1.0 <= ts[n].x <= 5.0 {
      assert top[n] in top;
      var b := IndexOf(f.matrix.items, top[n].id);
      assert ts[n].x == Row(f.matrix, u)[b];
    }
    DenominatorZero(ts);
    WeightedAverageBetween(ts, 1.0, 5.0);
  }

  /** An item no user rated positively is not active. */
  lemma UnratedItemInactive(m: Matrix, i: int)
    requires WellFormed(m) && i in m.items
    requires forall a :: 0 <= a < |m.users| ==> m.cells[a][IndexOf(m.items, i)] <= 0.0
    ensures i !in ActiveItems(m)
  {
    ActiveItemsUpToMembers(m, |m.items|);
    var b := IndexOf(m.items, i);
    var col := Column(m, b);
    PositivesEmpty(col);
    forall b' | 0 <= b' < |m.items| && m.items[b'] == i
      ensures |Positives(Column(m, b'))| == 0
    {
      IndexOfDistinct(m.items, b');
    }
  }

  /** An item of the matrix that nobody rated positively is absent from the
      similarity index, so it gets the user's mean or 3.0. */
  lemma UnratedItemFallsBack(f: Fitted, u: int, i: int)
    requires Valid(f) && u in f.matrix.users && i in f.matrix.items
    requires forall a :: 0 <= a < |f.matrix.users| ==> f.matrix.cells[a][IndexOf(f.matrix.items, i)] <= 0.0
    ensures PredictKnown(f, u, i) == MeanOr3(Row(f.matrix, u))
  {
    UnratedItemInactive(f.matrix, i);
  }

  /** A user who rated nothing gets 3.0 for every item: the user's mean falls
      back to 3.0, and no item has a rating of the user to weigh. */
  lemma NoRatingsFallsBack(f: Fitted, u: int, i: int)
    requires Valid(f) && u in f.matrix.users
    requires forall j :: 0 <= j < |f.matrix.items| ==> Row(f.matrix, u)[j] <= 0.0
    ensures PredictKnown(f, u, i) == 3.0
  {
    PositivesEmpty(Row(f.matrix, u));
    if i in f.simIndex {
      NothingRatedNoCandidates(f, f.sim[IndexOf(f.simIndex, i)], u, i, |f.simIndex|);
    }
  }

  lemma {:induction false} NothingRatedNoCandidates(f: Fitted, simRow: seq<real>, u: int, i: int, n: nat)
    requires IndexesItems(f) && u in f.matrix.users
    requires |simRow| == |f.simIndex| && n <= |f.simIndex|
    requires forall j :: 0 <= j < |f.matrix.items| ==> Row(f.matrix, u)[j] <= 0.0
    ensures RatedUpTo(f, simRow, u, i, n) == []
  {
    if n > 0 {
      NothingRatedNoCandidates(f, simRow, u, i, n - 1);
      var j := f.simIndex[n - 1];
      assert Row(f.matrix, u)[IndexOf(f.matrix.items, j)] <= 0.0;
    }
  }

  /** The fallbacks: an item not in the matrix, and an item of the matrix
      that nobody rated positively (so absent from the similarity index), get
      the user's mean or 3.0; a user who rated nothing gets 3.0 for every item. */
  lemma Fallbacks(f: Fitted, u: int, i: int)
    requires Valid(f) && u in f.matrix.users
    ensures i !in f.matrix.items ==> PredictKnown(f, u, i) == MeanOr3(Row(f.matrix, u))
    ensures (i in f.matrix.items &&
             forall a :: 0 <= a < |f.matrix.users| ==> f.matrix.cells[a][IndexOf(f.matrix.items, i)] <= 0.0) ==>
              PredictKnown(f, u, i) == MeanOr3(Row(f.matrix, u))
    ensures (forall j :: 0 <= j < |f.matrix.items| ==> Row(f.matrix, u)[j] <= 0.0) ==>
              PredictKnown(f, u, i) == 3.0
  {
    if i in f.matrix.items &&
       forall a :: 0 <= a < |f.matrix.users| ==> f.matrix.cells[a][IndexOf(f.matrix.items, i)] <= 0.0 {
      UnratedItemFallsBack(f, u, i);
    }
    if forall j :: 0 <= j < |f.matrix.items| ==> Row(f.matrix, u)[j] <= 0.0 {
      NoRatingsFallsBack(f, u, i);
    }
  }

  /** Neighbours whose similarity is not positive are ignored: when none of
      the chosen items is positively similar, the fallback is returned. */
  lemma NoPositiveNeighbourFallsBack(f: Fitted, u: int, i: int)
    requires Valid(f) && u in f.matrix.users && i in f.simIndex
    requires forall x :: x in Neighbourhood(f, u, i) ==> x.sim <= 0.0
    ensures PredictKnown(f, u, i) == MeanOr3(Row(f.matrix, u))
  {
    var top := Neighbourhood(f, u, i);
    var ts := OwnRatings(f, u, top);
    forall n | 0 <= n < |ts| ensures ts[n].w <= 0.0 {
      assert top[n] in top;
    }
    DenominatorZero(ts);
  }

  /** `top_similar_items.sum() == 0` falls back to the user's mean (or 3.0),
      whatever the positive similarities among the neighbours would contribute. */
  lemma CancellingNeighboursFallBack(f: Fitted, u: int, i: int)
    requires Valid(f) && u in f.matrix.users && i in f.simIndex
    requires SimSum(Neighbourhood(f, u, i)) == 0.0
    ensures PredictKnown(f, u, i) == MeanOr3(Row(f.matrix, u))
  {
  }

  /** `recommend` never returns an item the user has rated: each pair names
      a column whose entry for u is exactly 0, with its prediction; an unknown
      user gets []. */
  lemma RecommendsUnratedOnly(f: Fitted, u: int, n: int)
    requires Valid(f)
    ensures u !in f.matrix.users ==> Recommendations(f, u, n) == []
    ensures forall p :: p in Recommendations(f, u, n) ==>
              u in f.matrix.users && p.0 in f.matrix.items &&
              Cell(f.matrix, u, p.0) == 0.0 && p.1 == PredictKnown(f, u, p.0)
  {
    if u in f.matrix.users {
      var ps := Candidates(f, u);
      var row := Row(f.matrix, u);
      RankSorted(ps, n);
      UnratedMembers(row, f.matrix.items);
      forall p | p in Recommendations(f, u, n)
        ensures p.0 in f.matrix.items && Cell(f.matrix, u, p.0) == 0.0 && p.1 == PredictKnown(f, u, p.0)
      {
        assert p in multiset(Rank(ps, n));
        assert p in multiset(ps);
        var k :| 0 <= k < |ps| && ps[k] == p;
        var unrated := Unrated(row, f.matrix.items);
        assert unrated[k] in unrated;
        var j :| 0 <= j < |row| && f.matrix.items[j] == p.0 && row[j] == 0.0;
        IndexOfDistinct(f.matrix.items, j);
      }
    }
  }

  /** `recommend` returns min(n, #unrated) pairs for n >= 0 (n drops pairs
      from the end when negative), one per unrated item at most. */
  lemma RecommendsCount(f: Fitted, u: int, n: int)
    requires Valid(f) && u in f.matrix.users
    ensures var unrated := Unrated(Row(f.matrix, u), f.matrix.items);
            n >= 0 ==> |Recommendations(f, u, n)| == if n < |unrated| then n else |unrated|
    ensures |Recommendations(f, u, n)| <= |Unrated(Row(f.matrix, u), f.matrix.items)|
  {
    RankCount(Candidates(f, u), n);
  }

  /** `recommend` lists its pairs in non-increasing order of prediction, keeps
      the best-predicted unrated items, and leaves ties in column order. */
  lemma RecommendsRanked(f: Fitted, u: int, n: int)
    requires Valid(f) && u in f.matrix.users
    ensures Descending(Recommendations(f, u, n))
    ensures forall x, y ::
              (x in Recommendations(f, u, n) &&
               y in multiset(Candidates(f, u)) - multiset(Recommendations(f, u, n))) ==> x.1 >= y.1
    ensures forall v :: WithRating(Recommendations(f, u, n), v) <= WithRating(Candidates(f, u), v)
  {
    RankOrdered(Candidates(f, u), n);
  }

  // ---------------------------------------------------------------------
  // The model object

  class ItemBasedCF {
    var nNeighbors: int
    var userItemMatrix: Matrix
    var similarityIndex: seq<int>
    var itemSimilarity: seq<seq<real>>
    /** Whether `fit` has run; before it the fields hold `None`. */
    ghost var fitted: bool

    constructor (nNeighbors: int := 50)
      ensures this.nNeighbors == nNeighbors && !fitted
    {
      this.nNeighbors := nNeighbors;
      userItemMatrix := Matrix([], [], []);
      similarityIndex := [];
      itemSimilarity := [];
      fitted := false;
    }

    function State(): Fitted
      reads this
    {
      Fitted(nNeighbors, userItemMatrix, similarityIndex, itemSimilarity)
    }

    ghost predicate Ready()
      reads this
    {
      fitted && Valid(State())
    }

    /** `fit(matrix)`: keeps the matrix and records the similarity table of
        the active items (computed outside this model). */
    method Fit(m: Matrix, similarity: seq<seq<real>>)
      requires WellFormed(m)
      requires Square(similarity, |ActiveItems(m)|)
      modifies this
      ensures Ready()
      ensures State() == Fitted(old(nNeighbors), m, ActiveItems(m), similarity)
    {
      userItemMatrix := m;
      similarityIndex := ActiveItems(m);
      itemSimilarity := similarity;
      fitted := true;
    }

    /** `predict(u, i)` */
    method Predict(u: int, i: int) returns (r: Score)
      requires Ready()
      ensures r == Prediction(State(), u, i)
    {
      var f := State();
      if u !in userItemMatrix.users {
        return GlobalMean(userItemMatrix);
      }
      var fallback := MeanOr3(Row(userItemMatrix, u));
      if i !in userItemMatrix.items || i !in similarityIndex {
        return Num(fallback);
      }
      var rel := Relevant(f, u, i);
      if |rel| == 0 {
        return Num(fallback);
      }
      var top := Neighbourhood(f, u, i);
      if |top| == 0 || SimSum(top) == 0.0 {
        return Num(fallback);
      }
      ghost var ts := OwnRatings(f, u, top);
      var numerator, denominator := Accumulate(u, top);
      if denominator == 0.0 {
        assert !UsesNeighbours(f, u, i);
        return Num(fallback);
      }
      assert UsesNeighbours(f, u, i);
      return Num(Clamp(numerator / denominator));
    }

    /** The weighted-average loop of `predict`: only items with positive
        similarity add to the numerator and the denominator. */
    method Accumulate(u: int, top: seq<Cand>) returns (numerator: real, denominator: real)
      requires Ready() && u in userItemMatrix.users
      requires forall x :: x in top ==> x.id in userItemMatrix.items
      ensures numerator == Numerator(OwnRatings(State(), u, top))
      ensures denominator == Denominator(OwnRatings(State(), u, top))
    {
      ghost var f := State();
      ghost var ts := OwnRatings(f, u, top);
      numerator, denominator := 0.0, 0.0;
      for n := 0 to |top|
        invariant numerator == Numerator(ts[..n])
        invariant denominator == Denominator(ts[..n])
      {
        var neighbour := top[n];
        OwnRatingsStep(f, u, top, n);
        if neighbour.sim > 0.0 {
          var rating := Cell(userItemMatrix, u, neighbour.id);
          numerator := numerator + neighbour.sim * rating;
          denominator := denominator + Abs(neighbour.sim);
        }
      }
      assert ts[..|top|] == ts;
    }

    /** `recommend(u, n)`: predicts every unrated item in column order, then
        sorts by prediction and keeps the first n. */
    method Recommend(u: int, n: int := 10) returns (recs: seq<Pair>)
      requires Ready()
      ensures recs == Recommendations(State(), u, n)
    {
      if u !in userItemMatrix.users {
        return [];
      }
      var unrated := Unrated(Row(userItemMatrix, u), userItemMatrix.items);
      var predictions: seq<Pair> := [];
      ghost var candidates := Candidates(State(), u);
      assert |candidates| == |unrated|;
      for j := 0 to |unrated|
        invariant predictions == candidates[..j]
      {
        var p := Predict(u, unrated[j]);
        assert candidates[j] == (unrated[j], p.value);
        predictions := predictions + [(unrated[j], p.value)];
      }
      assert predictions == candidates;
      recs := Rank(predictions, n);
    }
  }

  /** `ItemBasedCollaborativeFiltering()`: the neighbour count defaults to 50. */
  method NewDefault() returns (model: ItemBasedCF)
    ensures fresh(model) && model.nNeighbors == 50 && !model.fitted
  {
    model := new ItemBasedCF();
  }
}
