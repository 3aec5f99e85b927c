/** `UserBasedCollaborativeFiltering`: a prediction is the target user's mean
    moved by the similarity-weighted, mean-centred ratings of the most similar
    users who rated the item; `recommend` ranks the user's unrated items. */
module UserBased {
  import opened UserItem
  import opened Neighbours
  import opened Ranking

  /** What `fit` leaves in the model: the neighbour count, the matrix, the
      user means as (user id, mean) pairs, the ids of the active users that
      index the similarity table, and that table. */
  datatype Fitted = Fitted(k: int, matrix: Matrix, means: seq<(int, real)>,
                           simIndex: seq<int>, sim: seq<seq<real>>)

  /** The active users among the first n rows, in index order. */
  function ActiveUsersUpTo(m: Matrix, n: nat): (act: seq<int>)
    requires WellFormed(m) && n <= |m.users|
    ensures forall v :: v in act ==> v in m.users
  {
    if n == 0 then []
    else
      ActiveUsersUpTo(m, n - 1) +
      (if |Positives(m.cells[n - 1])| > 0 then [m.users[n - 1]] else [])
  }

  /** `matrix[(matrix > 0).sum(axis=1) > 0].index`: the users with at least
      one positive entry, in index order. */
  function ActiveUsers(m: Matrix): seq<int>
    requires WellFormed(m)
  {
    ActiveUsersUpTo(m, |m.users|)
  }

  lemma {:induction false} ActiveUsersUpToMembers(m: Matrix, n: nat)
    requires WellFormed(m) && n <= |m.users|
    ensures forall v :: v in ActiveUsersUpTo(m, n) <==>
              exists a :: 0 <= a < n && m.users[a] == v && |Positives(m.cells[a])| > 0
  {
    if n > 0 {
      ActiveUsersUpToMembers(m, n - 1);
      var init := ActiveUsersUpTo(m, n - 1);
      var rated := |Positives(m.cells[n - 1])| > 0;
      assert ActiveUsersUpTo(m, n) == init + (if rated then [m.users[n - 1]] else []);
      forall v | exists a :: 0 <= a < n && m.users[a] == v && |Positives(m.cells[a])| > 0
        ensures v in ActiveUsersUpTo(m, n)
      {
        var a :| 0 <= a < n && m.users[a] == v && |Positives(m.cells[a])| > 0;
        if a < n - 1 {
          assert v in init;
        }
      }
    }
  }

  /** A user is active exactly when some entry of the user's row is positive. */
  lemma ActiveUsersMembers(m: Matrix)
    requires WellFormed(m)
    ensures forall v :: v in ActiveUsers(m) <==>
              v in m.users && exists j :: 0 <= j < |m.items| && Row(m, v)[j] > 0.0
  {
    ActiveUsersUpToMembers(m, |m.users|);
    forall v | v in m.users
      ensures v in ActiveUsers(m) <==> exists j :: 0 <= j < |m.items| && Row(m, v)[j] > 0.0
    {
      var a := IndexOf(m.users, v);
      assert Row(m, v) == m.cells[a];
      PositivesEmpty(m.cells[a]);
      if v in ActiveUsers(m) {
        var b :| 0 <= b < |m.users| && m.users[b] == v && |Positives(m.cells[b])| > 0;
        IndexOfDistinct(m.users, b);
      }
      if exists j :: 0 <= j < |m.items| && Row(m, v)[j] > 0.0 {
        assert |Positives(m.cells[a])| > 0;
        assert m.users[a] == v;
      }
    }
  }

  function MeanIds(means: seq<(int, real)>): (ids: seq<int>)
    ensures |ids| == |means|
  {
    seq(|means|, a requires 0 <= a < |means| => means[a].0)
  }

  function MeanValues(means: seq<(int, real)>): (vals: seq<real>)
    ensures |vals| == |means|
  {
    seq(|means|, a requires 0 <= a < |means| => means[a].1)
  }

  /** `user_means[u]` can be looked up for every user of the matrix. */
  predicate MeansCover(means: seq<(int, real)>, users: seq<int>) {
    Distinct(MeanIds(means)) && forall u :: u in users ==> u in MeanIds(means)
  }

  /** `user_means[u]` */
  function MeanOf(means: seq<(int, real)>, u: int): real
    requires u in MeanIds(means)
  {
    means[IndexOf(MeanIds(means), u)].1
  }

  predicate Valid(f: Fitted) {
    WellFormed(f.matrix) && MeansCover(f.means, f.matrix.users) &&
    f.simIndex == ActiveUsers(f.matrix) && Square(f.sim, |f.simIndex|)
  }

  /** What the neighbour search needs of a fitted model: a well-formed
      matrix and a similarity index made of its users. */
  predicate IndexesUsers(f: Fitted) {
    WellFormed(f.matrix) && forall v :: v in f.simIndex ==> v in f.matrix.users
  }

  /** The users among the first n of the similarity index, other than u, who
      gave item i a positive rating, each with `simRow`'s similarity. */
  function RatersUpTo(f: Fitted, simRow: seq<real>, u: int, i: int, n: nat): (c: seq<Cand>)
    requires IndexesUsers(f) && i in f.matrix.items
    requires |simRow| == |f.simIndex| && n <= |f.simIndex|
    ensures forall x :: x in c ==> x.id in f.matrix.users
  {
    if n == 0 then []
    else
      var v := f.simIndex[n - 1];
      RatersUpTo(f, simRow, u, i, n - 1) +
      (if v != u && Cell(f.matrix, v, i) > 0.0 then [Cand(v, simRow[n - 1])] else [])
  }

  /** `relevant_similarities`: u's row of the similarity table restricted to
      the raters of i, without u itself, in index order. */
  function Relevant(f: Fitted, u: int, i: int): (c: seq<Cand>)
    requires Valid(f) && u in f.simIndex && i in f.matrix.items
    ensures forall x :: x in c ==> x.id in f.matrix.users
  {
    RatersUpTo(f, f.sim[IndexOf(f.simIndex, u)], u, i, |f.simIndex|)
  }

  /** `top_similar_users`: the n_neighbors most similar raters. */
  function Neighbourhood(f: Fitted, u: int, i: int): (top: seq<Cand>)
    requires Valid(f) && u in f.simIndex && i in f.matrix.items
    ensures forall x :: x in top ==> x.id in f.matrix.users
  {
    var rel := Relevant(f, u, i);
    TopKMembers(rel, f.k);
    TopK(rel, f.k)
  }

  /** Each neighbour's similarity, and its rating of i centred on its own mean. */
  function Deviations(f: Fitted, i: int, top: seq<Cand>): (ts: seq<Term>)
    requires Valid(f) && i in f.matrix.items
    requires forall x :: x in top ==> x.id in f.matrix.users
    ensures |ts| == |top|
  {
    seq(|top|, n requires 0 <= n < |top| =>
      Term(top[n].sim, Cell(f.matrix, top[n].id, i) - MeanOf(f.means, top[n].id)))
  }

  /** One more neighbour adds its weighted deviation to the numerator and its
      similarity to the denominator when its similarity is positive. */
  lemma DeviationsStep(f: Fitted, i: int, top: seq<Cand>, n: nat)
    requires Valid(f) && i in f.matrix.items && n < |top|
    requires forall x :: x in top ==> x.id in f.matrix.users
    ensures var ts, v := Deviations(f, i, top), top[n];
      v.id in f.matrix.users &&
      Numerator(ts[..n + 1]) == Numerator(ts[..n]) +
        (if v.sim > 0.0 then v.sim * (Cell(f.matrix, v.id, i) - MeanOf(f.means, v.id)) else 0.0) &&
      Denominator(ts[..n + 1]) == Denominator(ts[..n]) + (if v.sim > 0.0 then Abs(v.sim) else 0.0)
  {
    var ts := Deviations(f, i, top);
    assert top[n] in top;
    assert ts[..n + 1][..n] == ts[..n];
  }

  /** Whether `predict` reaches the weighted average instead of a fallback. */
  predicate UsesNeighbours(f: Fitted, u: int, i: int)
    requires Valid(f) && u in f.matrix.users
  {
    i in f.matrix.items && u in f.simIndex &&
    var top := Neighbourhood(f, u, i);
    |Relevant(f, u, i)| > 0 && |top| > 0 && SimSum(top) != 0.0 &&
    Denominator(Deviations(f, i, top)) != 0.0
  }

  /** `predict(u, i)` for a user of the matrix. */
  function PredictKnown(f: Fitted, u: int, i: int): real
    requires Valid(f) && u in f.matrix.users
  {
    var mean := MeanOf(f.means, u);
    if !UsesNeighbours(f, u, i) then mean
    else
      var ts := Deviations(f, i, Neighbourhood(f, u, i));
      Clamp(mean + Numerator(ts) / Denominator(ts))
  }

  /** `predict(u, i)`: a user missing from the matrix gets the mean of all
      user means, which pandas makes NaN when there are none. */
  function Prediction(f: Fitted, u: int, i: int): Score
    requires Valid(f)
  {
    if u !in f.matrix.users then
      (if |f.means| == 0 then NaN else Num(Mean(MeanValues(f.means))))
    else Num(PredictKnown(f, u, i))
  }

  /** The (item, prediction) pairs `recommend` builds, in column order. */
  function Candidates(f: Fitted, u: int): (ps: seq<Pair>)
    requires Valid(f) && u in f.matrix.users
  {
    var unrated := Unrated(Row(f.matrix, u), f.matrix.items);
    seq(|unrated|, n requires 0 <= n < |unrated| => (unrated[n], PredictKnown(f, u, unrated[n])))
  }

  /** `recommend(u, n)` */
  function Recommendations(f: Fitted, u: int, n: int): seq<Pair>
    requires Valid(f)
  {
    if u !in f.matrix.users then [] else Rank(Candidates(f, u), n)
  }

  // ---------------------------------------------------------------------
  // Properties of the fitted model

  lemma UserMeansCover(m: Matrix)
    requires WellFormed(m)
    ensures MeansCover(UserMeans(m), m.users)
    ensures forall a :: 0 <= a < |m.users| ==> MeanOf(UserMeans(m), m.users[a]) == UserMean(m.cells[a])
  {
    assert MeanIds(UserMeans(m)) == m.users;
    forall a | 0 <= a < |m.users| ensures MeanOf(UserMeans(m), m.users[a]) == UserMean(m.cells[a]) {
      IndexOfDistinct(m.users, a);
    }
  }

  /** The candidate neighbours are exactly the other users who rated i
      positively: every rater other than u is among them (being a rater makes
      a user active), and no one else is. */
  lemma {:induction false} RelevantAreRaters(f: Fitted, u: int, i: int)
    requires Valid(f) && u in f.simIndex && i in f.matrix.items
    ensures forall x :: x in Relevant(f, u, i) ==>
              x.id != u && Cell(f.matrix, x.id, i) > 0.0
    ensures forall v :: v in f.matrix.users && v != u && Cell(f.matrix, v, i) > 0.0 ==>
              exists x :: x in Relevant(f, u, i) && x.id == v
  {
    var simRow := f.sim[IndexOf(f.simIndex, u)];
    RatersUpToMembers(f, simRow, u, i, |f.simIndex|);
    ActiveUsersMembers(f.matrix);
    forall v | v in f.matrix.users && v != u && Cell(f.matrix, v, i) > 0.0
      ensures exists x :: x in Relevant(f, u, i) && x.id == v
    {
      assert Row(f.matrix, v)[IndexOf(f.matrix.items, i)] > 0.0;
      assert v in f.simIndex;
      var b := IndexOf(f.simIndex, v);
      assert Cand(v, simRow[b]) in Relevant(f, u, i);
    }
  }

  lemma {:induction false} RatersUpToMembers(f: Fitted, simRow: seq<real>, u: int, i: int, n: nat)
    requires Valid(f) && i in f.matrix.items
    requires |simRow| == |f.simIndex| && n <= |f.simIndex|
    ensures forall x :: x in RatersUpTo(f, simRow, u, i, n) <==>
              exists b :: 0 <= b < n && x == Cand(f.simIndex[b], simRow[b]) &&
                          x.id != u && Cell(f.matrix, x.id, i) > 0.0
  {
    if n > 0 {
      RatersUpToMembers(f, simRow, u, i, n - 1);
    }
  }

  /** The active users are distinct, as the matrix's users are. */
  lemma {:induction false} ActiveUsersDistinct(m: Matrix, n: nat)
    requires WellFormed(m) && n <= |m.users|
    ensures Distinct(ActiveUsersUpTo(m, n))
  {
    if n > 0 {
      ActiveUsersDistinct(m, n - 1);
      ActiveUsersUpToMembers(m, n - 1);
      var init := ActiveUsersUpTo(m, n - 1);
      forall a | 0 <= a < |init| ensures init[a] != m.users[n - 1] {
        assert init[a] in init;
      }
    }
  }

  lemma SimIndexDistinct(f: Fitted)
    requires Valid(f)
    ensures Distinct(f.simIndex)
  {
    ActiveUsersDistinct(f.matrix, |f.matrix.users|);
  }

  /** No user appears twice among the candidate neighbours: each is drawn
      from a distinct position of the similarity index. */
  lemma {:induction false} RatersDistinct(f: Fitted, simRow: seq<real>, u: int, i: int, n: nat)
    requires IndexesUsers(f) && i in f.matrix.items
    requires |simRow| == |f.simIndex| && n <= |f.simIndex| && Distinct(f.simIndex)
    ensures DistinctIds(RatersUpTo(f, simRow, u, i, n))
    ensures forall x, k :: x in RatersUpTo(f, simRow, u, i, n) && n <= k < |f.simIndex| ==>
              x.id != f.simIndex[k]
  {
    if n > 0 {
      var init := RatersUpTo(f, simRow, u, i, n - 1);
      RatersDistinct(f, simRow, u, i, n - 1);
      var v := f.simIndex[n - 1];
      var tail := if v != u && Cell(f.matrix, v, i) > 0.0 then [Cand(v, simRow[n - 1])] else [];
      assert RatersUpTo(f, simRow, u, i, n) == init + tail;
      DistinctIdsAppend(init, v, tail);
    }
  }

  /** `nlargest(n_neighbors)` over the raters: at most n_neighbors of them
      (all when fewer), none other than raters, and no rater left out is more
      similar than one chosen. */
  lemma NeighbourSelection(f: Fitted, u: int, i: int)
    requires Valid(f) && u in f.simIndex && i in f.matrix.items
    ensures var rel, top := Relevant(f, u, i), Neighbourhood(f, u, i);
      && |top| == (if f.k <= 0 then 0 else if f.k < |rel| then f.k else |rel|)
      && (forall x :: x in top ==> x in rel && x.id != u && Cell(f.matrix, x.id, i) > 0.0)
      && (forall x, y :: x in top && y in multiset(rel) - multiset(top) ==> x.sim >= y.sim)
      && DistinctIds(rel)
      && (forall a, b :: 0 <= a < b < |rel| && rel[a].sim == rel[b].sim && rel[b] in top ==>
            rel[a] in top)
  {
    var rel := Relevant(f, u, i);
    SimIndexDistinct(f);
    RatersDistinct(f, f.sim[IndexOf(f.simIndex, u)], u, i, |f.simIndex|);
    forall a, b | 0 <= a < b < |rel| && rel[a].sim == rel[b].sim && rel[b] in TopK(rel, f.k)
      ensures rel[a] in TopK(rel, f.k)
    {
      TopKKeepsFirst(rel, f.k, a, b);
    }
    TopKSize(rel, f.k);
    TopKMembers(rel, f.k);
    RelevantAreRaters(f, u, i);
    TopKSplit(rel, f.k);
    TopKLargest(rel, f.k);
    assert multiset(rel) - multiset(TopK(rel, f.k)) == multiset(Rest(rel, f.k));
    forall y | y in multiset(Rest(rel, f.k)) ensures y in Rest(rel, f.k) {
    }
  }

  /** A prediction is either the user's own mean (a fallback) or a clamped
      value in [1,5]. */
  lemma PredictionFallsBackOrClamps(f: Fitted, u: int, i: int)
    requires Valid(f) && u in f.matrix.users
    ensures PredictKnown(f, u, i) == MeanOf(f.means, u) ||
            1.0 <= PredictKnown(f, u, i) <= 5.0
  {
  }

  /** With the means `fit` computes itself, on a matrix of 0s and ratings in
      [1,5], every prediction for a user who rated something lies in [1,5]:
      the fallback mean does, and the weighted path is clamped. */
  lemma PredictionInRange(f: Fitted, u: int, i: int)
    requires Valid(f) && u in f.matrix.users && f.means == UserMeans(f.matrix)
    requires forall j :: 0 <= j < |f.matrix.items| ==>
               Row(f.matrix, u)[j] == 0.0 || 1.0 <= Row(f.matrix, u)[j] <= 5.0
    requires exists j :: 0 <= j < |f.matrix.items| && Row(f.matrix, u)[j] > 0.0
    ensures 1.0 <= PredictKnown(f, u, i) <= 5.0
  {
    PredictionFallsBackOrClamps(f, u, i);
    UserMeansCover(f.matrix);
    var a := IndexOf(f.matrix.users, u);
    var row := f.matrix.cells[a];
    assert row == Row(f.matrix, u);
    UserMeanRange(row);
    assert MeanOf(f.means, u) == UserMean(row);
  }

  /** The fallbacks: an item not in the matrix, and a user who rated nothing
      (so is absent from the similarity index), get the user's mean. */
  lemma Fallbacks(f: Fitted, u: int, i: int)
    requires Valid(f) && u in f.matrix.users
    ensures i !in f.matrix.items ==> PredictKnown(f, u, i) == MeanOf(f.means, u)
    ensures (forall j :: 0 <= j < |f.matrix.items| ==> Row(f.matrix, u)[j] <= 0.0) ==>
              PredictKnown(f, u, i) == MeanOf(f.means, u)
  {
    ActiveUsersMembers(f.matrix);
  }

  /** With the means `fit` computes itself, a user who rated nothing is
      predicted 0 for every item: outside [1,5]. */
  lemma UnratedUserPredictsZero(f: Fitted, u: int, i: int)
    requires Valid(f) && u in f.matrix.users && f.means == UserMeans(f.matrix)
    requires forall j :: 0 <= j < |f.matrix.items| ==> Row(f.matrix, u)[j] == 0.0
    ensures Prediction(f, u, i) == Num(0.0)
  {
    Fallbacks(f, u, i);
    UserMeansCover(f.matrix);
    var a := IndexOf(f.matrix.users, u);
    var row := f.matrix.cells[a];
    assert row == Row(f.matrix, u);
    PositivesEmpty(row);
    assert UserMean(row) == 0.0;
    assert MeanOf(f.means, u) == 0.0;
  }

  /** An unknown user gets the mean of all user means. With the means `fit`
      computes on entries 0 or in [1,5], that is NaN exactly when the matrix
      has no users, and otherwise lies in [0,5]: a user who rated nothing
      adds a mean of 0, so the result can fall below 1. */
  lemma UnknownUserRange(f: Fitted, u: int, i: int)
    requires Valid(f) && u !in f.matrix.users && f.means == UserMeans(f.matrix)
    requires forall a, b :: 0 <= a < |f.matrix.users| && 0 <= b < |f.matrix.items| ==>
               f.matrix.cells[a][b] == 0.0 || 1.0 <= f.matrix.cells[a][b] <= 5.0
    ensures Prediction(f, u, i) == NaN <==> |f.matrix.users| == 0
    ensures Prediction(f, u, i).Num? ==> 0.0 <= Prediction(f, u, i).value <= 5.0
  {
    var vals := MeanValues(f.means);
    forall k | 0 <= k < |vals| ensures 0.0 <= vals[k] <= 5.0 {
      assert vals[k] == UserMean(f.matrix.cells[k]);
      UserMeanRange(f.matrix.cells[k]);
    }
    if |vals| > 0 {
      MeanBetween(vals, 0.0, 5.0);
    }
  }

  /** Two users and one item 10, which only user 1 rated (with 1.0). */
  const TwoUsers := Matrix([1, 2], [10], [[1.0], [0.0]])

  lemma TwoUsersPositives()
    ensures Positives(TwoUsers.cells[0]) == [1.0] && Positives(TwoUsers.cells[1]) == []
  {
    assert [1.0][..0] == [] && [0.0][..0] == [];
  }

  lemma TwoUsersActive()
    ensures WellFormed(TwoUsers) && ActiveUsers(TwoUsers) == [1]
  {
    TwoUsersPositives();
    assert ActiveUsersUpTo(TwoUsers, 0) == [];
    assert ActiveUsersUpTo(TwoUsers, 1) == [1];
    assert ActiveUsersUpTo(TwoUsers, 2) == [1];
  }

  lemma TwoUsersMeans()
    ensures WellFormed(TwoUsers) && UserMeans(TwoUsers) == [(1, 1.0), (2, 0.0)]
  {
    TwoUsersPositives();
  }

  /** The means `fit` computes for the two users are 1 and 0, so a third,
      unknown user is predicted 0.5, below the [1,5] rating scale. */
  lemma UnknownUserBelowOne()
    ensures var f := Fitted(50, TwoUsers, UserMeans(TwoUsers), [1], [[1.0]]);
            Valid(f) && Prediction(f, 3, 10) == Num(0.5)
  {
    TwoUsersActive();
    TwoUsersMeans();
    UserMeansCover(TwoUsers);
    var vals := MeanValues(UserMeans(TwoUsers));
    assert vals == [1.0, 0.0];
    assert vals[..1] == [1.0] && [1.0][..0] == [];
    assert Sum(vals) == 1.0;
  }

  /** Neighbours whose similarity is not positive are ignored: when none of
      the chosen neighbours is positively similar, the user's mean is returned. */
  lemma NoPositiveNeighbourFallsBack(f: Fitted, u: int, i: int)
    requires Valid(f) && u in f.simIndex && i in f.matrix.items
    requires forall x :: x in Neighbourhood(f, u, i) ==> x.sim <= 0.0
    ensures PredictKnown(f, u, i) == MeanOf(f.means, u)
  {
    var top := Neighbourhood(f, u, i);
    var ts := Deviations(f, i, top);
    forall n | 0 <= n < |ts| ensures ts[n].w <= 0.0 {
      assert top[n] in top;
    }
    DenominatorZero(ts);
  }

  /** `top_similar_users.sum() == 0` falls back to the user's mean, whatever
      the positive similarities among the neighbours would contribute. */
  lemma CancellingNeighboursFallBack(f: Fitted, u: int, i: int)
    requires Valid(f) && u in f.simIndex && i in f.matrix.items
    requires SimSum(Neighbourhood(f, u, i)) == 0.0
    ensures PredictKnown(f, u, i) == MeanOf(f.means, u)
  {
  }

  /** A fitted model whose neighbourhood for (u, i) is a 0.5-similar user v,
      who rated i 2 points above v's mean, and a -0.5-similar user w: the
      weighted average of the deviations is 2, yet the similarities sum to 0,
      so the prediction is u's mean and not the mean moved by 2. */
  lemma CancellingNeighboursExample(f: Fitted, u: int, i: int, v: int, w: int)
    requires Valid(f) && u in f.simIndex && i in f.matrix.items && v in f.matrix.users
    requires Neighbourhood(f, u, i) == [Cand(v, 0.5), Cand(w, -0.5)]
    requires Cell(f.matrix, v, i) - MeanOf(f.means, v) == 2.0
    ensures var ts := Deviations(f, i, Neighbourhood(f, u, i));
      Denominator(ts) == 0.5 && Numerator(ts) / Denominator(ts) == 2.0
    ensures PredictKnown(f, u, i) == MeanOf(f.means, u)
  {
    var top := Neighbourhood(f, u, i);
    var ts := Deviations(f, i, top);
    assert top[..1] == [Cand(v, 0.5)] && top[..1][..0] == [];
    assert SimSum(top[..1]) == 0.5;
    assert ts[0] == Term(0.5, 2.0) && ts[1].w == -0.5;
    assert ts[..1] == [Term(0.5, 2.0)] && ts[..1][..0] == [];
    assert Numerator(ts[..1][..0]) == 0.0 && Denominator(ts[..1][..0]) == 0.0;
    assert Denominator(ts[..1]) == 0.5 && Numerator(ts[..1]) == 0.5 * 2.0;
    CancellingNeighboursFallBack(f, u, i);
  }

  /** On the neighbour path the prediction is the user's mean moved by a
      weighted average of the neighbours' centred ratings, so it lies between
      the mean moved by the smallest and by the largest of them (then clamped). */
  lemma NeighbourPredictionBetween(f: Fitted, u: int, i: int, lo: real, hi: real)
    requires Valid(f) && u in f.matrix.users && UsesNeighbours(f, u, i)
    requires forall x :: x in Neighbourhood(f, u, i) && x.sim > 0.0 ==>
               lo <= Cell(f.matrix, x.id, i) - MeanOf(f.means, x.id) <= hi
    ensures Clamp(MeanOf(f.means, u) + lo) <= PredictKnown(f, u, i) <= Clamp(MeanOf(f.means, u) + hi)
  {
    var top := Neighbourhood(f, u, i);
    var ts := Deviations(f, i, top);
    forall n | 0 <= n < |ts| && ts[n].w > 0.0 ensures lo <= ts[n].x <= hi {
      assert top[n] in top;
    }
    DenominatorZero(ts);
    WeightedAverageBetween(ts, lo, hi);
  }

  /** `recommend` never returns an item the user has rated (or rated below 0):
      each pair names a column whose entry for u is exactly 0, with its
      prediction; an unknown user gets []. */
  lemma RecommendsUnratedOnly(f: Fitted, u: int, n: int)
    requires Valid(f)
    ensures u !in f.matrix.users ==> Recommendations(f, u, n) == []
    ensures forall p :: p in Recommendations(f, u, n) ==>
              u in f.matrix.users && p.0 in f.matrix.items &&
              Cell(f.matrix, u, p.0) == 0.0 && p.1 == PredictKnown(f, u, p.0)
  {
    if u in f.matrix.users {
      var ps := Candidates(f, u);
      var row := Row(f.matrix, u);
      RankSorted(ps, n);
      UnratedMembers(row, f.matrix.items);
      forall p | p in Recommendations(f, u, n)
        ensures p.0 in f.matrix.items && Cell(f.matrix, u, p.0) == 0.0 && p.1 == PredictKnown(f, u, p.0)
      {
        assert p in multiset(Rank(ps, n));
        assert p in multiset(ps);
        var k :| 0 <= k < |ps| && ps[k] == p;
        var unrated := Unrated(row, f.matrix.items);
        assert unrated[k] in unrated;
        var j :| 0 <= j < |row| && f.matrix.items[j] == p.0 && row[j] == 0.0;
        IndexOfDistinct(f.matrix.items, j);
      }
    }
  }

  /** `recommend` returns min(n, #unrated) pairs for n >= 0 (n drops pairs
      from the end when negative), one per unrated item at most. */
  lemma RecommendsCount(f: Fitted, u: int, n: int)
    requires Valid(f) && u in f.matrix.users
    ensures var unrated := Unrated(Row(f.matrix, u), f.matrix.items);
            n >= 0 ==> |Recommendations(f, u, n)| == if n < |unrated| then n else |unrated|
    ensures |Recommendations(f, u, n)| <= |Unrated(Row(f.matrix, u), f.matrix.items)|
  {
    RankCount(Candidates(f, u), n);
  }

  /** `recommend` lists its pairs in non-increasing order of prediction, keeps
      the best-predicted unrated items, and leaves ties in column order. */
  lemma RecommendsRanked(f: Fitted, u: int, n: int)
    requires Valid(f) && u in f.matrix.users
    ensures Descending(Recommendations(f, u, n))
    ensures forall x, y ::
              (x in Recommendations(f, u, n) &&
               y in multiset(Candidates(f, u)) - multiset(Recommendations(f, u, n))) ==> x.1 >= y.1
    ensures forall v :: WithRating(Recommendations(f, u, n), v) <= WithRating(Candidates(f, u), v)
  {
    RankOrdered(Candidates(f, u), n);
  }

  // ---------------------------------------------------------------------
  // The model object

  class UserBasedCF {
    var nNeighbors: int
    var userItemMatrix: Matrix
    var userMeans: seq<(int, real)>
    var similarityIndex: seq<int>
    var userSimilarity: seq<seq<real>>
    /** Whether `fit` has run; before it the fields hold `None`. */
    ghost var fitted: bool

    constructor (nNeighbors: int := 50)
      ensures this.nNeighbors == nNeighbors && !fitted
    {
      this.nNeighbors := nNeighbors;
      userItemMatrix := Matrix([], [], []);
      userMeans := [];
      similarityIndex := [];
      userSimilarity := [];
      fitted := false;
    }

    function State(): Fitted
      reads this
    {
      Fitted(nNeighbors, userItemMatrix, userMeans, similarityIndex, userSimilarity)
    }

    ghost predicate Ready()
      reads this
    {
      fitted && Valid(State())
    }

    /** `fit(matrix, user_means)`: keeps the matrix, takes the given means or
        computes each user's mean over the positive entries, and records the
        similarity table of the active users (computed outside this model). */
    method Fit(m: Matrix, similarity: seq<seq<real>>, given: Option<seq<(int, real)>> := None)
      requires WellFormed(m)
      requires given.Some? ==> MeansCover(given.value, m.users)
      requires Square(similarity, |ActiveUsers(m)|)
      modifies this
      ensures Ready()
      ensures State() == Fitted(old(nNeighbors), m,
                                if given.Some? then given.value else UserMeans(m),
                                ActiveUsers(m), similarity)
    {
      userItemMatrix := m;
      if given.Some? {
        userMeans := given.value;
      } else {
        var means: seq<(int, real)> := [];
        for a := 0 to |m.users|
          invariant means == UserMeans(m)[..a]
        {
          means := means + [(m.users[a], UserMean(m.cells[a]))];
        }
        assert means == UserMeans(m);
        userMeans := means;
        UserMeansCover(m);
      }
      similarityIndex := ActiveUsers(m);
      userSimilarity := similarity;
      fitted := true;
    }

    /** `predict(u, i)` */
    method Predict(u: int, i: int) returns (r: Score)
      requires Ready()
      ensures r == Prediction(State(), u, i)
    {
      var f := State();
      if u !in userItemMatrix.users {
        if |userMeans| == 0 {
          return NaN;
        }
        return Num(Mean(MeanValues(userMeans)));
      }
      var mean := MeanOf(userMeans, u);
      if i !in userItemMatrix.items || u !in similarityIndex {
        return Num(mean);
      }
      var rel := Relevant(f, u, i);
      if |rel| == 0 {
        return Num(mean);
      }
      var top := Neighbourhood(f, u, i);
      if |top| == 0 || SimSum(top) == 0.0 {
        return Num(mean);
      }
      ghost var ts := Deviations(f, i, top);
      var numerator, denominator := Accumulate(i, top);
      assert numerator == Numerator(ts) && denominator == Denominator(ts);
      if denominator == 0.0 {
        assert !UsesNeighbours(f, u, i);
        return Num(mean);
      }
      assert UsesNeighbours(f, u, i);
      return Num(Clamp(mean + numerator / denominator));
    }

    /** The weighted-average loop of `predict`: only neighbours with positive
        similarity add to the numerator and the denominator. */
    method Accumulate(i: int, top: seq<Cand>) returns (numerator: real, denominator: real)
      requires Ready() && i in userItemMatrix.items
      requires forall x :: x in top ==> x.id in userItemMatrix.users
      ensures numerator == Numerator(Deviations(State(), i, top))
      ensures denominator == Denominator(Deviations(State(), i, top))
    {
      ghost var f := State();
      ghost var ts := Deviations(f, i, top);
      numerator, denominator := 0.0, 0.0;
      for n := 0 to |top|
        invariant numerator == Numerator(ts[..n])
        invariant denominator == Denominator(ts[..n])
      {
        var neighbour := top[n];
        DeviationsStep(f, i, top, n);
        if neighbour.sim > 0.0 {
          var rating := Cell(userItemMatrix, neighbour.id, i);
          var neighbourMean := MeanOf(userMeans, neighbour.id);
          numerator := numerator + neighbour.sim * (rating - neighbourMean);
          denominator := denominator + Abs(neighbour.sim);
        }
      }
      assert ts[..|top|] == ts;
    }

    /** `recommend(u, n)`: predicts every unrated item in column order, then
        sorts by prediction and keeps the first n. */
    method Recommend(u: int, n: int := 10) returns (recs: seq<Pair>)
      requires Ready()
      ensures recs == Recommendations(State(), u, n)
    {
      if u !in userItemMatrix.users {
        return [];
      }
      var unrated := Unrated(Row(userItemMatrix, u), userItemMatrix.items);
      var predictions: seq<Pair> := [];
      ghost var candidates := Candidates(State(), u);
      assert |candidates| == |unrated|;
      for j := 0 to |unrated|
        invariant predictions == candidates[..j]
      {
        var p := Predict(u, unrated[j]);
        assert candidates[j] == (unrated[j], p.value);
        predictions := predictions + [(unrated[j], p.value)];
      }
      assert predictions == candidates;
      recs := Rank(predictions, n);
    }
  }

  /** `UserBasedCollaborativeFiltering()`: the neighbour count defaults to 50. */
  method NewDefault() returns (model: UserBasedCF)
    ensures fresh(model) && model.nNeighbors == 50 && !model.fitted
  {
    model := new UserBasedCF();
  }
}
