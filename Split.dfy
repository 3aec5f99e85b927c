/** The evaluation split in `train_and_evaluate_models`: the test rows are
    `np.setdiff1d(np.arange(n), train)`, the positions of the ratings table
    that the (randomly drawn) training positions do not name. */
module Split {
  import opened UserItem

  /** `np.setdiff1d(np.arange(n), train)`: 0..n-1 without the training
      positions, ascending. */
  function TestIndices(n: nat, train: seq<int>): seq<int> {
    if n == 0 then []
    else TestIndices(n - 1, train) + (if n - 1 in train then [] else [n - 1])
  }

  /** A position is a test position exactly when it is a row of the table
      and not a training position: the two sets are disjoint and together
      cover every row. */
  lemma {:induction false} TestIndicesMembers(n: nat, train: seq<int>)
    ensures forall i :: i in TestIndices(n, train) <==> 0 <= i < n && i !in train
  {
    if n > 0 {
      TestIndicesMembers(n - 1, train);
    }
  }

  /** `setdiff1d` returns its values sorted and without repeats. */
  lemma {:induction false} TestIndicesAscending(n: nat, train: seq<int>)
    ensures StrictlyAscending(TestIndices(n, train))
  {
    if n > 0 {
      TestIndicesAscending(n - 1, train);
      TestIndicesMembers(n - 1, train);
      var init := TestIndices(n - 1, train);
      forall a | 0 <= a < |init| ensures init[a] < n - 1 {
        assert init[a] in init;
      }
    }
  }

  /** The training positions that are rows of the table, as a set. */
  function TrainRows(n: nat, train: seq<int>): set<int> {
    set i | 0 <= i < n && i in train
  }

  /** Every row is either a test row or a training row, never both, so the
      test rows number n minus the distinct training rows. */
  lemma {:induction false} SplitCovers(n: nat, train: seq<int>)
    ensures |TestIndices(n, train)| + |TrainRows(n, train)| == n
  {
    if n > 0 {
      SplitCovers(n - 1, train);
      if n - 1 in train {
        assert TrainRows(n, train) == TrainRows(n - 1, train) + {n - 1};
      } else {
        assert TrainRows(n, train) == TrainRows(n - 1, train);
      }
    } else {
      assert TrainRows(n, train) == {};
    }
  }

  /** With `replace=False` the training positions are distinct rows, so the
      test set has exactly n - |train| rows. */
  lemma TestSize(n: nat, train: seq<int>)
    requires Distinct(train)
    requires forall a :: 0 <= a < |train| ==> 0 <= train[a] < n
    ensures |TestIndices(n, train)| == n - |train|
  {
    SplitCovers(n, train);
    DistinctCard(train, n);
  }

  lemma {:induction false} DistinctCard(train: seq<int>, n: nat)
    requires Distinct(train)
    requires forall a :: 0 <= a < |train| ==> 0 <= train[a] < n
    ensures |TrainRows(n, train)| == |train|
  {
    if train != [] {
      var init := train[..|train| - 1];
      var last := train[|train| - 1];
      DistinctCard(init, n);
      assert last !in init;
      assert TrainRows(n, train) == TrainRows(n, init) + {last};
    } else {
      assert TrainRows(n, train) == {};
    }
  }
}
