# Collaborative-filtering recommender: a Dafny model

This project models the rating engine of the `recommendation-system` scripts
and proves properties of it. There are two parts.

- **Preprocessing** (`data_preprocessing.py`) cleans the raw ratings table:
  - it drops rows with a missing field;
  - it keeps ratings in [1,5];
  - it keeps a rating only when its user and its item each have at least
    five ratings, counted once;
  - it pivots the result into a zero-filled user x item matrix, where a pair
    rated several times gets the mean of its ratings.
  `normalize_ratings` then centres each user's positive entries on that
  user's mean.
- **Neighbour-based prediction** (`collaborative_filtering.py`):
  - The user-based recommender predicts the user's mean plus a
    similarity-weighted average of the mean-centred ratings of the most
    similar users who rated the item.
  - The item-based recommender predicts a similarity-weighted average of the
    user's own ratings of the most similar items.
  - In both, only positive similarities contribute, and the result is
    clamped to [1,5].
  - Each has a chain of fallbacks: a global mean, the user's mean, or 3.0.
  - `recommend` predicts every unrated item of a user, sorts the pairs with
    Python's stable descending sort, and keeps the first n.
  - The evaluation split takes as test rows the complement of the training
    rows.

Module layout:

| file | module | what it holds |
|---|---|---|
| `UserItem.dfy` | `UserItem` | the matrix, per-user means over positive entries, the clamp, row centring |
| `Neighbours.dfy` | `Neighbours` | `Series.nlargest` with keep='first', and the numerator/denominator sums that only positive similarities feed |
| `Ranking.dfy` | `Ranking` | unrated columns, the stable descending sort, the Python slice `[:n]` |
| `UserBased.dfy` | `UserBased` | specification functions, lemmas, and the class `UserBasedCF` with `Fit`/`Predict`/`Recommend` |
| `ItemBased.dfy` | `ItemBased` | the same for `ItemBasedCF` |
| `Split.dfy` | `Split` | `np.setdiff1d(np.arange(n), train)` |
| `Preprocess.dfy` | `Preprocess` | `dropna`, the range and minimum-count filters, the pivot, and `NormalizeRatings` |

Each recommender class keeps the fields the Python object assigns:
- the neighbour count;
- the matrix;
- for the user-based one, the user means;
- the index of active ids and the similarity table.

Its methods are proved against specification functions: `Predict` returns
`Prediction(State(), u, i)` and `Recommend` returns `Recommendations(...)`.
The lemmas state what those functions promise. The similarity table is an
input to `Fit`. It is a square table over the active ids in index order,
as `cosine_similarity` would return. Its values are arbitrary, so every
lemma holds for any similarity measure.

Behaviour of the code that the model keeps:
- Similarity is plain cosine over zero-filled rows, and it is an input here.
- `nlargest` runs before non-positive similarities are dropped, so fewer
  than k neighbours may contribute.
- Every failure returns a fallback value.
- Ties in `nlargest` go to the earlier index position, and ties in
  `recommend` keep column order.

## Model

| member | source | states |
|---|---|---|
| UserItem.Keep | recommendation-system/scripts/data_preprocessing.py:47-50 | a boolean-mask filter `s[mask]`: the elements satisfying the mask, in their original order; the one filter every mask in the model uses |
| UserItem.Positives | recommendation-system/scripts/collaborative_filtering.py:29 | `row[row > 0]`: the mask filter with the mask "entry > 0" |
| UserItem.PositivesMembers | recommendation-system/scripts/collaborative_filtering.py:29 | `row[row > 0]` holds exactly the entries of the row that are positive |
| UserItem.PositivesEmpty | recommendation-system/scripts/collaborative_filtering.py:29-30 | the positive entries are empty exactly when every entry of the row is at most 0 (the `len(non_zero_ratings) > 0` test) |
| UserItem.UserMean | recommendation-system/scripts/collaborative_filtering.py:29-30 | the mean of the row's positive entries, and 0 when there are none |
| UserItem.UserMeans | recommendation-system/scripts/collaborative_filtering.py:26-31 | one (user id, mean) pair per user, in index order |
| UserItem.UserMeanRange | recommendation-system/scripts/collaborative_filtering.py:26-31 | on entries that are 0 or in [1,5], a user's mean is 0 exactly when the user rated nothing, and otherwise lies in [1,5] |
| UserItem.MeanBetween | recommendation-system/scripts/collaborative_filtering.py:30 | a mean lies between any lower and upper bound of the values it averages |
| UserItem.Clamp | recommendation-system/scripts/collaborative_filtering.py:98 | `max(1, min(5, x))` lies in [1,5], is x when x is in [1,5], 5 above it and 1 below it |
| UserItem.CenterRow | recommendation-system/scripts/data_preprocessing.py:89-91 | every positive entry minus the given mean, every other entry as it was |
| UserItem.CenteredSumZero | recommendation-system/scripts/data_preprocessing.py:86-91 | subtracting the user's mean from the positive entries leaves them summing to 0 |
| UserItem.CenterRowUnrated | recommendation-system/scripts/data_preprocessing.py:85-93 | a row with no positive entry is left unchanged by centring |
| Neighbours.TopK | recommendation-system/scripts/collaborative_filtering.py:75 | `nlargest(k)` with keep='first': k times at most, the first of the largest remaining similarities is taken out; k <= 0 or no candidates selects nothing |
| Neighbours.FirstMaxIsFirstLargest | recommendation-system/scripts/collaborative_filtering.py:75 | each selection step takes a largest similarity, and no earlier candidate has an equal one (keep='first') |
| Neighbours.TopKKeepsFirst | recommendation-system/scripts/collaborative_filtering.py:75 | over the whole selection, among candidates with distinct ids: when one is chosen, every earlier candidate with the same similarity is chosen too (keep='first') |
| Neighbours.TopKSize | recommendation-system/scripts/collaborative_filtering.py:75 | `nlargest(k)` returns min(k, number of candidates) entries, and none when k <= 0 |
| Neighbours.TopKSplit | recommendation-system/scripts/collaborative_filtering.py:75 | the selected and the left-out candidates together are exactly the input, as a multiset |
| Neighbours.TopKLargest | recommendation-system/scripts/collaborative_filtering.py:75 | every selected candidate is at least as similar as every left-out one |
| Neighbours.TopKDescending | recommendation-system/scripts/collaborative_filtering.py:75 | the selection comes out in non-increasing order of similarity |
| Neighbours.TopKMembers | recommendation-system/scripts/collaborative_filtering.py:75 | the selection holds only candidates |
| Neighbours.SimSum | recommendation-system/scripts/collaborative_filtering.py:77 | `top_similar_users.sum()`: the sum of all selected similarities, negative ones included |
| Neighbours.Numerator | recommendation-system/scripts/collaborative_filtering.py:84-89 | the sum of similarity times value over the terms whose similarity is positive |
| Neighbours.Denominator | recommendation-system/scripts/collaborative_filtering.py:84-90 | the sum of \|similarity\| over the terms whose similarity is positive |
| Neighbours.DenominatorZero | recommendation-system/scripts/collaborative_filtering.py:84-93 | the denominator is never negative, and it is 0 exactly when no neighbour has positive similarity |
| Neighbours.NonPositiveIgnored | recommendation-system/scripts/collaborative_filtering.py:84-90 | terms with non-positive similarity change neither the numerator nor the denominator |
| Neighbours.WeightedAverageBetween | recommendation-system/scripts/collaborative_filtering.py:192-202 | numerator / denominator lies between the smallest and the largest value weighed with positive similarity |
| Ranking.Unrated | recommendation-system/scripts/collaborative_filtering.py:105-106 | the item ids whose entry in the user's row is exactly 0, in column order |
| Ranking.UnratedMembers | recommendation-system/scripts/collaborative_filtering.py:105-106 | `user_ratings[user_ratings == 0].index` holds exactly the ids whose entry is exactly 0 |
| Ranking.Insert | recommendation-system/scripts/collaborative_filtering.py:114 | inserting a pair adds exactly that pair, as a multiset |
| Ranking.SortDesc | recommendation-system/scripts/collaborative_filtering.py:114 | `sort(key=rating, reverse=True)` as an insertion sort: each pair goes into the sorted rest ahead of every pair rated no higher than it |
| Ranking.SortDescSorted | recommendation-system/scripts/collaborative_filtering.py:114 | the sort is a permutation of its input in non-increasing order of rating |
| Ranking.SortDescStable | recommendation-system/scripts/collaborative_filtering.py:114 | for every rating value, the pairs with that rating keep their input order (stable sort) |
| Ranking.SliceTo | recommendation-system/scripts/collaborative_filtering.py:115 | `s[:n]` is a prefix of s of length min(n, \|s\|) for n >= 0, and of \|s\| + n (at least 0) for negative n |
| Ranking.Rank | recommendation-system/scripts/collaborative_filtering.py:113-115 | the predictions sorted in descending order of rating, then cut with `[:n]` |
| Ranking.RankSorted | recommendation-system/scripts/collaborative_filtering.py:113-115 | the result is non-increasing and holds only pairs that were predicted |
| Ranking.RankTop | recommendation-system/scripts/collaborative_filtering.py:113-115 | every predicted pair left out is rated no higher than any pair kept |
| Ranking.RankTies | recommendation-system/scripts/collaborative_filtering.py:114-115 | among pairs with equal rating, the kept ones are the first ones in prediction order |
| Ranking.RankCount | recommendation-system/scripts/collaborative_filtering.py:115 | for any list of predictions, `[:n]` keeps min(n, its length) pairs for n >= 0, and drops \|n\| pairs from the end (down to none) for negative n |
| Ranking.RankOrdered | recommendation-system/scripts/collaborative_filtering.py:114-115 | for any list of predictions the result is non-increasing, no pair left out is rated above a kept one, and ties keep prediction order |
| UserBased.ActiveUsers | recommendation-system/scripts/collaborative_filtering.py:35-36 | the users whose row has a positive entry, in index order; they index the similarity table |
| UserBased.Valid | recommendation-system/scripts/collaborative_filtering.py:19-46 | what `fit` leaves: a well-formed matrix, a mean for every user, the active users as similarity index, and a square table over them |
| UserBased.ActiveUsersMembers | recommendation-system/scripts/collaborative_filtering.py:35-36 | a user is active (indexes the similarity table) exactly when some entry of the user's row is positive |
| UserBased.ActiveUsersDistinct | recommendation-system/scripts/collaborative_filtering.py:35-36 | the active users, which index the similarity table, are distinct |
| UserBased.RatersDistinct | recommendation-system/scripts/collaborative_filtering.py:65-69 | no user appears twice among the candidate neighbours, and none is drawn from a later position of the index |
| UserBased.UserMeansCover | recommendation-system/scripts/collaborative_filtering.py:26-31 | the computed means give one entry per user, and `user_means[u]` is the mean of u's positive entries, or 0 |
| UserBased.RatersUpTo | recommendation-system/scripts/collaborative_filtering.py:65-69 | among the first n users of the similarity index, those other than u whose entry for i is positive, each with u's similarity to it |
| UserBased.Relevant | recommendation-system/scripts/collaborative_filtering.py:62-69 | `relevant_similarities`: the candidates over the whole similarity index |
| UserBased.RelevantAreRaters | recommendation-system/scripts/collaborative_filtering.py:65-69 | the candidate neighbours are exactly the users other than u who rated i positively |
| UserBased.Neighbourhood | recommendation-system/scripts/collaborative_filtering.py:75 | `top_similar_users`: the n_neighbors most similar candidates |
| UserBased.Deviations | recommendation-system/scripts/collaborative_filtering.py:84-89 | for each neighbour, its similarity and its rating of i minus its own mean |
| UserBased.UsesNeighbours | recommendation-system/scripts/collaborative_filtering.py:55-93 | the prediction reaches the weighted average: the item is known, u is active, there are candidates, the selection is non-empty, its similarities do not sum to 0, and the denominator is not 0 |
| UserBased.PredictKnown | recommendation-system/scripts/collaborative_filtering.py:55-98 | for a user of the matrix: the user's mean on every early exit, otherwise `max(1, min(5, mean + numerator / denominator))` |
| UserBased.Prediction | recommendation-system/scripts/collaborative_filtering.py:50-98 | an unknown user gets the mean of all user means, NaN when there are none; a known user gets `PredictKnown` |
| UserBased.NeighbourSelection | recommendation-system/scripts/collaborative_filtering.py:65-75 | the neighbours are min(n_neighbors, raters) raters other than u, and none left out is more similar than one chosen; the candidates have distinct ids, so the count is one per rater; a candidate with the same similarity as a chosen one but earlier in the index is chosen too (keep='first') |
| UserBased.PredictionFallsBackOrClamps | recommendation-system/scripts/collaborative_filtering.py:71-98 | a prediction for a known user is either the user's mean or a value in [1,5] |
| UserBased.PredictionInRange | recommendation-system/scripts/collaborative_filtering.py:50-98 | with the means fit computes, on entries 0 or in [1,5], a user who rated something is predicted a value in [1,5] |
| UserBased.Fallbacks | recommendation-system/scripts/collaborative_filtering.py:55-60 | an unknown item, and a user absent from the similarity index (rated nothing), get the user's mean |
| UserBased.UnknownUserRange | recommendation-system/scripts/collaborative_filtering.py:52-53 | with the means fit computes, an unknown user gets NaN exactly when there are no users, and otherwise a value in [0,5], which can fall below 1 |
| UserBased.UnknownUserBelowOne | recommendation-system/scripts/collaborative_filtering.py:52-53 | users with means 1 and 0 make an unknown user's prediction 0.5, below the rating scale |
| UserBased.UnratedUserPredictsZero | recommendation-system/scripts/collaborative_filtering.py:59-60 | with the means fit computes, a user whose row is all 0 is predicted 0, outside [1,5] |
| UserBased.NoPositiveNeighbourFallsBack | recommendation-system/scripts/collaborative_filtering.py:84-93 | when no chosen neighbour has positive similarity, the prediction is the user's mean |
| UserBased.CancellingNeighboursFallBack | recommendation-system/scripts/collaborative_filtering.py:77-78 | when the chosen neighbours' similarities sum to 0, the prediction is the user's mean, whatever the positive ones would contribute |
| UserBased.CancellingNeighboursExample | recommendation-system/scripts/collaborative_filtering.py:77-95 | for a fitted model whose neighbourhood is a 0.5-similar user rating the item 2 above that user's mean and a -0.5-similar user: the weighted average of the deviations is 2, yet the similarities sum to 0, so the prediction is u's mean and not the mean plus 2 |
| UserBased.DeviationsStep | recommendation-system/scripts/collaborative_filtering.py:84-90 | each neighbour adds sim·(rating − its mean) to the numerator and \|sim\| to the denominator exactly when its similarity is positive |
| UserBased.NeighbourPredictionBetween | recommendation-system/scripts/collaborative_filtering.py:84-98 | on the neighbour path the prediction lies between the clamped mean plus the smallest and the largest centred neighbour rating |
| UserBased.Candidates | recommendation-system/scripts/collaborative_filtering.py:105-111 | the (item, prediction) pairs of u's unrated items, in column order |
| UserBased.Recommendations | recommendation-system/scripts/collaborative_filtering.py:100-115 | an unknown user gets []; otherwise the candidates sorted in descending order of prediction and cut with `[:n]` |
| UserBased.RecommendsUnratedOnly | recommendation-system/scripts/collaborative_filtering.py:100-111 | an unknown user gets []; every pair returned names an item whose entry for u is 0, with its prediction |
| UserBased.RecommendsCount | recommendation-system/scripts/collaborative_filtering.py:100-115 | the list has min(n, number of unrated items) pairs for n >= 0, and never more than the unrated items |
| UserBased.RecommendsRanked | recommendation-system/scripts/collaborative_filtering.py:113-115 | the list is non-increasing, no omitted item is predicted higher than a listed one, and ties keep column order |
| UserBased.UserBasedCF.constructor | recommendation-system/scripts/collaborative_filtering.py:9-13 | stores the neighbour count, 50 when none is given; the model is not yet fitted |
| UserBased.UserBasedCF.Fit | recommendation-system/scripts/collaborative_filtering.py:15-46 | stores the matrix, the given means or, when none are given (the default), the per-user means it computes in a loop, the active users and the similarity table; leaves the model ready |
| UserBased.UserBasedCF.Predict | recommendation-system/scripts/collaborative_filtering.py:50-98 | returns `Prediction` of the fitted state, whose properties the lemmas above state |
| UserBased.UserBasedCF.Accumulate | recommendation-system/scripts/collaborative_filtering.py:81-90 | the loop's numerator and denominator are the sums over neighbours with positive similarity of sim·(rating − neighbour mean) and \|sim\| |
| UserBased.UserBasedCF.Recommend | recommendation-system/scripts/collaborative_filtering.py:100-115 | returns `Recommendations` of the fitted state (n defaults to 10), built by predicting each unrated item in column order, then sorting and slicing |
| UserBased.NewDefault | recommendation-system/scripts/collaborative_filtering.py:9-13 | `UserBasedCollaborativeFiltering()` makes an unfitted model with 50 neighbours |
| ItemBased.ActiveItemsUpTo | recommendation-system/scripts/collaborative_filtering.py:130-134 | among the first n columns, the items whose column has a positive entry, in column order |
| ItemBased.ActiveItems | recommendation-system/scripts/collaborative_filtering.py:130-134 | the active items over all columns; they index the similarity table |
| ItemBased.Valid | recommendation-system/scripts/collaborative_filtering.py:127-144 | what `fit` leaves: a well-formed matrix, the active items as similarity index, and a square table over them |
| ItemBased.ActiveItemsUpToMembers | recommendation-system/scripts/collaborative_filtering.py:132-134 | an item is active exactly when its column has a positive entry |
| ItemBased.RatedItemIsActive | recommendation-system/scripts/collaborative_filtering.py:132-134 | an item some user rated positively indexes the similarity table |
| ItemBased.UnratedItemInactive | recommendation-system/scripts/collaborative_filtering.py:132-134 | an item whose column has no positive entry does not index the similarity table |
| ItemBased.ActiveItemsDistinct | recommendation-system/scripts/collaborative_filtering.py:132-134 | the active items, which index the similarity table, are distinct |
| ItemBased.ItemMeansUpTo | recommendation-system/scripts/collaborative_filtering.py:152-153 | `all_ratings.mean()` without its NaN entries: the mean of each rated column's positive entries, in column order |
| ItemBased.GlobalMean | recommendation-system/scripts/collaborative_filtering.py:152-153 | `.mean().mean()`: the mean of the item means, NaN when no item is rated |
| ItemBased.ItemMeansCount | recommendation-system/scripts/collaborative_filtering.py:152-153 | `all_ratings.mean()` has one non-NaN mean per active item |
| ItemBased.ItemMeansBetween | recommendation-system/scripts/collaborative_filtering.py:152-153 | on entries 0 or in [1,5] every item mean lies in [1,5] |
| ItemBased.GlobalMeanRange | recommendation-system/scripts/collaborative_filtering.py:150-153 | the global mean an unknown user gets is NaN exactly when no item is active, and otherwise lies in [1,5] on entries 0 or in [1,5] |
| ItemBased.RatedUpTo | recommendation-system/scripts/collaborative_filtering.py:170-175 | among the first n items of the similarity index, those other than i that u rated positively, each with i's similarity to it |
| ItemBased.Relevant | recommendation-system/scripts/collaborative_filtering.py:167-175 | `relevant_similarities`: the candidates over the whole similarity index |
| ItemBased.RelevantAreRated | recommendation-system/scripts/collaborative_filtering.py:169-175 | the candidate neighbours are exactly the items other than i that u rated positively |
| ItemBased.RatedDistinct | recommendation-system/scripts/collaborative_filtering.py:170-175 | no item appears twice among the candidate neighbours, and none is drawn from a later position of the index |
| ItemBased.Neighbourhood | recommendation-system/scripts/collaborative_filtering.py:182 | `top_similar_items`: the n_neighbors most similar candidates |
| ItemBased.OwnRatings | recommendation-system/scripts/collaborative_filtering.py:192-195 | for each neighbour, its similarity and u's rating of it |
| ItemBased.MeanOr3 | recommendation-system/scripts/collaborative_filtering.py:157-159 | the mean of the row's positive entries, or 3.0 when there are none |
| ItemBased.UsesNeighbours | recommendation-system/scripts/collaborative_filtering.py:155-200 | the prediction reaches the weighted average: the item is known and active, there are candidates, the selection is non-empty, its similarities do not sum to 0, and the denominator is not 0 |
| ItemBased.PredictKnown | recommendation-system/scripts/collaborative_filtering.py:155-205 | for a user of the matrix: `MeanOr3` of the user's row on every early exit, otherwise `max(1, min(5, numerator / denominator))` |
| ItemBased.Prediction | recommendation-system/scripts/collaborative_filtering.py:148-205 | an unknown user gets `GlobalMean`; a known user gets `PredictKnown` |
| ItemBased.NeighbourSelection | recommendation-system/scripts/collaborative_filtering.py:174-182 | the neighbours are min(n_neighbors, rated items) items u rated, and none left out is more similar than one chosen; the candidates have distinct ids, so the count is one per rated item; a candidate with the same similarity as a chosen one but earlier in the index is chosen too (keep='first') |
| ItemBased.PredictionInRange | recommendation-system/scripts/collaborative_filtering.py:155-205 | on entries 0 or in [1,5], every prediction for a known user lies in [1,5] |
| ItemBased.WeightedAverageNeedsNoClamp | recommendation-system/scripts/collaborative_filtering.py:188-205 | on such entries the neighbour path returns exactly Σ sim·r / Σ\|sim\| over positive similarities: the clamp never fires |
| ItemBased.Fallbacks | recommendation-system/scripts/collaborative_filtering.py:155-165 | an unknown item, and an item of the matrix whose column has no positive entry (absent from the similarity index), get the user's mean of positive entries (or 3.0); a user who rated nothing gets 3.0 for every item |
| ItemBased.UnratedItemFallsBack | recommendation-system/scripts/collaborative_filtering.py:162-165 | an item of the matrix that nobody rated positively gets the user's mean of positive entries, or 3.0 |
| ItemBased.NoRatingsFallsBack | recommendation-system/scripts/collaborative_filtering.py:155-200 | a user who rated nothing gets 3.0 for every item, on every path |
| ItemBased.NothingRatedNoCandidates | recommendation-system/scripts/collaborative_filtering.py:170-179 | a user who rated nothing has no candidate neighbours for any item |
| ItemBased.NoPositiveNeighbourFallsBack | recommendation-system/scripts/collaborative_filtering.py:188-200 | when no chosen item has positive similarity, the prediction is the user's mean of positive entries, or 3.0 |
| ItemBased.CancellingNeighboursFallBack | recommendation-system/scripts/collaborative_filtering.py:184-186 | when the chosen items' similarities sum to 0, the prediction is the user's mean of positive entries (or 3.0) |
| ItemBased.OwnRatingsStep | recommendation-system/scripts/collaborative_filtering.py:192-196 | each chosen item adds sim·(u's rating) to the numerator and \|sim\| to the denominator exactly when its similarity is positive |
| ItemBased.Candidates | recommendation-system/scripts/collaborative_filtering.py:212-218 | the (item, prediction) pairs of u's unrated items, in column order |
| ItemBased.Recommendations | recommendation-system/scripts/collaborative_filtering.py:207-222 | an unknown user gets []; otherwise the candidates sorted in descending order of prediction and cut with `[:n]` |
| ItemBased.RecommendsUnratedOnly | recommendation-system/scripts/collaborative_filtering.py:207-218 | an unknown user gets []; every pair returned names an item whose entry for u is 0, with its prediction |
| ItemBased.RecommendsCount | recommendation-system/scripts/collaborative_filtering.py:220-222 | the list has min(n, number of unrated items) pairs for n >= 0, and never more than the unrated items |
| ItemBased.RecommendsRanked | recommendation-system/scripts/collaborative_filtering.py:220-222 | the list is non-increasing, no omitted item is predicted higher than a listed one, and ties keep column order |
| ItemBased.ItemBasedCF.constructor | recommendation-system/scripts/collaborative_filtering.py:118-121 | stores the neighbour count, 50 when none is given; the model is not yet fitted |
| ItemBased.ItemBasedCF.Fit | recommendation-system/scripts/collaborative_filtering.py:123-144 | stores the matrix, the active items and the similarity table; leaves the model ready |
| ItemBased.ItemBasedCF.Predict | recommendation-system/scripts/collaborative_filtering.py:148-205 | returns `Prediction` of the fitted state, whose properties the lemmas above state |
| ItemBased.ItemBasedCF.Accumulate | recommendation-system/scripts/collaborative_filtering.py:188-196 | the loop's numerator and denominator are the sums over neighbours with positive similarity of sim·r and \|sim\| |
| ItemBased.ItemBasedCF.Recommend | recommendation-system/scripts/collaborative_filtering.py:207-222 | returns `Recommendations` of the fitted state (n defaults to 10), built by predicting each unrated item in column order, then sorting and slicing |
| ItemBased.NewDefault | recommendation-system/scripts/collaborative_filtering.py:118-121 | `ItemBasedCollaborativeFiltering()` makes an unfitted model with 50 neighbours |
| Split.TestIndices | recommendation-system/scripts/collaborative_filtering.py:270 | `np.setdiff1d(np.arange(n), train)`: the positions 0..n-1 that are not training positions, ascending |
| Split.TestIndicesMembers | recommendation-system/scripts/collaborative_filtering.py:270 | a position is a test position exactly when it is in 0..n-1 and not a training position |
| Split.TestIndicesAscending | recommendation-system/scripts/collaborative_filtering.py:270 | the test positions are strictly ascending (sorted, without repeats) |
| Split.SplitCovers | recommendation-system/scripts/collaborative_filtering.py:269-270 | the test rows and the distinct training rows together number n |
| Split.TestSize | recommendation-system/scripts/collaborative_filtering.py:269-270 | with distinct in-range training positions (replace=False), there are exactly n − \|train\| test rows |
| Preprocess.KeepMembers | recommendation-system/scripts/data_preprocessing.py:47-50 | a boolean-mask filter keeps exactly the rows satisfying the mask |
| Preprocess.KeepSubsequence | recommendation-system/scripts/data_preprocessing.py:47-50 | a boolean-mask filter only removes rows and keeps the order |
| Preprocess.DropMissing | recommendation-system/scripts/data_preprocessing.py:28 | `ratings.dropna()`: the rows with every field present, in order |
| Preprocess.DropMissingMembers | recommendation-system/scripts/data_preprocessing.py:28 | a row survives `dropna` exactly when none of its fields is missing |
| Preprocess.InRange | recommendation-system/scripts/data_preprocessing.py:33 | the rows whose rating lies in [1,5], in order |
| Preprocess.MinCountFilter | recommendation-system/scripts/data_preprocessing.py:36-50 | the rows whose user and whose item each have at least 5 rows, counted once on the filter's input |
| Preprocess.CleanRatings | recommendation-system/scripts/data_preprocessing.py:27-50 | `ratings_filtered`: `dropna`, then the range filter, then the count filter |
| Preprocess.CleanInRange | recommendation-system/scripts/data_preprocessing.py:33 | every retained rating lies in [1,5] |
| Preprocess.CleanMembership | recommendation-system/scripts/data_preprocessing.py:33-50 | a rating survives exactly when it is a complete row, in [1,5], and its user and its item each have at least 5 complete in-range ratings |
| Preprocess.CleanSubsequence | recommendation-system/scripts/data_preprocessing.py:47-50 | the filtered ratings are a subsequence of the complete rows: nothing added or modified |
| Preprocess.OnePassFilter | recommendation-system/scripts/data_preprocessing.py:39-50 | counts are taken once: in a concrete table a user and an item with 5 ratings each keep a single rating after filtering |
| Preprocess.PivotCell | recommendation-system/scripts/data_preprocessing.py:58-62 | the mean of the ratings given to the pair, and 0 when there are none |
| Preprocess.Pivot | recommendation-system/scripts/data_preprocessing.py:58-62 | `pivot_table(...).fillna(0)`: rows for the distinct user ids, columns for the distinct item ids, each ascending, holding `PivotCell` |
| Preprocess.PivotShape | recommendation-system/scripts/data_preprocessing.py:58-62 | the matrix is indexed by the distinct user ids and item ids of the ratings, each ascending |
| Preprocess.PivotCellRange | recommendation-system/scripts/data_preprocessing.py:58-62 | a cell is positive exactly when the pair was rated, is then the mean of its ratings in [1,5], and is 0 otherwise |
| Preprocess.PivotEntries | recommendation-system/scripts/data_preprocessing.py:58-62 | on ratings in [1,5] every cell of the pivot is 0 or in [1,5] |
| Preprocess.PivotRowsRated | recommendation-system/scripts/data_preprocessing.py:58-62 | every user of the pivot has a positive entry |
| Preprocess.CleanMatrixEntries | recommendation-system/scripts/data_preprocessing.py:33-62 | the cleaned matrix is well formed, holds only 0 and ratings in [1,5], and every user in it rated something |
| Preprocess.Normalized | recommendation-system/scripts/data_preprocessing.py:79-93 | the matrix with every user's row centred on that user's mean |
| Preprocess.NormalizeRatings | recommendation-system/scripts/data_preprocessing.py:77-99 | the loop returns the centred matrix and one (user, mean) pair per user in index order, the mean over positive entries or 0 |
| Preprocess.NormalizedCells | recommendation-system/scripts/data_preprocessing.py:89-91 | an entry that was not positive stays as it was, a positive entry r becomes r − user mean, and the centred rated entries sum to 0 |
| Preprocess.NormalizedRange | recommendation-system/scripts/data_preprocessing.py:81-93 | on entries 0 or in [1,5], zeros stay 0 and a rated entry becomes a value in [-4,4], with the mean in [1,5] |

## Left out

- File input and output are not modelled: `load_data`, `read_csv`, `to_csv`, and pickling of the trained models.
- `print` output and the script drivers at the bottom of each file are not modelled.
- `cosine_similarity` (collaborative_filtering.py:41, :139) needs square roots and a foreign library. `Fit` takes the similarity table as an argument instead.
- RMSE and MAE in `evaluate_model` are not modelled. They take a square root over floats and are computed by sklearn.
- numpy's random choice of training rows is not modelled. `Split` takes an arbitrary training sequence, so the size `int(0.8 * n)` and the seed are outside the model.
- The training matrix's `reindex` to the full matrix's labels is not modelled.
- The `dropna` calls on the movies and users tables (data_preprocessing.py:29-30) do not affect either result, so they are omitted.
- `data_collection.py` (an HTTP download and synthetic data generation) is not part of this model.
- `exploratory_analysis.py` (printed statistics and plotting) is not part of this model.
- Floating-point arithmetic is modelled with exact reals, so rounding in sums, means and divisions is not captured.
- pandas' NaN appears only where the model needs it. It is the `Score.NaN` result for an unknown user when there is nothing to average. NaN ratings in the raw table are modelled as missing fields.
- A rating's timestamp is carried through the filters unchanged.
- The pivot sorts ids ascending, as `pivot_table` does; `Matrix` itself allows any distinct ids.
- NormalizeRatings: works on a `Matrix` value, so the copy at data_preprocessing.py:79 is implicit. Aliasing cannot arise in the model, so "the input is not mutated" holds by construction and is not stated as a separate property.
- UserBased.UserBasedCF.Fit: a user-supplied means table is only required to give a mean for every user. Its values are not checked, as in the source.
