/** `data_preprocessing.py`: cleaning the raw ratings table (missing values,
    the [1,5] range, the minimum-count filter), pivoting it into the
    zero-filled user x item matrix, and centring each user's ratings on the
    user's mean. */
module Preprocess {
  import opened UserItem

  /** A row of `ratings.csv`; a missing field is `None` (NaN in pandas). */
  datatype RawRating = RawRating(user: Option<int>, item: Option<int>, rating: Option<real>, timestamp: Option<int>)

  /** A complete row. */
  datatype Rating = Rating(user: int, item: int, rating: real, timestamp: int)

  const MinRatingsPerUser := 5
  const MinRatingsPerItem := 5

  lemma {:induction false} KeepMembers<T>(s: seq<T>, p: T -> bool)
    ensures forall x :: x in Keep(s, p) <==> x in s && p(x)
  {
    if s != [] {
      KeepMembers(s[..|s| - 1], p);
      assert s == s[..|s| - 1] + [s[|s| - 1]];
    }
  }

  /** a is b with some elements removed, the rest in their order and unchanged. */
  predicate Subsequence<T(==)>(a: seq<T>, b: seq<T>)
    decreases |b|
  {
    if b == [] then a == []
    else
      Subsequence(a, b[..|b| - 1]) ||
      (a != [] && a[|a| - 1] == b[|b| - 1] && Subsequence(a[..|a| - 1], b[..|b| - 1]))
  }

  /** Filtering adds nothing and changes nothing. */
  lemma {:induction false} KeepSubsequence<T>(s: seq<T>, p: T -> bool)
    ensures Subsequence(Keep(s, p), s)
  {
    if s != [] {
      KeepSubsequence(s[..|s| - 1], p);
      var k := Keep(s, p);
      if p(s[|s| - 1]) {
        assert k == Keep(s[..|s| - 1], p) + [s[|s| - 1]];
        assert k[..|k| - 1] == Keep(s[..|s| - 1], p);
        assert k != [] && k[|k| - 1] == s[|s| - 1] && Subsequence(k[..|k| - 1], s[..|s| - 1]);
      } else {
        assert k == Keep(s[..|s| - 1], p);
      }
    }
  }

  /** `ratings.dropna()`: only the rows with every field present. */
  function DropMissing(raw: seq<RawRating>): seq<Rating> {
    if raw == [] then []
    else
      var r := raw[|raw| - 1];
      DropMissing(raw[..|raw| - 1]) +
      (if r.user.Some? && r.item.Some? && r.rating.Some? && r.timestamp.Some?
       then [Rating(r.user.value, r.item.value, r.rating.value, r.timestamp.value)]
       else [])
  }

  /** A row survives `dropna` exactly when none of its fields is missing. */
  lemma {:induction false} DropMissingMembers(raw: seq<RawRating>)
    ensures forall r :: r in DropMissing(raw) <==>
              RawRating(Some(r.user), Some(r.item), Some(r.rating), Some(r.timestamp)) in raw
  {
    if raw != [] {
      DropMissingMembers(raw[..|raw| - 1]);
      assert raw == raw[..|raw| - 1] + [raw[|raw| - 1]];
    }
  }

  /** `ratings[(rating >= 1) & (rating <= 5)]` */
  function InRange(rs: seq<Rating>): seq<Rating> {
    Keep(rs, (r: Rating) => 1.0 <= r.rating <= 5.0)
  }

  /** `value_counts()` of a user id. */
  function CountUser(rs: seq<Rating>, u: int): nat {
    |Keep(rs, (r: Rating) => r.user == u)|
  }

  /** `value_counts()` of an item id. */
  function CountItem(rs: seq<Rating>, i: int): nat {
    |Keep(rs, (r: Rating) => r.item == i)|
  }

  /** The user/item filter: counts are taken once, on `rs` itself, and the
      filter is not repeated afterwards. */
  function MinCountFilter(rs: seq<Rating>): seq<Rating> {
    Keep(rs, (r: Rating) => CountUser(rs, r.user) >= MinRatingsPerUser &&
                            CountItem(rs, r.item) >= MinRatingsPerItem)
  }

  /** `ratings_filtered`, the first result of `clean_and_preprocess_data`. */
  function CleanRatings(raw: seq<RawRating>): seq<Rating> {
    MinCountFilter(InRange(DropMissing(raw)))
  }

  /** Every retained rating lies in [1,5]. */
  lemma CleanInRange(raw: seq<RawRating>)
    ensures forall r :: r in CleanRatings(raw) ==> 1.0 <= r.rating <= 5.0
  {
    var ranged := InRange(DropMissing(raw));
    KeepMembers(DropMissing(raw), (r: Rating) => 1.0 <= r.rating <= 5.0);
    KeepMembers(ranged, (r: Rating) => CountUser(ranged, r.user) >= MinRatingsPerUser &&
                                       CountItem(ranged, r.item) >= MinRatingsPerItem);
  }

  /** A complete in-range row survives exactly when its user and its item
      each have at least five complete in-range rows. */
  lemma CleanMembership(raw: seq<RawRating>)
    ensures var ranged := InRange(DropMissing(raw));
            forall r :: r in CleanRatings(raw) <==>
              RawRating(Some(r.user), Some(r.item), Some(r.rating), Some(r.timestamp)) in raw &&
              1.0 <= r.rating <= 5.0 &&
              CountUser(ranged, r.user) >= 5 && CountItem(ranged, r.item) >= 5
  {
    var ranged := InRange(DropMissing(raw));
    DropMissingMembers(raw);
    KeepMembers(DropMissing(raw), (r: Rating) => 1.0 <= r.rating <= 5.0);
    KeepMembers(ranged, (r: Rating) => CountUser(ranged, r.user) >= MinRatingsPerUser &&
                                       CountItem(ranged, r.item) >= MinRatingsPerItem);
  }

  /** Cleaning only removes rows of the complete table, keeping the order. */
  lemma CleanSubsequence(raw: seq<RawRating>)
    ensures Subsequence(CleanRatings(raw), DropMissing(raw))
  {
    var complete := DropMissing(raw);
    var ranged := InRange(complete);
    KeepSubsequence(complete, (r: Rating) => 1.0 <= r.rating <= 5.0);
    KeepSubsequence(ranged, (r: Rating) => CountUser(ranged, r.user) >= MinRatingsPerUser &&
                                           CountItem(ranged, r.item) >= MinRatingsPerItem);
    SubsequenceTransitive(CleanRatings(raw), ranged, complete);
  }

  lemma {:induction false} SubsequenceTransitive<T>(a: seq<T>, b: seq<T>, c: seq<T>)
    requires Subsequence(a, b) && Subsequence(b, c)
    ensures Subsequence(a, c)
    decreases |c|
  {
    if c == [] {
    } else if Subsequence(b, c[..|c| - 1]) {
      SubsequenceTransitive(a, b, c[..|c| - 1]);
    } else {
      var b', c' := b[..|b| - 1], c[..|c| - 1];
      if Subsequence(a, b') {
        SubsequenceTransitive(a, b', c');
      } else {
        SubsequenceTransitive(a[..|a| - 1], b', c');
      }
    }
  }

  /** Unfolding `Keep` one row at a time over every prefix of s. */
  lemma KeepPrefixes<T>(s: seq<T>, p: T -> bool)
    ensures forall n {:trigger Keep(s[..n], p)} :: 0 < n <= |s| ==>
              Keep(s[..n], p) == Keep(s[..n - 1], p) + (if p(s[n - 1]) then [s[n - 1]] else [])
  {
    forall n | 0 < n <= |s|
      ensures Keep(s[..n], p) == Keep(s[..n - 1], p) + (if p(s[n - 1]) then [s[n - 1]] else [])
    {
      assert s[..n][..n - 1] == s[..n - 1];
    }
  }

  /** User 1 rates items 1..5 and users 2..5 rate item 1. */
  const OnePassExample := [Rating(1, 1, 4.0, 0), Rating(1, 2, 4.0, 0), Rating(1, 3, 4.0, 0),
                           Rating(1, 4, 4.0, 0), Rating(1, 5, 4.0, 0), Rating(2, 1, 4.0, 0),
                           Rating(3, 1, 4.0, 0), Rating(4, 1, 4.0, 0), Rating(5, 1, 4.0, 0)]

  lemma ExampleUserCount(u: int)
    requires 1 <= u <= 5
    ensures CountUser(OnePassExample, u) == if u == 1 then 5 else 1
  {
    assert OnePassExample[..0] == [] && OnePassExample[..9] == OnePassExample;
    KeepPrefixes(OnePassExample, (r: Rating) => r.user == u);
  }

  lemma ExampleItemCount(i: int)
    requires 1 <= i <= 5
    ensures CountItem(OnePassExample, i) == if i == 1 then 5 else 1
  {
    assert OnePassExample[..0] == [] && OnePassExample[..9] == OnePassExample;
    KeepPrefixes(OnePassExample, (r: Rating) => r.item == i);
  }

  lemma ExampleFiltered()
    ensures MinCountFilter(OnePassExample) == [Rating(1, 1, 4.0, 0)]
  {
    var rs := OnePassExample;
    forall u | 1 <= u <= 5
      ensures CountUser(rs, u) == (if u == 1 then 5 else 1)
      ensures CountItem(rs, u) == (if u == 1 then 5 else 1)
    {
      ExampleUserCount(u);
      ExampleItemCount(u);
    }
    assert rs[..0] == [] && rs[..9] == rs;
    KeepPrefixes(rs, (r: Rating) => CountUser(rs, r.user) >= MinRatingsPerUser &&
                                    CountItem(rs, r.item) >= MinRatingsPerItem);
  }

  /** The filter is applied once, not until nothing changes: in the example
      user 1 and item 1 have five ratings each before filtering, only their
      common rating survives, and in the result each has a single rating. */
  lemma OnePassFilter()
    ensures CountUser(OnePassExample, 1) >= MinRatingsPerUser
    ensures CountItem(OnePassExample, 1) >= MinRatingsPerItem
    ensures MinCountFilter(OnePassExample) == [Rating(1, 1, 4.0, 0)]
    ensures CountUser(MinCountFilter(OnePassExample), 1) == 1 < MinRatingsPerUser
    ensures CountItem(MinCountFilter(OnePassExample), 1) == 1 < MinRatingsPerItem
  {
    ExampleUserCount(1);
    ExampleItemCount(1);
    ExampleFiltered();
    var out := MinCountFilter(OnePassExample);
    assert out[..0] == [] && out[..1] == out;
    KeepPrefixes(out, (r: Rating) => r.user == 1);
    KeepPrefixes(out, (r: Rating) => r.item == 1);
  }

  // ---------------------------------------------------------------------
  // pivot_table(index='user_id', columns='item_id', values='rating').fillna(0)

  /** Insert x into an ascending id list unless it is there already. */
  function InsertId(x: int, s: seq<int>): seq<int> {
    if s == [] then [x]
    else if x < s[0] then [x] + s
    else if x == s[0] then s
    else [s[0]] + InsertId(x, s[1..])
  }

  /** The distinct ids of xs in ascending order, as a pivot's index. */
  function SortedIds(xs: seq<int>): seq<int> {
    if xs == [] then [] else InsertId(xs[0], SortedIds(xs[1..]))
  }

  lemma {:induction false} InsertIdProps(x: int, s: seq<int>)
    requires StrictlyAscending(s)
    ensures StrictlyAscending(InsertId(x, s))
    ensures forall y :: y in InsertId(x, s) <==> y == x || y in s
  {
    if s != [] && x > s[0] {
      InsertIdProps(x, s[1..]);
      var t := InsertId(x, s[1..]);
      forall b | 0 <= b < |t| ensures s[0] < t[b] {
        assert t[b] in t;
        if t[b] != x {
          var k :| 0 <= k < |s[1..]| && s[1..][k] == t[b];
          assert s[k + 1] == t[b];
        }
      }
      assert s == [s[0]] + s[1..];
    }
  }

  lemma {:induction false} SortedIdsProps(xs: seq<int>)
    ensures StrictlyAscending(SortedIds(xs))
    ensures forall y :: y in SortedIds(xs) <==> y in xs
  {
    if xs != [] {
      SortedIdsProps(xs[1..]);
      InsertIdProps(xs[0], SortedIds(xs[1..]));
      assert xs == [xs[0]] + xs[1..];
    }
  }

  function UserIds(rs: seq<Rating>): seq<int> {
    SortedIds(seq(|rs|, k requires 0 <= k < |rs| => rs[k].user))
  }

  function ItemIds(rs: seq<Rating>): seq<int> {
    SortedIds(seq(|rs|, k requires 0 <= k < |rs| => rs[k].item))
  }

  /** The ratings given to one (user, item) pair, in row order. */
  function PairRatings(rs: seq<Rating>, u: int, i: int): (vals: seq<real>) {
    var pair := Keep(rs, (r: Rating) => r.user == u && r.item == i);
    seq(|pair|, k requires 0 <= k < |pair| => pair[k].rating)
  }

  /** pivot_table's default aggregation is the mean; absent pairs become 0. */
  function PivotCell(rs: seq<Rating>, u: int, i: int): real {
    var vals := PairRatings(rs, u, i);
    if |vals| > 0 then Mean(vals) else 0.0
  }

  /** The user x item matrix. */
  function Pivot(rs: seq<Rating>): Matrix {
    var users, items := UserIds(rs), ItemIds(rs);
    Matrix(users, items,
           seq(|users|, a requires 0 <= a < |users| =>
             seq(|items|, b requires 0 <= b < |items| => PivotCell(rs, users[a], items[b]))))
  }

  /** `clean_and_preprocess_data`: the filtered ratings and their matrix. */
  function CleanAndPivot(raw: seq<RawRating>): (seq<Rating>, Matrix) {
    var rs := CleanRatings(raw);
    (rs, Pivot(rs))
  }

  /** The pivot is indexed by the distinct user ids and item ids of the
      ratings, each ascending. */
  lemma PivotShape(rs: seq<Rating>)
    ensures WellFormed(Pivot(rs))
    ensures StrictlyAscending(Pivot(rs).users) && StrictlyAscending(Pivot(rs).items)
    ensures forall u :: u in Pivot(rs).users <==> exists r :: r in rs && r.user == u
    ensures forall i :: i in Pivot(rs).items <==> exists r :: r in rs && r.item == i
  {
    var us := seq(|rs|, k requires 0 <= k < |rs| => rs[k].user);
    var its := seq(|rs|, k requires 0 <= k < |rs| => rs[k].item);
    SortedIdsProps(us);
    SortedIdsProps(its);
    forall u | exists r :: r in rs && r.user == u ensures u in us {
      var r :| r in rs && r.user == u;
      var k :| 0 <= k < |rs| && rs[k] == r;
      assert us[k] == u;
    }
    forall i | exists r :: r in rs && r.item == i ensures i in its {
      var r :| r in rs && r.item == i;
      var k :| 0 <= k < |rs| && rs[k] == r;
      assert its[k] == i;
    }
  }

  /** On ratings in [1,5] a cell of the pivot is positive exactly when the
      pair was rated, is then the mean of its ratings in [1,5], and is 0
      otherwise. */
  lemma PivotCellRange(rs: seq<Rating>, u: int, i: int)
    requires forall r :: r in rs ==> 1.0 <= r.rating <= 5.0
    ensures PivotCell(rs, u, i) > 0.0 <==> exists r :: r in rs && r.user == u && r.item == i
    ensures PivotCell(rs, u, i) == 0.0 || 1.0 <= PivotCell(rs, u, i) <= 5.0
    ensures |PairRatings(rs, u, i)| > 0 ==> PivotCell(rs, u, i) == Mean(PairRatings(rs, u, i))
  {
    var pair := Keep(rs, (r: Rating) => r.user == u && r.item == i);
    var vals := PairRatings(rs, u, i);
    KeepMembers(rs, (r: Rating) => r.user == u && r.item == i);
    forall r | r in rs && r.user == u && r.item == i ensures |vals| > 0 {
      assert r in pair;
    }
    if |vals| > 0 {
      forall k | 0 <= k < |vals| ensures 1.0 <= vals[k] <= 5.0 {
        assert pair[k] in pair;
      }
      MeanBetween(vals, 1.0, 5.0);
      assert pair[0] in pair;
    }
  }

  /** Every entry is 0 (unrated) or a rating in [1,5]. */
  predicate RatingEntries(m: Matrix) {
    forall a, b :: 0 <= a < |m.cells| && 0 <= b < |m.cells[a]| ==>
      m.cells[a][b] == 0.0 || 1.0 <= m.cells[a][b] <= 5.0
  }

  /** Every user has at least one positive entry, so no user mean falls back to 0. */
  predicate UsersRated(m: Matrix) {
    forall a :: 0 <= a < |m.cells| ==> |Positives(m.cells[a])| > 0
  }

  /** On ratings in [1,5] the pivot holds only 0 and ratings in [1,5]. */
  lemma PivotEntries(rs: seq<Rating>)
    requires forall r :: r in rs ==> 1.0 <= r.rating <= 5.0
    ensures RatingEntries(Pivot(rs))
  {
    var m := Pivot(rs);
    forall a, b | 0 <= a < |m.users| && 0 <= b < |m.items|
      ensures m.cells[a][b] == 0.0 || 1.0 <= m.cells[a][b] <= 5.0
    {
      assert m.cells[a][b] == PivotCell(rs, m.users[a], m.items[b]);
      PivotCellRange(rs, m.users[a], m.items[b]);
    }
  }

  /** On ratings in [1,5] every user of the pivot has a positive entry. */
  lemma PivotRowsRated(rs: seq<Rating>)
    requires forall r :: r in rs ==> 1.0 <= r.rating <= 5.0
    ensures UsersRated(Pivot(rs))
  {
    var m := Pivot(rs);
    PivotShape(rs);
    forall a | 0 <= a < |m.cells| ensures |Positives(m.cells[a])| > 0 {
      PivotRowRated(rs, a);
    }
  }

  lemma PivotRowRated(rs: seq<Rating>, a: nat)
    requires forall r :: r in rs ==> 1.0 <= r.rating <= 5.0
    requires a < |Pivot(rs).cells|
    ensures |Positives(Pivot(rs).cells[a])| > 0
  {
    var m := Pivot(rs);
    PivotShape(rs);
    var u := m.users[a];
    assert u in m.users;
    var r :| r in rs && r.user == u;
    assert r.item in m.items;
    var b := IndexOf(m.items, r.item);
    assert m.cells[a][b] == PivotCell(rs, u, r.item);
    PivotCellRange(rs, u, r.item);
    PositivesEmpty(m.cells[a]);
  }

  /** The cleaned matrix holds only 0 and ratings in [1,5], and every user
      of it has at least one rating: the conditions under which the
      recommenders' means and predictions stay in [1,5]. */
  lemma CleanMatrixEntries(raw: seq<RawRating>)
    ensures WellFormed(CleanAndPivot(raw).1)
    ensures RatingEntries(CleanAndPivot(raw).1) && UsersRated(CleanAndPivot(raw).1)
  {
    var rs := CleanRatings(raw);
    CleanInRange(raw);
    PivotShape(rs);
    PivotEntries(rs);
    PivotRowsRated(rs);
  }

  // ---------------------------------------------------------------------
  // normalize_ratings

  /** The matrix `normalize_ratings` returns: every user's positive entries
      minus that user's mean, everything else as it was. */
  function Normalized(m: Matrix): (n: Matrix)
    requires WellFormed(m)
    ensures WellFormed(n)
  {
    Matrix(m.users, m.items,
           seq(|m.users|, a requires 0 <= a < |m.users| => CenterRow(m.cells[a], UserMean(m.cells[a]))))
  }

  /** `normalize_ratings(matrix)`: walks the users in index order, appending
      each mean and overwriting the user's positive entries in a copy. */
  method NormalizeRatings(m: Matrix) returns (normalized: Matrix, userMeans: seq<(int, real)>)
    requires WellFormed(m)
    ensures normalized == Normalized(m)
    ensures userMeans == UserMeans(m)
  {
    normalized := m;
    userMeans := [];
    for a := 0 to |m.users|
      invariant WellFormed(normalized)
      invariant normalized.users == m.users && normalized.items == m.items
      invariant forall a' :: 0 <= a' < a ==>
                  normalized.cells[a'] == CenterRow(m.cells[a'], UserMean(m.cells[a']))
      invariant forall a' :: a <= a' < |m.users| ==> normalized.cells[a'] == m.cells[a']
      invariant userMeans == UserMeans(m)[..a]
    {
      var row := m.cells[a];
      var nonZero := Positives(row);
      if |nonZero| > 0 {
        var mean := Mean(nonZero);
        userMeans := userMeans + [(m.users[a], mean)];
        normalized := normalized.(cells := normalized.cells[a := CenterRow(row, mean)]);
      } else {
        userMeans := userMeans + [(m.users[a], 0.0)];
        CenterRowUnrated(row, 0.0);
      }
    }
    assert userMeans == UserMeans(m);
  }

  /** Centring leaves every entry that was not positive as it was, replaces
      each positive entry r by r minus the user's mean, and makes the
      centred values at the rated positions sum to 0. */
  lemma NormalizedCells(m: Matrix, a: nat, b: nat)
    requires WellFormed(m) && a < |m.users| && b < |m.items|
    ensures var row := m.cells[a];
            Normalized(m).cells[a][b] == if row[b] > 0.0 then row[b] - UserMean(row) else row[b]
    ensures SumWherePositive(Normalized(m).cells[a], m.cells[a]) == 0.0
  {
    CenteredSumZero(m.cells[a]);
  }

  /** On a matrix of 0s and ratings in [1,5], unrated entries stay 0 and
      every rated entry r becomes r - mean with the mean itself in [1,5], so
      it lies in [-4,4]. */
  lemma NormalizedRange(m: Matrix, a: nat, b: nat)
    requires WellFormed(m) && a < |m.users| && b < |m.items|
    requires forall j :: 0 <= j < |m.items| ==> m.cells[a][j] == 0.0 || 1.0 <= m.cells[a][j] <= 5.0
    ensures m.cells[a][b] == 0.0 ==> Normalized(m).cells[a][b] == 0.0
    ensures m.cells[a][b] > 0.0 ==> 1.0 <= UserMean(m.cells[a]) <= 5.0 &&
                                    -4.0 <= Normalized(m).cells[a][b] <= 4.0
  {
    var row := m.cells[a];
    UserMeanRange(row);
  }
}
