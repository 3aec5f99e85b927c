/** The zero-filled user x item rating matrix that preprocessing produces and
    both recommenders read, with the per-user means both of them rely on. */
module UserItem {

  datatype Option<T> = None | Some(value: T)

  /** A predicted rating. pandas answers NaN when it averages an empty series. */
  datatype Score = Num(value: real) | NaN

  /** A DataFrame indexed by user id with one column per item id; a missing
      rating is stored as 0. */
  datatype Matrix = Matrix(users: seq<int>, items: seq<int>, cells: seq<seq<real>>)

  predicate Distinct(xs: seq<int>) {
    forall a, b :: 0 <= a < b < |xs| ==> xs[a] != xs[b]
  }

  predicate WellFormed(m: Matrix) {
    Distinct(m.users) && Distinct(m.items) && |m.cells| == |m.users| &&
    forall a :: 0 <= a < |m.cells| ==> |m.cells[a]| == |m.items|
  }

  /** Ids in strictly ascending order: sorted and without repeats. */
  predicate StrictlyAscending(s: seq<int>) {
    forall a, b :: 0 <= a < b < |s| ==> s[a] < s[b]
  }

  /** An n x n table, such as a similarity matrix over n ids. */
  predicate Square(table: seq<seq<real>>, n: nat) {
    |table| == n && forall a :: 0 <= a < n ==> |table[a]| == n
  }

  /** Position of an index label. */
  function IndexOf(xs: seq<int>, x: int): (k: nat)
    requires x in xs
    ensures k < |xs| && xs[k] == x
    ensures forall j :: 0 <= j < k ==> xs[j] != x
  {
    if xs[0] == x then 0 else 1 + IndexOf(xs[1..], x)
  }

  lemma IndexOfDistinct(xs: seq<int>, k: nat)
    requires Distinct(xs) && k < |xs|
    ensures IndexOf(xs, xs[k]) == k
  {
  }

  /** `matrix.loc[u]` */
  function Row(m: Matrix, u: int): (row: seq<real>)
    requires WellFormed(m) && u in m.users
    ensures |row| == |m.items|
  {
    m.cells[IndexOf(m.users, u)]
  }

  /** `matrix.loc[u, i]` */
  function Cell(m: Matrix, u: int, i: int): real
    requires WellFormed(m) && u in m.users && i in m.items
  {
    Row(m, u)[IndexOf(m.items, i)]
  }

  function Sum(xs: seq<real>): real {
    if xs == [] then 0.0 else Sum(xs[..|xs| - 1]) + xs[|xs| - 1]
  }

  function Mean(xs: seq<real>): real
    requires |xs| > 0
  {
    Sum(xs) / |xs| as real
  }

  /** `s[mask]`: the elements satisfying p, in their original order. */
  function Keep<T>(s: seq<T>, p: T -> bool): (r: seq<T>)
    ensures |r| <= |s|
  {
    if s == [] then []
    else Keep(s[..|s| - 1], p) + (if p(s[|s| - 1]) then [s[|s| - 1]] else [])
  }

  /** `row[row > 0]`: the entries pandas keeps, in column order. */
  function Positives(row: seq<real>): seq<real> {
    Keep(row, x => x > 0.0)
  }

  lemma {:induction false} PositivesMembers(row: seq<real>)
    ensures forall x :: x in Positives(row) <==> x in row && x > 0.0
    ensures forall x :: multiset(Positives(row))[x] == if x > 0.0 then multiset(row)[x] else 0
  {
    if row != [] {
      PositivesMembers(row[..|row| - 1]);
      assert row == row[..|row| - 1] + [row[|row| - 1]];
    }
  }

  lemma PositivesEmpty(row: seq<real>)
    ensures |Positives(row)| == 0 <==> forall j :: 0 <= j < |row| ==> row[j] <= 0.0
  {
    PositivesMembers(row);
    if |Positives(row)| > 0 {
      var x := Positives(row)[0];
      assert x in Positives(row);
      var j :| 0 <= j < |row| && row[j] == x;
    } else {
      forall j | 0 <= j < |row| ensures row[j] <= 0.0 {
        assert row[j] in row;
        if row[j] > 0.0 { assert row[j] in Positives(row); }
      }
    }
  }

  /** The mean of a user's positive ratings, and 0 when there are none. */
  function UserMean(row: seq<real>): real {
    var p := Positives(row);
    if |p| > 0 then Mean(p) else 0.0
  }

  /** One (user id, mean) pair per user, in index order. */
  function UserMeans(m: Matrix): (means: seq<(int, real)>)
    requires WellFormed(m)
    ensures |means| == |m.users|
  {
    seq(|m.users|, a requires 0 <= a < |m.users| => (m.users[a], UserMean(m.cells[a])))
  }

  /** `max(1, min(5, x))` */
  function Clamp(x: real): (r: real)
    ensures 1.0 <= r <= 5.0
    ensures 1.0 <= x <= 5.0 ==> r == x
    ensures x > 5.0 ==> r == 5.0
    ensures x < 1.0 ==> r == 1.0
  {
    var upper := if x < 5.0 then x else 5.0;
    if upper > 1.0 then upper else 1.0
  }

  function Abs(x: real): real {
    if x < 0.0 then -x else x
  }

  lemma {:induction false} SumBetween(xs: seq<real>, lo: real, hi: real)
    requires forall k :: 0 <= k < |xs| ==> lo <= xs[k] <= hi
    ensures |xs| as real * lo <= Sum(xs) <= |xs| as real * hi
  {
    if xs != [] {
      SumBetween(xs[..|xs| - 1], lo, hi);
    }
  }

  /** A mean lies between the bounds of what it averages. */
  lemma MeanBetween(xs: seq<real>, lo: real, hi: real)
    requires |xs| > 0
    requires forall k :: 0 <= k < |xs| ==> lo <= xs[k] <= hi
    ensures lo <= Mean(xs) <= hi
  {
    SumBetween(xs, lo, hi);
    var n := |xs| as real;
    assert Mean(xs) * n == Sum(xs);
  }

  /** On a matrix whose entries are 0 or ratings in [1,5], a user mean is 0
      exactly when the user rated nothing, and otherwise lies in [1,5]. */
  lemma UserMeanRange(row: seq<real>)
    requires forall j :: 0 <= j < |row| ==> row[j] == 0.0 || 1.0 <= row[j] <= 5.0
    ensures UserMean(row) == 0.0 <==> forall j :: 0 <= j < |row| ==> row[j] == 0.0
    ensures UserMean(row) != 0.0 ==> 1.0 <= UserMean(row) <= 5.0
  {
    PositivesEmpty(row);
    PositivesMembers(row);
    var p := Positives(row);
    if |p| > 0 {
      forall k | 0 <= k < |p| ensures 1.0 <= p[k] <= 5.0 {
        assert p[k] in p;
      }
      MeanBetween(p, 1.0, 5.0);
    }
  }

  /** `row[mask] - mean` written back over the positive entries only. */
  function CenterRow(row: seq<real>, mean: real): (c: seq<real>)
    ensures |c| == |row|
  {
    seq(|row|, j requires 0 <= j < |row| => if row[j] > 0.0 then row[j] - mean else row[j])
  }

  /** The sum of `vals` over the positions where `row` is positive. */
  function SumWherePositive(vals: seq<real>, row: seq<real>): real
    requires |vals| == |row|
  {
    if row == [] then 0.0
    else
      SumWherePositive(vals[..|vals| - 1], row[..|row| - 1]) +
      (if row[|row| - 1] > 0.0 then vals[|vals| - 1] else 0.0)
  }

  lemma {:induction false} CenterRowStep(row: seq<real>, mean: real)
    requires row != []
    ensures SumWherePositive(CenterRow(row, mean), row) ==
            SumWherePositive(CenterRow(row[..|row| - 1], mean), row[..|row| - 1]) +
            (if row[|row| - 1] > 0.0 then row[|row| - 1] - mean else 0.0)
  {
    var c := CenterRow(row, mean);
    assert c[..|c| - 1] == CenterRow(row[..|row| - 1], mean);
  }

  lemma {:induction false} PositivesStep(row: seq<real>)
    requires row != []
    ensures var p, last := Positives(row[..|row| - 1]), row[|row| - 1];
            |Positives(row)| == |p| + (if last > 0.0 then 1 else 0) &&
            Sum(Positives(row)) == Sum(p) + (if last > 0.0 then last else 0.0)
  {
    var p, last := Positives(row[..|row| - 1]), row[|row| - 1];
    if last > 0.0 {
      assert Positives(row) == p + [last];
      assert (p + [last])[..|p|] == p;
    } else {
      assert Positives(row) == p;
    }
  }

  /** `n * x` as repeated addition, which keeps the centring proof linear. */
  function Times(n: nat, x: real): real {
    if n == 0 then 0.0 else Times(n - 1, x) + x
  }

  lemma {:induction false} TimesIsProduct(n: nat, x: real)
    ensures Times(n, x) == n as real * x
  {
    if n > 0 {
      TimesIsProduct(n - 1, x);
      assert (n - 1) as real * x + x == n as real * x;
    }
  }

  lemma {:induction false} CenteredSum(row: seq<real>, mean: real)
    ensures SumWherePositive(CenterRow(row, mean), row) ==
            Sum(Positives(row)) - Times(|Positives(row)|, mean)
  {
    if row != [] {
      CenteredSum(row[..|row| - 1], mean);
      CenterRowStep(row, mean);
      PositivesStep(row);
    }
  }

  /** Centring on the user's own mean leaves the rated entries summing to 0. */
  lemma CenteredSumZero(row: seq<real>)
    ensures SumWherePositive(CenterRow(row, UserMean(row)), row) == 0.0
  {
    var p := Positives(row);
    CenteredSum(row, UserMean(row));
    TimesIsProduct(|p|, UserMean(row));
    if |p| > 0 {
      var n := |p| as real;
      assert n * (Sum(p) / n) == Sum(p);
    }
  }

  /** Centring a row without positive entries changes nothing. */
  lemma CenterRowUnrated(row: seq<real>, mean: real)
    requires |Positives(row)| == 0
    ensures CenterRow(row, mean) == row
  {
    PositivesEmpty(row);
  }
}
