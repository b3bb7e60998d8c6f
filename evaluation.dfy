/**
 * What evaluate_rmse and evaluate_precision_recall compute, as functions of
 * the similarity table, the metric and the two reviews data frames.  The
 * class methods in CbFilter loop over the test users as the source does and
 * are proved equal to these functions; the lemmas here say what the
 * functions mean.
 */
module Evaluation {
  import opened Wrappers
  import opened Seqs
  import opened Similarity
  import opened Ranking

  /** The exceptions the methods of ContentBasedFiltering raise. */
  datatype Error =
    | UnknownMethod     // create_sim_mat: method not one of the three names
    | NotCosine         // evaluate_rmse: similarity_metric is not cosine_similarity
    | MissingColumns    // a reviews frame lacks user_id, title_id or score
    | NoMatrix          // sim_mat is still None
    | KeyError(id: int) // a label that is not in the table
    | EmptyEvaluation   // mean_squared_error of zero samples
    | NonFinite         // mean_squared_error of a prediction that is infinite
    | EmptyFeatures     // a pairwise metric of a feature table with no row or no column

  /** One row of a reviews data frame, through the three columns the evaluations read. */
  datatype Review = Review(userId: int, titleId: int, score: real)

  /** A reviews data frame: its column names and its rows. */
  datatype ReviewFrame = ReviewFrame(columns: set<string>, rows: seq<Review>)

  predicate HasReviewColumns(f: ReviewFrame)
  {
    "user_id" in f.columns && "title_id" in f.columns && "score" in f.columns
  }

  function UserOf(r: Review): int { r.userId }
  function TitleOf(r: Review): int { r.titleId }

  function UserSet(rows: seq<Review>): set<int> { set r | r in rows :: r.userId }

  /** train.loc[title_id.isin(sim_mat.index)] */
  function InTable(rows: seq<Review>, ids: seq<int>): seq<Review>
  {
    Filter(rows, (r: Review) => r.titleId in ids)
  }

  /**
   * test.loc[~user_id.isin(set(test.user_id) - set(train.user_id)) & title_id.isin(sim_mat.index)],
   * with `train` already restricted to the table.
   */
  function Eligible(test: seq<Review>, train: seq<Review>, ids: seq<int>): seq<Review>
  {
    Filter(test, (r: Review) => r.userId !in UserSet(test) - UserSet(train) && r.titleId in ids)
  }

  /** A test row is evaluated exactly when its user has a training row on the table and its title is on the table. */
  lemma EligibleIff(test: seq<Review>, train: seq<Review>, ids: seq<int>, r: Review)
    ensures r in Eligible(test, train, ids) <==> r in test && r.userId in UserSet(train) && r.titleId in ids
  {
  }

  /** test_mod.user_id.unique(): the evaluated users, each once, in order of first appearance. */
  function TestUsers(test: seq<Review>): seq<int> { Unique(Each(test, UserOf)) }

  function RowsOf(rows: seq<Review>, user: int): seq<Review>
  {
    Filter(rows, (r: Review) => r.userId == user)
  }

  predicate TitlesIn(rows: seq<Review>, ids: seq<int>)
  {
    forall r :: r in rows ==> r.titleId in ids
  }

  // ---------------------------------------------------------------------
  // evaluate_rmse
  // ---------------------------------------------------------------------

  /** A float64 result: a finite value, an infinity or NaN. */
  datatype Num = Fin(v: real) | PosInf | NegInf | NaN

  /** numpy division: x / 0 is an infinity of the sign of x, and 0 / 0 is NaN. */
  function Div(num: real, den: real): Num
  {
    if den != 0.0 then Fin(num / den)
    else if num > 0.0 then PosInf
    else if num < 0.0 then NegInf
    else NaN
  }

  /** fillna(0): NaN becomes 0, everything else (infinities included) stays. */
  function FillNa(n: Num): (r: Num)
    ensures r != NaN
    ensures n != NaN ==> r == n
  {
    if n == NaN then Fin(0.0) else n
  }

  /**
   * Column t of user_title_sim: the similarity of each of the user's training titles to t, one entry
   * per training row.  The source sorts these rows and the scores by title id before pairing them;
   * rows with equal title ids have equal similarities, so the pairing, and everything computed from it,
   * is that of the unsorted rows.
   */
  function SimColumn(m: SimMatrix, rows: seq<Review>, t: int): (col: Vector)
    requires Square(m) && TitlesIn(rows, m.ids) && t in m.ids
    ensures |col| == |rows|
  {
    if rows == [] then []
    else
      assert rows[|rows| - 1] in rows;
      SimColumn(m, rows[..|rows| - 1], t) + [Sim(m, rows[|rows| - 1].titleId, t)]
  }

  function ScoreOf(r: Review): real { r.score }

  function Total(xs: Vector): real
  {
    TotalTo(xs, |xs|)
  }

  /** The sum of the first n entries. */
  function TotalTo(xs: Vector, n: nat): real
    requires n <= |xs|
  {
    if n == 0 then 0.0 else TotalTo(xs, n - 1) + xs[n - 1]
  }

  /**
   * The predicted score of a user for title t: entry t of user_title_sim.T @ score divided by entry t
   * of user_title_sim.sum(), the similarity-weighted mean of the user's training scores.
   */
  function Predict(m: SimMatrix, train: seq<Review>, user: int, t: int): Num
    requires Square(m) && TitlesIn(train, m.ids) && t in m.ids
  {
    var rows := RowsOf(train, user);
    var col := SimColumn(m, rows, t);
    Div(Dot(col, Each(rows, ScoreOf)), Total(col))
  }

  /** A row of test_result. */
  datatype ScoredRow = ScoredRow(userId: int, titleId: int, actual: real, predicted: Num)

  /** score_prediction_dict: the user's prediction for every title of the table, keyed by title id. */
  function PredictionDict(m: SimMatrix, train: seq<Review>, user: int): map<int, Num>
    requires Square(m) && TitlesIn(train, m.ids)
  {
    map t | t in m.ids :: Predict(m, train, user, t)
  }

  /** Series.map with a dictionary: a key that is not in the dictionary becomes NaN. */
  function Lookup(d: map<int, Num>, key: int): Num
  {
    if key in d then d[key] else NaN
  }

  /** One row of temp_df: a test row with its title's entry of the dictionary, after fillna(0). */
  function ScoreRow(predictions: map<int, Num>, r: Review): ScoredRow
  {
    ScoredRow(r.userId, r.titleId, r.score, FillNa(Lookup(predictions, r.titleId)))
  }

  /** temp_df for one user: the user's evaluated test rows in order, each scored from the dictionary. */
  function UserResult(rows: seq<Review>, predictions: map<int, Num>): seq<ScoredRow>
  {
    Each(rows, (r: Review) => ScoreRow(predictions, r))
  }

  /** test_result after the loop: the results of the users in turn. */
  function TestResult(m: SimMatrix, train: seq<Review>, test: seq<Review>, users: seq<int>): seq<ScoredRow>
    requires Square(m) && TitlesIn(train, m.ids)
  {
    if users == [] then []
    else
      var u := users[|users| - 1];
      TestResult(m, train, test, users[..|users| - 1]) + UserResult(RowsOf(test, u), PredictionDict(m, train, u))
  }

  function SquaredErrors(rows: seq<ScoredRow>): real
    requires forall r :: r in rows ==> r.predicted.Fin?
  {
    if rows == [] then 0.0
    else
      var r := rows[|rows| - 1];
      assert r in rows;
      SquaredErrors(rows[..|rows| - 1]) + (r.actual - r.predicted.v) * (r.actual - r.predicted.v)
  }

  /**
   * mean_squared_error(actual, predicted): it refuses zero samples and any sample that is not finite
   * (scikit-learn validates its inputs), otherwise the mean of the squared differences.
   */
  function Mse(rows: seq<ScoredRow>): Result<real, Error>
  {
    if rows == [] then Err(EmptyEvaluation)
    else if exists r :: r in rows && !r.predicted.Fin? then Err(NonFinite)
    else Ok(SquaredErrors(rows) / |rows| as real)
  }

  datatype RmseOutcome = RmseOutcome(rmse: real, testResult: seq<ScoredRow>)

  /** The rows the evaluation scores, given a table that passed the checks. */
  function RmseRows(m: SimMatrix, trainFrame: ReviewFrame, testFrame: ReviewFrame): seq<ScoredRow>
    requires Square(m)
  {
    var train := InTable(trainFrame.rows, m.ids);
    var test := Eligible(testFrame.rows, train, m.ids);
    TestResult(m, train, test, TestUsers(test))
  }

  /** evaluate_rmse, including the errors it raises. */
  function Rmse(sim: Option<SimMatrix>, metric: Option<Metric>, trainFrame: ReviewFrame, testFrame: ReviewFrame,
                sqrt: real -> real): Result<RmseOutcome, Error>
    requires sim.Some? ==> Square(sim.value)
  {
    if metric != Some(Cosine) then Err(NotCosine)
    else if !HasReviewColumns(trainFrame) || !HasReviewColumns(testFrame) then Err(MissingColumns)
    else if sim.None? then Err(NoMatrix)
    else RmseOf(RmseRows(sim.value, trainFrame, testFrame), sqrt)
  }

  /** The end of evaluate_rmse: the root of the mean squared error of test_result, returned with test_result. */
  function RmseOf(rows: seq<ScoredRow>, sqrt: real -> real): Result<RmseOutcome, Error>
  {
    match Mse(rows)
    case Err(e) => Err(e)
    case Ok(mse) => Ok(RmseOutcome(sqrt(mse), rows))
  }
  /** The three columns of a result row that came from the test frame. */
  function Actual(r: ScoredRow): Review { Review(r.userId, r.titleId, r.actual) }

  predicate Distinct(xs: seq<int>)
  {
    forall i, j :: 0 <= i < j < |xs| ==> xs[i] != xs[j]
  }

  /** temp_df keeps the user's test rows one for one, in order, and gives each its title's entry of the dictionary. */
  lemma UserResultRows(rows: seq<Review>, predictions: map<int, Num>)
    ensures Each(UserResult(rows, predictions), Actual) == rows
    ensures forall k :: 0 <= k < |rows| ==> UserResult(rows, predictions)[k].predicted == FillNa(Lookup(predictions, rows[k].titleId))
  {
  }

  /**
   * Over distinct users, test_result holds each test row of those users exactly as often as the test
   * frame does, and no other row.
   */
  lemma {:induction false} TestResultCount(m: SimMatrix, train: seq<Review>, test: seq<Review>, users: seq<int>, r: Review)
    requires Square(m) && TitlesIn(train, m.ids) && Distinct(users)
    ensures multiset(Each(TestResult(m, train, test, users), Actual))[r] == if r.userId in users then multiset(test)[r] else 0
  {
    if users != [] {
      var init, u := users[..|users| - 1], users[|users| - 1];
      TestResultCount(m, train, test, init, r);
      var rows, d := RowsOf(test, u), PredictionDict(m, train, u);
      UserResultRows(rows, d);
      EachAppend(TestResult(m, train, test, init), UserResult(rows, d), Actual);
      FilterCount(test, (x: Review) => x.userId == u, r);
      assert users == init + [u];
      assert u !in init;
    }
  }

  /** Every row of test_result on a title of the table carries the prediction for its own user and title, with NaN read as 0. */
  lemma {:induction false} TestResultPredictions(m: SimMatrix, train: seq<Review>, test: seq<Review>, users: seq<int>)
    requires Square(m) && TitlesIn(train, m.ids) && TitlesIn(test, m.ids)
    ensures forall s :: s in TestResult(m, train, test, users) ==>
      s.titleId in m.ids && s.predicted == FillNa(Predict(m, train, s.userId, s.titleId))
  {
    if users != [] {
      var init, u := users[..|users| - 1], users[|users| - 1];
      TestResultPredictions(m, train, test, init);
      var rows, d := RowsOf(test, u), PredictionDict(m, train, u);
      UserResultRows(rows, d);
      var ur := UserResult(rows, d);
      forall s | s in ur
        ensures s.titleId in m.ids && s.predicted == FillNa(Predict(m, train, s.userId, s.titleId))
      {
        var k :| 0 <= k < |ur| && ur[k] == s;
        assert Each(ur, Actual)[k] == rows[k];
        assert rows[k] in rows;
      }
    }
  }

  /** Over the test users, test_result holds every test row exactly as often as the test frame does. */
  lemma TestResultPermutation(m: SimMatrix, train: seq<Review>, test: seq<Review>)
    requires Square(m) && TitlesIn(train, m.ids)
    ensures multiset(Each(TestResult(m, train, test, TestUsers(test)), Actual)) == multiset(test)
  {
    var users := TestUsers(test);
    forall r
      ensures multiset(Each(TestResult(m, train, test, users), Actual))[r] == multiset(test)[r]
    {
      TestResultCount(m, train, test, users, r);
      if r in test {
        var k :| 0 <= k < |test| && test[k] == r;
        assert Each(test, UserOf)[k] == r.userId;
      }
    }
  }

  /** The rows evaluate_rmse scores are the eligible test rows, each exactly as often as it occurs in the test frame. */
  lemma RmseRowsAreEligible(m: SimMatrix, trainFrame: ReviewFrame, testFrame: ReviewFrame)
    requires Square(m)
    ensures multiset(Each(RmseRows(m, trainFrame, testFrame), Actual))
         == multiset(Eligible(testFrame.rows, InTable(trainFrame.rows, m.ids), m.ids))
  {
    var train := InTable(trainFrame.rows, m.ids);
    TestResultPermutation(m, train, Eligible(testFrame.rows, train, m.ids));
  }

  /** Each row evaluate_rmse scores carries the prediction for its own user and title. */
  lemma RmseRowsPredicted(m: SimMatrix, trainFrame: ReviewFrame, testFrame: ReviewFrame)
    requires Square(m)
    ensures forall s :: s in RmseRows(m, trainFrame, testFrame) ==>
      s.titleId in m.ids && s.predicted == FillNa(Predict(m, InTable(trainFrame.rows, m.ids), s.userId, s.titleId))
  {
    var train := InTable(trainFrame.rows, m.ids);
    var test := Eligible(testFrame.rows, train, m.ids);
    TestResultPredictions(m, train, test, TestUsers(test));
  }

  /** When the weights sum to zero the prediction is NaN (read as 0) only if the weighted scores are zero too; otherwise it is infinite. */
  lemma PredictZeroWeight(m: SimMatrix, train: seq<Review>, user: int, t: int)
    requires Square(m) && TitlesIn(train, m.ids) && t in m.ids
    ensures var rows := RowsOf(train, user);
      var col := SimColumn(m, rows, t);
      && (Predict(m, train, user, t).Fin? <==> Total(col) != 0.0)
      && (FillNa(Predict(m, train, user, t)) == Fin(0.0) <==> Dot(col, Each(rows, ScoreOf)) == 0.0)
  {
    var rows := RowsOf(train, user);
    var col := SimColumn(m, rows, t);
    DivZero(Dot(col, Each(rows, ScoreOf)), Total(col));
  }

  /** A numpy quotient is finite exactly when the divisor is not zero, and reads as 0 after fillna exactly when the dividend is zero. */
  lemma DivZero(num: real, den: real)
    ensures Div(num, den).Fin? <==> den != 0.0
    ensures FillNa(Div(num, den)) == Fin(0.0) <==> num == 0.0
  {
    if den != 0.0 && num / den == 0.0 {
      assert num == (num / den) * den;
    }
  }

  /** A total weight that is never negative, and a weighted sum between lo and hi times that weight. */
  predicate WeightBounds(totalW: real, sum: real, lo: real, hi: real)
  {
    totalW >= 0.0 && lo * totalW <= sum <= hi * totalW
  }

  /**
   * One step of a weighted sum: adding a non-negative weight w on a score in [lo, hi] to a total weight
   * w0 and a weighted sum d0 within the bounds gives a total and a sum within them.
   */
  lemma WeightedStep(totalW: real, sum: real, w0: real, d0: real, w: real, score: real, lo: real, hi: real)
    requires totalW == w0 + w && sum == d0 + w * score
    requires WeightBounds(w0, d0, lo, hi)
    requires w >= 0.0 && lo <= score <= hi
    ensures WeightBounds(totalW, sum, lo, hi)
  {
    assert lo * w <= w * score <= hi * w;
    assert lo * totalW == lo * w0 + lo * w && hi * totalW == hi * w0 + hi * w;
  }

  /** Non-negative weights on scores in [lo, hi]: the weighted sum lies between lo and hi times the total weight. */
  lemma {:induction false} WeightedSumBounds(ws: Vector, ss: Vector, n: nat, lo: real, hi: real)
    requires n <= |ws| == |ss|
    requires forall k :: 0 <= k < |ws| ==> ws[k] >= 0.0 && lo <= ss[k] <= hi
    ensures WeightBounds(TotalTo(ws, n), DotTo(ws, ss, n), lo, hi)
  {
    if n != 0 {
      WeightedSumBounds(ws, ss, n - 1, lo, hi);
      WeightedStep(TotalTo(ws, n), DotTo(ws, ss, n), TotalTo(ws, n - 1), DotTo(ws, ss, n - 1), ws[n - 1], ss[n - 1], lo, hi);
    }
  }

  /** A quotient by a positive weight of a value between lo and hi times that weight lies between lo and hi. */
  lemma QuotientBounds(sum: real, totalW: real, lo: real, hi: real)
    requires totalW > 0.0 && lo * totalW <= sum <= hi * totalW
    ensures lo <= sum / totalW <= hi
  {
    var q := sum / totalW;
    assert q * totalW == sum;
    assert (q - lo) * totalW == sum - lo * totalW;
    assert (hi - q) * totalW == hi * totalW - sum;
  }

  /** A weighted mean with non-negative weights, not all zero, lies between the smallest and the largest score. */
  lemma WeightedMean(ws: Vector, ss: Vector, lo: real, hi: real)
    requires |ws| == |ss|
    requires forall k :: 0 <= k < |ws| ==> ws[k] >= 0.0 && lo <= ss[k] <= hi
    requires Total(ws) != 0.0
    ensures lo <= Dot(ws, ss) / Total(ws) <= hi
  {
    WeightedSumBounds(ws, ss, |ws|, lo, hi);
    QuotientBounds(Dot(ws, ss), Total(ws), lo, hi);
  }

  lemma {:induction false} SimColumnEntries(m: SimMatrix, rows: seq<Review>, t: int)
    requires Square(m) && TitlesIn(rows, m.ids) && t in m.ids
    ensures forall k :: 0 <= k < |rows| ==> rows[k].titleId in m.ids && SimColumn(m, rows, t)[k] == Sim(m, rows[k].titleId, t)
  {
    if rows != [] {
      var init := rows[..|rows| - 1];
      assert forall x :: x in init ==> x in rows;
      SimColumnEntries(m, init, t);
      forall k | 0 <= k < |rows| ensures rows[k].titleId in m.ids {
        assert rows[k] in rows;
      }
    }
  }

  /**
   * The prediction is a weighted mean: when the user's training titles are never negatively similar
   * to t and at least one is similar at all, it lies between the user's lowest and highest training score.
   */
  lemma PredictInRange(m: SimMatrix, train: seq<Review>, user: int, t: int, lo: real, hi: real)
    requires Square(m) && TitlesIn(train, m.ids) && t in m.ids
    requires forall r :: r in RowsOf(train, user) ==> Sim(m, r.titleId, t) >= 0.0 && lo <= r.score <= hi
    requires Total(SimColumn(m, RowsOf(train, user), t)) != 0.0
    ensures Predict(m, train, user, t).Fin?
    ensures lo <= Predict(m, train, user, t).v <= hi
  {
    var rows := RowsOf(train, user);
    var col, ss := SimColumn(m, rows, t), Each(rows, ScoreOf);
    SimColumnEntries(m, rows, t);
    forall k | 0 <= k < |col| ensures col[k] >= 0.0 && lo <= ss[k] <= hi {
      assert rows[k] in rows;
    }
    WeightedMean(col, ss, lo, hi);
  }

  lemma {:induction false} SquaredErrorsBounds(rows: seq<ScoredRow>)
    requires forall r :: r in rows ==> r.predicted.Fin?
    ensures SquaredErrors(rows) >= 0.0
    ensures SquaredErrors(rows) == 0.0 <== forall r :: r in rows ==> r.predicted == Fin(r.actual)
  {
    if rows != [] {
      var init, r := rows[..|rows| - 1], rows[|rows| - 1];
      assert r in rows;
      assert forall x :: x in init ==> x in rows;
      SquaredErrorsBounds(init);
    }
  }

  /**
   * mean_squared_error raises on no samples and on a non-finite prediction, and otherwise returns a
   * value that is never negative and is zero when every prediction is exact.
   */
  lemma MseOutcome(rows: seq<ScoredRow>)
    ensures Mse(rows) == Err(EmptyEvaluation) <==> rows == []
    ensures Mse(rows) == Err(NonFinite) <==> rows != [] && exists r :: r in rows && !r.predicted.Fin?
    ensures Mse(rows).Ok? ==> Mse(rows).value >= 0.0
    ensures rows != [] && (forall r :: r in rows ==> r.predicted == Fin(r.actual)) ==> Mse(rows) == Ok(0.0)
  {
    if Mse(rows).Ok? || (rows != [] && forall r :: r in rows ==> r.predicted == Fin(r.actual)) {
      SquaredErrorsBounds(rows);
    }
  }

  /** The errors of evaluate_rmse, in the order it raises them, and the rows it returns. */
  lemma RmseErrors(sim: Option<SimMatrix>, metric: Option<Metric>, trainFrame: ReviewFrame, testFrame: ReviewFrame,
                   sqrt: real -> real)
    requires sim.Some? ==> Square(sim.value)
    ensures var res := Rmse(sim, metric, trainFrame, testFrame, sqrt);
      && (res == Err(NotCosine) <==> metric != Some(Cosine))
      && (res == Err(MissingColumns) <==> metric == Some(Cosine) && !(HasReviewColumns(trainFrame) && HasReviewColumns(testFrame)))
      && (res == Err(NoMatrix) <==> metric == Some(Cosine) && HasReviewColumns(trainFrame) && HasReviewColumns(testFrame) && sim.None?)
      && (res == Err(EmptyEvaluation) <==> metric == Some(Cosine) && HasReviewColumns(trainFrame) && HasReviewColumns(testFrame)
                                           && sim.Some? && RmseRows(sim.value, trainFrame, testFrame) == [])
      && (res.Ok? ==> sim.Some? && res.value.testResult == RmseRows(sim.value, trainFrame, testFrame))
  {
    if sim.Some? {
      MseOutcome(RmseRows(sim.value, trainFrame, testFrame));
    }
  }

  /**
   * With a square root that is a root, the rmse returned is the non-negative root of the mean squared
   * error of the rows returned, and the rows returned are test_result itself.
   */
  lemma RmseRoot(rows: seq<ScoredRow>, sqrt: real -> real)
    requires forall x :: x >= 0.0 ==> sqrt(x) >= 0.0 && sqrt(x) * sqrt(x) == x
    ensures RmseOf(rows, sqrt).Ok? <==> Mse(rows).Ok?
    ensures RmseOf(rows, sqrt).Ok? ==>
      && RmseOf(rows, sqrt).value.testResult == rows
      && RmseOf(rows, sqrt).value.rmse >= 0.0
      && RmseOf(rows, sqrt).value.rmse * RmseOf(rows, sqrt).value.rmse == Mse(rows).value
  {
    if Mse(rows).Ok? {
      MseOutcome(rows);
      var v := Mse(rows).value;
      assert v >= 0.0;
      assert RmseOf(rows, sqrt) == Ok(RmseOutcome(sqrt(v), rows));
    }
  }

  // ---------------------------------------------------------------------
  // evaluate_precision_recall
  // ---------------------------------------------------------------------

  /** Cosine similarity is ranked largest first and the distances smallest first. */
  function Ascending(metric: Option<Metric>): bool { metric != Some(Cosine) }

  /** The row sim_mat.loc[id] as (column label, value) entries. */
  function RowCells(m: SimMatrix, id: int): (cells: seq<Cell>)
    requires Square(m) && id in m.ids
    ensures |cells| == |m.ids|
    ensures Each(cells, CellId) == m.ids
    ensures forall k :: 0 <= k < |cells| ==> cells[k].score == m.values[IndexOf(m.ids, id).value][k]
  {
    var i := IndexOf(m.ids, id).value;
    seq(|m.ids|, k requires 0 <= k < |m.ids| => Cell(m.ids[k], m.values[i][k]))
  }

  function CellId(c: Cell): int { c.id }

  /** The titles pushed for one seed title: the labels of its ranked row. */
  function Neighbours(m: SimMatrix, seed: int, ascending: bool, numPush: int): seq<int>
    requires Square(m) && seed in m.ids
  {
    Each(Rank(RowCells(m, seed), ascending, numPush), CellId)
  }

  /** A seed pushes at most numPush titles, all of them labels of the table. */
  lemma NeighboursShape(m: SimMatrix, seed: int, ascending: bool, numPush: int)
    requires Square(m) && seed in m.ids && numPush >= 0
    ensures |Neighbours(m, seed, ascending, numPush)| <= numPush
    ensures |Neighbours(m, seed, ascending, numPush)| == if |m.ids| <= 1 then 0 else if numPush < |m.ids| - 1 then numPush else |m.ids| - 1
    ensures forall x :: x in Neighbours(m, seed, ascending, numPush) ==> x in m.ids
  {
    var cells := RowCells(m, seed);
    RankPositions(cells, ascending, numPush);
    RankFromRow(cells, ascending, numPush);
    var ns := Neighbours(m, seed, ascending, numPush);
    forall x | x in ns ensures x in m.ids {
      var k :| 0 <= k < |ns| && ns[k] == x;
      var c := Rank(cells, ascending, numPush)[k];
      assert c in cells;
      var j :| 0 <= j < |cells| && cells[j] == c;
    }
  }

  predicate AllIn(xs: seq<int>, ids: seq<int>)
  {
    forall x :: x in xs ==> x in ids
  }

  /** rec_title before the set difference: the pushed titles of every seed, in turn. */
  function RecList(m: SimMatrix, seeds: seq<int>, ascending: bool, numPush: int): seq<int>
    requires Square(m) && AllIn(seeds, m.ids)
  {
    if seeds == [] then []
    else RecList(m, seeds[..|seeds| - 1], ascending, numPush) + Neighbours(m, seeds[|seeds| - 1], ascending, numPush)
  }

  /** A title is on the pushed list exactly when some seed pushes it. */
  lemma {:induction false} RecListMembership(m: SimMatrix, seeds: seq<int>, ascending: bool, numPush: int, x: int)
    requires Square(m) && AllIn(seeds, m.ids)
    ensures x in RecList(m, seeds, ascending, numPush) <==> exists s :: s in seeds && x in Neighbours(m, s, ascending, numPush)
  {
    if seeds != [] {
      var init, last := seeds[..|seeds| - 1], seeds[|seeds| - 1];
      assert forall s :: s in init ==> s in seeds;
      RecListMembership(m, init, ascending, numPush, x);
      var before, pushed := RecList(m, init, ascending, numPush), Neighbours(m, last, ascending, numPush);
      assert RecList(m, seeds, ascending, numPush) == before + pushed;
      if x in before {
        var s :| s in init && x in Neighbours(m, s, ascending, numPush);
        assert s in seeds;
      } else if x in pushed {
        assert last in seeds;
      } else {
        forall s | s in seeds ensures x !in Neighbours(m, s, ascending, numPush) {
          if s != last {
            InInit(seeds, s);
          }
        }
      }
    }
  }

  /** list(set(rec_title) - set(user_title_sim.index)): the pushed titles that are not seeds. */
  function Recommended(m: SimMatrix, seeds: seq<int>, ascending: bool, numPush: int): set<int>
    requires Square(m) && AllIn(seeds, m.ids)
  {
    SetOf(RecList(m, seeds, ascending, numPush)) - SetOf(seeds)
  }

  /** A title is recommended exactly when it is not a seed and some seed pushes it; it is then a label of the table. */
  lemma RecommendedIff(m: SimMatrix, seeds: seq<int>, ascending: bool, numPush: int, x: int)
    requires Square(m) && AllIn(seeds, m.ids)
    ensures x in Recommended(m, seeds, ascending, numPush) <==> x !in seeds && exists s :: s in seeds && x in Neighbours(m, s, ascending, numPush)
    ensures x in Recommended(m, seeds, ascending, numPush) && numPush >= 0 ==> x in m.ids
  {
    RecListMembership(m, seeds, ascending, numPush, x);
    if x in Recommended(m, seeds, ascending, numPush) && numPush >= 0 {
      var s :| s in seeds && x in Neighbours(m, s, ascending, numPush);
      NeighboursShape(m, s, ascending, numPush);
    }
  }

  /** The rows of one user scoring at least the threshold (the relevant titles). */
  function Relevant(rows: seq<Review>, user: int, threshold: real): seq<Review>
  {
    Filter(rows, (r: Review) => r.userId == user && r.score >= threshold)
  }

  /** user_title_sim.index: the user's relevant training titles, each once. */
  function Seeds(train: seq<Review>, user: int, threshold: real): seq<int>
  {
    Unique(Each(Relevant(train, user, threshold), TitleOf))
  }

  /** user_test_titles: the user's relevant test titles, a list that keeps repeats. */
  function Liked(test: seq<Review>, user: int, threshold: real): seq<int>
  {
    Each(Relevant(test, user, threshold), TitleOf)
  }

  /** What the try block records for one user: nothing, a precision only, or both. */
  datatype UserScore = Skipped | PrecisionOnly(precision: real) | Scored(precision: real, recall: real)

  /**
   * The try block: the hits are the recommended titles among the liked ones; dividing by an empty
   * recommendation raises before anything is recorded, and dividing by an empty liked list raises
   * after the precision is recorded.
   */
  function Score(rec: set<int>, liked: seq<int>): UserScore
  {
    var hits := |rec * SetOf(liked)|;
    if |rec| == 0 then Skipped
    else if |liked| == 0 then PrecisionOnly(hits as real / |rec| as real)
    else Scored(hits as real / |rec| as real, hits as real / |liked| as real)
  }

  /**
   * Which case a user falls in, and the two ratios lie in [0, 1]; precision is 1 exactly when every
   * recommended title is liked, and recall is 1 exactly when every liked title is recommended and none
   * is listed twice.
   */
  lemma ScoreFacts(rec: set<int>, liked: seq<int>)
    ensures Score(rec, liked).Skipped? <==> rec == {}
    ensures Score(rec, liked).PrecisionOnly? <==> rec != {} && liked == []
    ensures !Score(rec, liked).Skipped? ==> 0.0 <= Score(rec, liked).precision <= 1.0
    ensures !Score(rec, liked).Skipped? ==> (Score(rec, liked).precision == 1.0 <==> forall t :: t in rec ==> t in liked)
    ensures Score(rec, liked).Scored? ==> 0.0 <= Score(rec, liked).recall <= 1.0
    ensures Score(rec, liked).Scored? ==>
      (Score(rec, liked).recall == 1.0 <==> (forall t :: t in liked ==> t in rec) && |SetOf(liked)| == |liked|)
  {
    var s := SetOf(liked);
    var hit := rec * s;
    SubsetSize(hit, rec);
    SubsetSize(hit, s);
    SetSize(liked);
    if rec != {} {
      Ratio(|hit|, |rec|);
      if forall t :: t in rec ==> t in liked {
        forall t | t in rec ensures t in hit {
          assert t in s;
        }
        assert hit == rec;
      }
      if liked != [] {
        Ratio(|hit|, |liked|);
        if (forall t :: t in liked ==> t in rec) {
          forall t | t in s ensures t in hit {
            assert t in liked;
          }
          assert hit == s;
        }
      }
    }
  }

  /** A count over a positive total is a ratio in [0, 1], and 1 exactly when the two are equal. */
  lemma Ratio(a: nat, d: nat)
    requires a <= d && d > 0
    ensures 0.0 <= a as real / d as real <= 1.0
    ensures a as real / d as real == 1.0 <==> a == d
  {
    var q := a as real / d as real;
    assert q * (d as real) == a as real;
  }

  /** The outcome of the loop body for one user. */
  function UserEval(m: SimMatrix, train: seq<Review>, test: seq<Review>, user: int, threshold: real,
                    ascending: bool, numPush: int): UserScore
    requires Square(m) && TitlesIn(train, m.ids)
  {
    SeedsInTable(m, train, user, threshold);
    Score(Recommended(m, Seeds(train, user, threshold), ascending, numPush), Liked(test, user, threshold))
  }

  /** The seeds come from the training rows on the table, so every seed is a label of the table. */
  lemma SeedsInTable(m: SimMatrix, train: seq<Review>, user: int, threshold: real)
    requires TitlesIn(train, m.ids)
    ensures AllIn(Seeds(train, user, threshold), m.ids)
  {
    forall x | x in Seeds(train, user, threshold) ensures x in m.ids {
      var rel := Relevant(train, user, threshold);
      var k :| 0 <= k < |rel| && Each(rel, TitleOf)[k] == x;
      assert rel[k] in rel;
    }
  }

  /** One entry of the precision or the recall dictionary. */
  datatype UserValue = UserValue(user: int, value: real)

  function ValueUser(v: UserValue): int { v.user }

  /** The precision dictionary after the users in turn. */
  function Precisions(m: SimMatrix, train: seq<Review>, test: seq<Review>, users: seq<int>, threshold: real,
                      ascending: bool, numPush: int): seq<UserValue>
    requires Square(m) && TitlesIn(train, m.ids)
  {
    if users == [] then []
    else
      var u := users[|users| - 1];
      Precisions(m, train, test, users[..|users| - 1], threshold, ascending, numPush)
      + PrecisionEntry(u, UserEval(m, train, test, u, threshold, ascending, numPush))
  }

  /** What one user adds to the precision dictionary. */
  function PrecisionEntry(u: int, e: UserScore): (d: seq<UserValue>)
    ensures Each(d, ValueUser) == if e.Skipped? then [] else [u]
    ensures forall v :: v in d ==> v.value == e.precision
  {
    if e.Skipped? then [] else [UserValue(u, e.precision)]
  }

  /** The recall dictionary after the users in turn. */
  function Recalls(m: SimMatrix, train: seq<Review>, test: seq<Review>, users: seq<int>, threshold: real,
                   ascending: bool, numPush: int): seq<UserValue>
    requires Square(m) && TitlesIn(train, m.ids)
  {
    if users == [] then []
    else
      var u := users[|users| - 1];
      Recalls(m, train, test, users[..|users| - 1], threshold, ascending, numPush)
      + RecallEntry(u, UserEval(m, train, test, u, threshold, ascending, numPush))
  }

  /** What one user adds to the recall dictionary. */
  function RecallEntry(u: int, e: UserScore): (d: seq<UserValue>)
    ensures Each(d, ValueUser) == if e.Scored? then [u] else []
    ensures forall v :: v in d ==> v.value == e.recall
  {
    if e.Scored? then [UserValue(u, e.recall)] else []
  }

  /** Taking one more user extends each dictionary by that user's entry. */
  lemma DictionariesStep(m: SimMatrix, train: seq<Review>, test: seq<Review>, users: seq<int>, i: nat, threshold: real,
                         ascending: bool, numPush: int)
    requires Square(m) && TitlesIn(train, m.ids) && i < |users|
    ensures var e := UserEval(m, train, test, users[i], threshold, ascending, numPush);
      && Precisions(m, train, test, users[..i + 1], threshold, ascending, numPush)
         == Precisions(m, train, test, users[..i], threshold, ascending, numPush) + PrecisionEntry(users[i], e)
      && Recalls(m, train, test, users[..i + 1], threshold, ascending, numPush)
         == Recalls(m, train, test, users[..i], threshold, ascending, numPush) + RecallEntry(users[i], e)
  {
    assert users[..i + 1][..i] == users[..i];
  }

  predicate InUnit(vs: seq<UserValue>)
  {
    forall v :: v in vs ==> 0.0 <= v.value <= 1.0
  }

  /** The ratios recorded for one user lie in [0, 1]. */
  lemma UserEvalInUnit(m: SimMatrix, train: seq<Review>, test: seq<Review>, user: int, threshold: real,
                       ascending: bool, numPush: int)
    requires Square(m) && TitlesIn(train, m.ids)
    ensures var e := UserEval(m, train, test, user, threshold, ascending, numPush);
      && (!e.Skipped? ==> 0.0 <= e.precision <= 1.0)
      && (e.Scored? ==> 0.0 <= e.recall <= 1.0)
  {
    var seeds := Seeds(train, user, threshold);
    SeedsInTable(m, train, user, threshold);
    ScoreFacts(Recommended(m, seeds, ascending, numPush), Liked(test, user, threshold));
  }

  /** Dropping the last element keeps a sequence duplicate-free, and that element is not among the rest. */
  lemma DistinctInit(xs: seq<int>)
    requires Distinct(xs) && xs != []
    ensures Distinct(xs[..|xs| - 1]) && xs[|xs| - 1] !in xs[..|xs| - 1]
  {
  }

  /** A duplicate-free sequence stays so under a tail of at most the one new element u. */
  lemma DistinctSnoc(xs: seq<int>, tail: seq<int>, u: int)
    requires Distinct(xs) && u !in xs && (tail == [] || tail == [u])
    ensures Distinct(xs + tail)
  {
  }

  /**
   * The precision dictionary holds values in [0, 1], one key per user when the users are distinct, and has an entry for a user
   * exactly when something was recommended to that user.
   */
  lemma {:induction false} PrecisionsFacts(m: SimMatrix, train: seq<Review>, test: seq<Review>, users: seq<int>,
                                           threshold: real, ascending: bool, numPush: int)
    requires Square(m) && TitlesIn(train, m.ids)
    ensures var p := Precisions(m, train, test, users, threshold, ascending, numPush);
      && InUnit(p) && |p| <= |users|
      && (Distinct(users) ==> Distinct(Each(p, ValueUser)))
      && forall u :: u in Each(p, ValueUser) <==> u in users && !UserEval(m, train, test, u, threshold, ascending, numPush).Skipped?
  {
    if users != [] {
      var init, u := users[..|users| - 1], users[|users| - 1];
      PrecisionsFacts(m, train, test, init, threshold, ascending, numPush);
      UserEvalInUnit(m, train, test, u, threshold, ascending, numPush);
      var p0 := Precisions(m, train, test, init, threshold, ascending, numPush);
      var tail := PrecisionEntry(u, UserEval(m, train, test, u, threshold, ascending, numPush));
      EachAppend(p0, tail, ValueUser);
      if Distinct(users) {
        DistinctInit(users);
        DistinctSnoc(Each(p0, ValueUser), Each(tail, ValueUser), u);
      }
      forall v | v in init ensures v in users {
        var k :| 0 <= k < |init| && init[k] == v;
        assert users[k] == v;
      }
      forall v | v in users && v != u ensures v in init {
        InInit(users, v);
      }
    }
  }

  /**
   * The recall dictionary holds values in [0, 1], one key per user when the users are distinct, and has an entry for a user
   * exactly when something was recommended and the user liked some test title.
   */
  lemma {:induction false} RecallsFacts(m: SimMatrix, train: seq<Review>, test: seq<Review>, users: seq<int>,
                                        threshold: real, ascending: bool, numPush: int)
    requires Square(m) && TitlesIn(train, m.ids)
    ensures var r := Recalls(m, train, test, users, threshold, ascending, numPush);
      && InUnit(r) && |r| <= |users|
      && (Distinct(users) ==> Distinct(Each(r, ValueUser)))
      && forall u :: u in Each(r, ValueUser) <==> u in users && UserEval(m, train, test, u, threshold, ascending, numPush).Scored?
  {
    if users != [] {
      var init, u := users[..|users| - 1], users[|users| - 1];
      RecallsFacts(m, train, test, init, threshold, ascending, numPush);
      UserEvalInUnit(m, train, test, u, threshold, ascending, numPush);
      var r0 := Recalls(m, train, test, init, threshold, ascending, numPush);
      var tail := RecallEntry(u, UserEval(m, train, test, u, threshold, ascending, numPush));
      EachAppend(r0, tail, ValueUser);
      if Distinct(users) {
        DistinctInit(users);
        DistinctSnoc(Each(r0, ValueUser), Each(tail, ValueUser), u);
      }
      forall v | v in init ensures v in users {
        var k :| 0 <= k < |init| && init[k] == v;
        assert users[k] == v;
      }
      forall v | v in users && v != u ensures v in init {
        InInit(users, v);
      }
    }
  }

  /** Every user with a recall also has a precision. */
  lemma RecallUsersHavePrecision(m: SimMatrix, train: seq<Review>, test: seq<Review>, users: seq<int>,
                                 threshold: real, ascending: bool, numPush: int)
    requires Square(m) && TitlesIn(train, m.ids)
    ensures forall u :: u in Each(Recalls(m, train, test, users, threshold, ascending, numPush), ValueUser) ==>
      u in Each(Precisions(m, train, test, users, threshold, ascending, numPush), ValueUser)
  {
    PrecisionsFacts(m, train, test, users, threshold, ascending, numPush);
    RecallsFacts(m, train, test, users, threshold, ascending, numPush);
  }

  function Sum(vs: seq<UserValue>): real
  {
    if vs == [] then 0.0 else Sum(vs[..|vs| - 1]) + vs[|vs| - 1].value
  }

  /** Series.mean of a dictionary: absent (NaN) when it is empty. */
  function Mean(vs: seq<UserValue>): Option<real>
  {
    if vs == [] then None else Some(Sum(vs) / |vs| as real)
  }

  lemma {:induction false} SumBounds(vs: seq<UserValue>)
    requires InUnit(vs)
    ensures 0.0 <= Sum(vs) <= |vs| as real
  {
    if vs != [] {
      assert vs[|vs| - 1] in vs;
      assert InUnit(vs[..|vs| - 1]) by {
        forall v | v in vs[..|vs| - 1] ensures v in vs { }
      }
      SumBounds(vs[..|vs| - 1]);
    }
  }

  /** The mean of values in [0, 1] is in [0, 1]. */
  lemma MeanBounds(vs: seq<UserValue>)
    requires InUnit(vs)
    ensures Mean(vs).None? <==> vs == []
    ensures Mean(vs).Some? ==> 0.0 <= Mean(vs).value <= 1.0
  {
    if vs != [] {
      SumBounds(vs);
    }
  }

  datatype PrOutcome = PrOutcome(avgPrecision: Option<real>, avgRecall: Option<real>,
                                 precision: seq<UserValue>, recall: seq<UserValue>)

  /** The two dictionaries, given a table and frames that passed the checks. */
  function PrDicts(m: SimMatrix, metric: Option<Metric>, trainFrame: ReviewFrame, testFrame: ReviewFrame,
                   threshold: real, numPush: int): (seq<UserValue>, seq<UserValue>)
    requires Square(m)
  {
    var train := InTable(trainFrame.rows, m.ids);
    var test := Eligible(testFrame.rows, train, m.ids);
    var users := TestUsers(test);
    (Precisions(m, train, test, users, threshold, Ascending(metric), numPush),
     Recalls(m, train, test, users, threshold, Ascending(metric), numPush))
  }

  /**
   * evaluate_precision_recall, including the errors it raises: the train frame's title_id column is
   * read first, then the table, then the user_id and title_id columns, and the score columns only once
   * the loop reaches a user.
   */
  function PrecisionRecall(sim: Option<SimMatrix>, metric: Option<Metric>, trainFrame: ReviewFrame, testFrame: ReviewFrame,
                           threshold: real, numPush: int): Result<PrOutcome, Error>
    requires sim.Some? ==> Square(sim.value)
  {
    if "title_id" !in trainFrame.columns then Err(MissingColumns)
    else if sim.None? then Err(NoMatrix)
    else if "user_id" !in trainFrame.columns || "user_id" !in testFrame.columns || "title_id" !in testFrame.columns then Err(MissingColumns)
    else
      var m := sim.value;
      var train := InTable(trainFrame.rows, m.ids);
      var users := TestUsers(Eligible(testFrame.rows, train, m.ids));
      if users != [] && ("score" !in trainFrame.columns || "score" !in testFrame.columns) then Err(MissingColumns)
      else
        var (p, r) := PrDicts(m, metric, trainFrame, testFrame, threshold, numPush);
        Ok(PrOutcome(Mean(p), Mean(r), p, r))
  }

  /**
   * The averages are in [0, 1] and absent exactly when no user has a value; each dict has one key per
   * user, only test users appear, and every user with a recall has a precision.
   */
  lemma PrecisionRecallBounds(sim: Option<SimMatrix>, metric: Option<Metric>, trainFrame: ReviewFrame, testFrame: ReviewFrame,
                              threshold: real, numPush: int)
    requires sim.Some? ==> Square(sim.value)
    ensures var res := PrecisionRecall(sim, metric, trainFrame, testFrame, threshold, numPush);
      res.Ok? ==>
        && InUnit(res.value.precision) && InUnit(res.value.recall)
        && (res.value.avgPrecision.None? <==> res.value.precision == [])
        && (res.value.avgRecall.None? <==> res.value.recall == [])
        && (res.value.avgPrecision.Some? ==> 0.0 <= res.value.avgPrecision.value <= 1.0)
        && (res.value.avgRecall.Some? ==> 0.0 <= res.value.avgRecall.value <= 1.0)
        && Distinct(Each(res.value.precision, ValueUser)) && Distinct(Each(res.value.recall, ValueUser))
        && sim.Some?
        && (forall u :: u in Each(res.value.precision, ValueUser) ==>
              u in TestUsers(Eligible(testFrame.rows, InTable(trainFrame.rows, sim.value.ids), sim.value.ids)))
        && (forall u :: u in Each(res.value.recall, ValueUser) ==> u in Each(res.value.precision, ValueUser))
  {
    if PrecisionRecall(sim, metric, trainFrame, testFrame, threshold, numPush).Ok? {
      var m := sim.value;
      var train := InTable(trainFrame.rows, m.ids);
      var test := Eligible(testFrame.rows, train, m.ids);
      PrecisionsFacts(m, train, test, TestUsers(test), threshold, Ascending(metric), numPush);
      RecallsFacts(m, train, test, TestUsers(test), threshold, Ascending(metric), numPush);
      RecallUsersHavePrecision(m, train, test, TestUsers(test), threshold, Ascending(metric), numPush);
      var (p, r) := PrDicts(m, metric, trainFrame, testFrame, threshold, numPush);
      MeanBounds(p);
      MeanBounds(r);
    }
  }

  /**
   * The errors of evaluate_precision_recall: NoMatrix exactly when the train frame has a title_id
   * column and there is no table; otherwise only a missing column, where a missing score column
   * matters only once there is a test user to evaluate.
   */
  lemma PrecisionRecallErrors(sim: Option<SimMatrix>, metric: Option<Metric>, trainFrame: ReviewFrame, testFrame: ReviewFrame,
                              threshold: real, numPush: int)
    requires sim.Some? ==> Square(sim.value)
    ensures var res := PrecisionRecall(sim, metric, trainFrame, testFrame, threshold, numPush);
      && (res == Err(NoMatrix) <==> "title_id" in trainFrame.columns && sim.None?)
      && (res.Err? ==> res.error == NoMatrix || res.error == MissingColumns)
      && ("title_id" !in trainFrame.columns ==> res == Err(MissingColumns))
      && (sim.Some? && "title_id" in trainFrame.columns && "user_id" in trainFrame.columns
          && "user_id" in testFrame.columns && "title_id" in testFrame.columns ==>
            (res.Ok? <==> TestUsers(Eligible(testFrame.rows, InTable(trainFrame.rows, sim.value.ids), sim.value.ids)) == []
                          || ("score" in trainFrame.columns && "score" in testFrame.columns)))
      && (res.Ok? ==> sim.Some? && (res.value.precision, res.value.recall) == PrDicts(sim.value, metric, trainFrame, testFrame, threshold, numPush))
  {
  }
}
