/**
 * The similarity tables create_sim_mat builds with scikit-learn: cosine
 * similarity, Manhattan distance and Euclidean distance between the feature
 * rows of the titles.  Manhattan distance is exact arithmetic.  Cosine and
 * Euclidean need a square root; it is a parameter `sqrt` standing for the
 * floating-point root, so those two are exact given it, and their
 * symmetry holds whatever it is.
 */
module Similarity {
  import opened Wrappers

  type Vector = seq<real>

  datatype Metric = Cosine | Manhattan | Euclidean

  /** The `method` string create_sim_mat accepts for each metric. */
  function MetricName(m: Metric): string
  {
    match m
    case Cosine => "cosine_similarity"
    case Manhattan => "manhattan_distances"
    case Euclidean => "euclidean_distances"
  }

  /** The dispatch of create_sim_mat: exactly the three names are accepted, anything else raises. */
  function ParseMetric(name: string): (m: Option<Metric>)
    ensures m.Some? ==> MetricName(m.value) == name
    ensures m.None? ==> forall k: Metric :: MetricName(k) != name
  {
    if name == "cosine_similarity" then Some(Cosine)
    else if name == "manhattan_distances" then Some(Manhattan)
    else if name == "euclidean_distances" then Some(Euclidean)
    else None
  }

  lemma ParseMetricName(m: Metric)
    ensures ParseMetric(MetricName(m)) == Some(m)
  {
  }

  function Abs(r: real): real { if r < 0.0 then -r else r }

  function Dot(x: Vector, y: Vector): real
    requires |x| == |y|
  {
    DotTo(x, y, |x|)
  }

  /** The dot product of the first n coordinates. */
  function DotTo(x: Vector, y: Vector, n: nat): real
    requires n <= |x| == |y|
  {
    if n == 0 then 0.0 else DotTo(x, y, n - 1) + x[n - 1] * y[n - 1]
  }

  /** Sum of absolute coordinate differences (manhattan_distances). */
  function L1(x: Vector, y: Vector): real
    requires |x| == |y|
  {
    if x == [] then 0.0 else L1(x[..|x| - 1], y[..|y| - 1]) + Abs(x[|x| - 1] - y[|y| - 1])
  }

  /** Sum of squared coordinate differences, the square of the Euclidean distance. */
  function SqDist(x: Vector, y: Vector): real
    requires |x| == |y|
  {
    if x == [] then 0.0 else SqDist(x[..|x| - 1], y[..|y| - 1]) + (x[|x| - 1] - y[|y| - 1]) * (x[|x| - 1] - y[|y| - 1])
  }

  /** The norm cosine_similarity divides by: a zero norm is replaced by 1, so a zero row has similarity 0 with every row. */
  function SafeNorm(x: Vector, sqrt: real -> real): (n: real)
    ensures n != 0.0
    ensures sqrt(Dot(x, x)) != 0.0 ==> n == sqrt(Dot(x, x))
    ensures sqrt(Dot(x, x)) == 0.0 ==> n == 1.0
  {
    var norm := sqrt(Dot(x, x));
    if norm == 0.0 then 1.0 else norm
  }

  /** All feature rows have the same width, as the columns of one data frame do. */
  predicate Rectangular(xs: seq<Vector>)
  {
    forall i :: 0 <= i < |xs| ==> |xs[i]| == |xs[0]|
  }

  /**
   * Entry (i, j) of the table for feature rows xs.  euclidean_distances of a matrix with itself sets
   * the diagonal to exactly zero.
   */
  function Kernel(metric: Metric, sqrt: real -> real, xs: seq<Vector>, i: nat, j: nat): real
    requires Rectangular(xs) && i < |xs| && j < |xs|
  {
    var x, y := xs[i], xs[j];
    match metric
    case Cosine => Dot(x, y) / (SafeNorm(x, sqrt) * SafeNorm(y, sqrt))
    case Manhattan => L1(x, y)
    case Euclidean => if i == j then 0.0 else sqrt(SqDist(x, y))
  }

  /** A table labelled by title id on both axes: ids are the row and the column labels. */
  datatype SimMatrix = SimMatrix(ids: seq<int>, values: seq<seq<real>>)

  predicate Square(m: SimMatrix)
  {
    |m.values| == |m.ids| && forall i :: 0 <= i < |m.values| ==> |m.values[i]| == |m.ids|
  }

  /**
   * The table create_sim_mat stores: one row and one column per feature row, labelled with the ids,
   * each entry the metric applied to the two feature rows.
   */
  function Build(ids: seq<int>, xs: seq<Vector>, metric: Metric, sqrt: real -> real): (m: SimMatrix)
    requires |ids| == |xs| && Rectangular(xs)
    ensures Square(m) && m.ids == ids
    ensures forall i, j :: 0 <= i < |xs| && 0 <= j < |xs| ==> m.values[i][j] == Kernel(metric, sqrt, xs, i, j)
  {
    SimMatrix(ids, seq(|xs|, i requires 0 <= i < |xs| => seq(|xs|, j requires 0 <= j < |xs| => Kernel(metric, sqrt, xs, i, j))))
  }

  lemma {:induction false} DotToSymmetric(x: Vector, y: Vector, n: nat)
    requires n <= |x| == |y|
    ensures DotTo(x, y, n) == DotTo(y, x, n)
  {
    if n != 0 {
      DotToSymmetric(x, y, n - 1);
    }
  }

  lemma DotSymmetric(x: Vector, y: Vector)
    requires |x| == |y|
    ensures Dot(x, y) == Dot(y, x)
  {
    DotToSymmetric(x, y, |x|);
  }

  lemma {:induction false} L1Symmetric(x: Vector, y: Vector)
    requires |x| == |y|
    ensures L1(x, y) == L1(y, x)
  {
    if x != [] {
      L1Symmetric(x[..|x| - 1], y[..|y| - 1]);
    }
  }

  lemma {:induction false} SqDistSymmetric(x: Vector, y: Vector)
    requires |x| == |y|
    ensures SqDist(x, y) == SqDist(y, x)
  {
    if x != [] {
      SqDistSymmetric(x[..|x| - 1], y[..|y| - 1]);
    }
  }

  /** Manhattan distance is a distance: never negative, and zero between a row and itself. */
  lemma {:induction false} L1Distance(x: Vector, y: Vector)
    requires |x| == |y|
    ensures L1(x, y) >= 0.0
    ensures L1(x, x) == 0.0
  {
    if x != [] {
      L1Distance(x[..|x| - 1], y[..|y| - 1]);
    }
  }

  /** Every entry agrees with its mirror image, for all three metrics and any square root. */
  lemma KernelSymmetric(metric: Metric, sqrt: real -> real, xs: seq<Vector>, i: nat, j: nat)
    requires Rectangular(xs) && i < |xs| && j < |xs|
    ensures Kernel(metric, sqrt, xs, i, j) == Kernel(metric, sqrt, xs, j, i)
  {
    assert |xs[i]| == |xs[j]|;
    match metric
    case Cosine =>
      DotSymmetric(xs[i], xs[j]);
      assert SafeNorm(xs[i], sqrt) * SafeNorm(xs[j], sqrt) == SafeNorm(xs[j], sqrt) * SafeNorm(xs[i], sqrt);
    case Manhattan => L1Symmetric(xs[i], xs[j]);
    case Euclidean => SqDistSymmetric(xs[i], xs[j]);
  }

  /**
   * The stored table is symmetric, and a distance table (Manhattan or Euclidean) has a zero diagonal
   * and, for Manhattan, no negative entry.
   */
  lemma BuildShape(ids: seq<int>, xs: seq<Vector>, metric: Metric, sqrt: real -> real, i: nat, j: nat)
    requires |ids| == |xs| && Rectangular(xs) && i < |xs| && j < |xs|
    ensures Build(ids, xs, metric, sqrt).values[i][j] == Build(ids, xs, metric, sqrt).values[j][i]
    ensures metric != Cosine ==> Build(ids, xs, metric, sqrt).values[i][i] == 0.0
    ensures metric == Manhattan ==> Build(ids, xs, metric, sqrt).values[i][j] >= 0.0
  {
    KernelSymmetric(metric, sqrt, xs, i, j);
    assert |xs[i]| == |xs[j]|;
    L1Distance(xs[i], xs[j]);
  }

  /**
   * The cosine diagonal, for a square root that is genuine at the row's squared norm: 1 for a non-zero
   * row, and 0 for an all-zero row, whose norm is replaced by 1.
   */
  lemma CosineDiagonal(sqrt: real -> real, xs: seq<Vector>, i: nat)
    requires Rectangular(xs) && i < |xs|
    requires sqrt(Dot(xs[i], xs[i])) * sqrt(Dot(xs[i], xs[i])) == Dot(xs[i], xs[i])
    ensures Kernel(Cosine, sqrt, xs, i, i) == if Dot(xs[i], xs[i]) == 0.0 then 0.0 else 1.0
  {
    var d := Dot(xs[i], xs[i]);
    var n := sqrt(d);
    if d == 0.0 {
      assert Kernel(Cosine, sqrt, xs, i, i) == 0.0 / (SafeNorm(xs[i], sqrt) * SafeNorm(xs[i], sqrt));
    } else {
      assert n != 0.0;
      assert SafeNorm(xs[i], sqrt) == n;
      assert Kernel(Cosine, sqrt, xs, i, i) == d / (n * n);
      assert n * n == d;
      assert d / d == 1.0;
    }
  }

  /** A Euclidean entry is never negative when the square root is not. */
  lemma EuclideanNonNegative(sqrt: real -> real, xs: seq<Vector>, i: nat, j: nat)
    requires Rectangular(xs) && i < |xs| && j < |xs|
    requires i != j ==> sqrt(SqDist(xs[i], xs[j])) >= 0.0
    ensures Kernel(Euclidean, sqrt, xs, i, j) >= 0.0
  {
  }

  /**
   * The position of a label, as DataFrame.loc finds it.  With a repeated label loc would return several
   * rows; this model reads the first.
   */
  function IndexOf(ids: seq<int>, id: int): (k: Option<nat>)
    ensures k.Some? ==> k.value < |ids| && ids[k.value] == id && id !in ids[..k.value]
    ensures k.None? <==> id !in ids
  {
    if ids == [] then None
    else if ids[0] == id then Some(0)
    else
      var k := IndexOf(ids[1..], id);
      assert ids == [ids[0]] + ids[1..];
      if k.None? then None else Some(k.value + 1)
  }

  /** sim_mat.loc[a, b]: the entry in row a and column b. */
  function Sim(m: SimMatrix, a: int, b: int): real
    requires Square(m) && a in m.ids && b in m.ids
  {
    m.values[IndexOf(m.ids, a).value][IndexOf(m.ids, b).value]
  }
}
