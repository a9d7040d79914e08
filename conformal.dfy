/** The arithmetic of the two conformal searchers: nonconformity scores, the
    conformalization gate, the signed score adjustments, the interval bounds
    they produce, and the breach indicators fed back to the samplers. The
    regressors' predictions and the empirical quantile of a score list are
    inputs. */
module Conformal {
  import opened Common
  import opened RealSeq
  import opened Intervals

  // ---------------------------------------------------------------------------
  // Python indexing

  /** `s[idx]` on a Python list or a numpy axis: a negative index counts from
      the end; anything else outside the list raises. */
  function PyIndex<T>(s: seq<T>, idx: int): (r: Result<T>)
    ensures r.Ok? <==> -|s| <= idx < |s|
    ensures r.Err? ==> r.error == IndexOutOfRange
    ensures 0 <= idx < |s| ==> r == Ok(s[idx])
    ensures -|s| <= idx < 0 ==> r == Ok(s[|s| + idx])
  {
    if 0 <= idx < |s| then Ok(s[idx])
    else if -|s| <= idx < 0 then Ok(s[|s| + idx])
    else Err(IndexOutOfRange)
  }

  /** Column `j` of a matrix given by its rows. */
  function Column(rows: seq<seq<real>>, j: nat): (r: seq<real>)
    requires forall i :: 0 <= i < |rows| ==> j < |rows[i]|
    ensures |r| == |rows| && forall i :: 0 <= i < |rows| ==> r[i] == rows[i][j]
  {
    seq(|rows|, i requires 0 <= i < |rows| && j < |rows[i]| => rows[i][j])
  }

  /** Every row has `w` entries. */
  predicate Width(rows: seq<seq<real>>, w: nat)
  {
    forall i :: 0 <= i < |rows| ==> |rows[i]| == w
  }

  // ---------------------------------------------------------------------------
  // Locally weighted scores

  /** `1 if x <= 0 else x`: the predicted spread used as a divisor. */
  function FloorVariance(v: real): (r: real)
    ensures r > 0.0 && (v > 0.0 ==> r == v)
  {
    if v <= 0.0 then 1.0 else v
  }

  /** `max(x, 0)`: the predicted spread used to scale a score quantile. */
  function ClipVariance(v: real): (r: real)
    ensures r >= 0.0 && r >= v
  {
    MaxReal(v, 0.0)
  }

  /** `|y_val - point prediction| / floored spread`, element by element. */
  function LwScores(y: seq<real>, pred: seq<real>, variance: seq<real>): (r: seq<real>)
    requires |pred| == |y| && |variance| == |y|
    ensures |r| == |y|
    ensures forall i :: 0 <= i < |y| ==> r[i] >= 0.0
  {
    seq(|y|, i requires 0 <= i < |y| => Abs(y[i] - pred[i]) / FloorVariance(variance[i]))
  }

  lemma AbsWithin(d: real, w: real)
    ensures Abs(d) <= w <==> -w <= d <= w
  {
  }

  lemma QuotientAtMost(a: real, v: real, q: real)
    requires v > 0.0
    ensures a / v <= q <==> a <= q * v
  {
    if a / v <= q {
      assert a == (a / v) * v;
    }
    if a <= q * v {
      assert q * v / v == q;
    }
  }

  /** A calibration point's score is at most `q` exactly when the band of
      half-width `q` times its spread around its prediction covers it. */
  lemma LwScoreCoverage(y: seq<real>, pred: seq<real>, variance: seq<real>, i: nat, q: real)
    requires |pred| == |y| && |variance| == |y| && i < |y|
    ensures var v := FloorVariance(variance[i]);
      LwScores(y, pred, variance)[i] <= q <==> pred[i] - q * v <= y[i] <= pred[i] + q * v
  {
    var v := FloorVariance(variance[i]);
    QuotientAtMost(Abs(y[i] - pred[i]), v, q);
    AbsWithin(y[i] - pred[i], q * v);
  }

  // ---------------------------------------------------------------------------
  // Locally weighted bands

  /** The two columns of the UCB band: the prediction minus and plus `beta`
      times the score quantile times the clipped spread. */
  function LwUcbRows(yPred: seq<real>, variance: seq<real>, scoreQuantile: real, beta: real): (r: seq<seq<real>>)
    requires |variance| == |yPred|
    ensures |r| == |yPred| && Width(r, 2)
  {
    seq(|yPred|, i requires 0 <= i < |yPred| =>
      var half := beta * (scoreQuantile * ClipVariance(variance[i]));
      [yPred[i] - half, yPred[i] + half])
  }

  /** With a non-negative weight and score quantile the UCB band is centred on
      the prediction and contains it. */
  lemma LwUcbRowsCentred(yPred: seq<real>, variance: seq<real>, scoreQuantile: real, beta: real, i: nat)
    requires |variance| == |yPred| && i < |yPred|
    requires beta >= 0.0 && scoreQuantile >= 0.0
    ensures var row := LwUcbRows(yPred, variance, scoreQuantile, beta)[i];
      && row[0] <= yPred[i] <= row[1]
      && row[0] + row[1] == 2.0 * yPred[i]
  {
    var half := beta * (scoreQuantile * ClipVariance(variance[i]));
    ProductNonNegative(scoreQuantile, ClipVariance(variance[i]));
    ProductNonNegative(beta, scoreQuantile * ClipVariance(variance[i]));
    assert half >= 0.0;
  }

  /** One row of the Thompson band: for each alpha in turn, the prediction
      minus and plus that alpha's score quantile times the clipped spread. */
  function LwThompsonRow(y: real, v: real, scoreQuantiles: seq<real>): (r: seq<real>)
    ensures |r| == 2 * |scoreQuantiles|
  {
    if |scoreQuantiles| == 0 then []
    else
      var n := |scoreQuantiles| - 1;
      var half := scoreQuantiles[n] * ClipVariance(v);
      LwThompsonRow(y, v, scoreQuantiles[..n]) + [y - half, y + half]
  }

  /** Columns `2k` and `2k + 1` of a Thompson row are symmetric about the
      prediction, at the distance set by the `k`-th score quantile. */
  lemma {:induction false} LwThompsonRowPairs(y: real, v: real, scoreQuantiles: seq<real>, k: nat)
    requires k < |scoreQuantiles|
    ensures var r := LwThompsonRow(y, v, scoreQuantiles);
      && r[2 * k] == y - scoreQuantiles[k] * ClipVariance(v)
      && r[2 * k + 1] == y + scoreQuantiles[k] * ClipVariance(v)
  {
    var n := |scoreQuantiles| - 1;
    if k < n {
      LwThompsonRowPairs(y, v, scoreQuantiles[..n], k);
      assert scoreQuantiles[..n][k] == scoreQuantiles[k];
    }
  }

  function LwThompsonRows(yPred: seq<real>, variance: seq<real>, scoreQuantiles: seq<real>): (r: seq<seq<real>>)
    requires |variance| == |yPred|
    ensures |r| == |yPred| && Width(r, 2 * |scoreQuantiles|)
  {
    seq(|yPred|, i requires 0 <= i < |yPred| => LwThompsonRow(yPred[i], variance[i], scoreQuantiles))
  }

  // ---------------------------------------------------------------------------
  // numpy stacking, as the locally weighted searcher uses it

  /** A numpy array of one dimension, or of two given by its rows. */
  datatype NdArray = Flat(items: seq<real>) | Grid(rows: seq<seq<real>>)

  /** `np.hstack((a, b))`: one-dimensional arrays are joined end to end,
      two-dimensional ones row by row when they have as many rows; mixing
      the two raises. */
  function Hstack(a: NdArray, b: NdArray): (r: Result<NdArray>)
    ensures r.Ok? <==> (a.Flat? && b.Flat?) || (a.Grid? && b.Grid? && |a.rows| == |b.rows|)
  {
    match (a, b)
    case (Flat(x), Flat(y)) => Ok(Flat(x + y))
    case (Grid(x), Grid(y)) =>
      if |x| == |y| then Ok(Grid(seq(|x|, i requires 0 <= i < |x| => x[i] + y[i]))) else Err(ShapeMismatch)
    case _ => Err(ShapeMismatch)
  }

  /** The UCB branch of `LocallyWeightedConformalSearcher.predict` as
      written: it starts from `np.empty((0, 0))` and stacks the lower and
      the upper bound vectors onto it. */
  function LwUcbStackAsWritten(lower: seq<real>, upper: seq<real>): Result<NdArray>
  {
    var first := Hstack(Grid([]), Flat(lower));
    if first.Err? then first else Hstack(first.value, Flat(upper))
  }

  /** Stacking a one-dimensional vector onto the two-dimensional empty start
      raises, whatever the bounds: the branch can never return. */
  lemma LwUcbStackAsWrittenFails(lower: seq<real>, upper: seq<real>)
    ensures LwUcbStackAsWritten(lower, upper) == Err(ShapeMismatch)
  {
  }

  /** A vector as a one-column matrix. */
  function AsColumn(s: seq<real>): (r: NdArray)
    ensures r.Grid? && |r.rows| == |s| && Width(r.rows, 1)
  {
    Grid(seq(|s|, i requires 0 <= i < |s| => [s[i]]))
  }

  /** What the code evidently means: the bounds as the two columns of an
      `n x 2` matrix, which `LwUcbRows` builds. */
  lemma LwUcbRowsAreColumnStack(yPred: seq<real>, variance: seq<real>, scoreQuantile: real, beta: real)
    requires |variance| == |yPred|
    ensures var rows := LwUcbRows(yPred, variance, scoreQuantile, beta);
      Hstack(AsColumn(Column(rows, 0)), AsColumn(Column(rows, 1))) == Ok(Grid(rows))
  {
    var rows := LwUcbRows(yPred, variance, scoreQuantile, beta);
    var stacked := Hstack(AsColumn(Column(rows, 0)), AsColumn(Column(rows, 1)));
    var left := AsColumn(Column(rows, 0));
    var right := AsColumn(Column(rows, 1));
    assert stacked.Ok?;
    assert |stacked.value.rows| == |rows|;
    forall i | 0 <= i < |rows|
      ensures stacked.value.rows[i] == rows[i]
    {
      assert left.rows[i] == [rows[i][0]] && right.rows[i] == [rows[i][1]];
      assert stacked.value.rows[i] == left.rows[i] + right.rows[i];
      assert |rows[i]| == 2;
      assert rows[i] == [rows[i][0], rows[i][1]];
    }
    assert stacked.value.rows == rows;
  }

  /** The bound vector `y_pred + q * var_pred` of every prediction. */
  function Shifted(yPred: seq<real>, variance: seq<real>, q: real): (r: seq<real>)
    requires |variance| == |yPred|
    ensures |r| == |yPred| && forall i :: 0 <= i < |yPred| ==> r[i] == yPred[i] + q * ClipVariance(variance[i])
  {
    seq(|yPred|, i requires 0 <= i < |yPred| => yPred[i] + q * ClipVariance(variance[i]))
  }

  /** The Thompson branch of `LocallyWeightedConformalSearcher.predict` as
      written, from the array built so far: for each score quantile in turn
      it stacks the lower and then the upper bound vector onto it. */
  function LwThompsonStackAsWritten(acc: NdArray, yPred: seq<real>, variance: seq<real>,
                                    scoreQuantiles: seq<real>): Result<NdArray>
    requires |variance| == |yPred|
    decreases |scoreQuantiles|
  {
    if |scoreQuantiles| == 0 then Ok(acc)
    else
      var q := scoreQuantiles[0];
      var lower := Hstack(acc, Flat(Shifted(yPred, variance, -q)));
      if lower.Err? then lower
      else
        var both := Hstack(lower.value, Flat(Shifted(yPred, variance, q)));
        if both.Err? then both
        else LwThompsonStackAsWritten(both.value, yPred, variance, scoreQuantiles[1..])
  }

  /** Started from `np.empty((0, 0))`, the first stack raises as soon as
      there is an alpha; with no alphas the array stays `(0, 0)`, has no
      rows, and the branch draws nothing and returns an empty list. */
  lemma LwThompsonStackAsWrittenFails(yPred: seq<real>, variance: seq<real>, scoreQuantiles: seq<real>)
    requires |variance| == |yPred|
    ensures |scoreQuantiles| > 0 ==> LwThompsonStackAsWritten(Grid([]), yPred, variance, scoreQuantiles) == Err(ShapeMismatch)
    ensures |scoreQuantiles| == 0 ==> LwThompsonStackAsWritten(Grid([]), yPred, variance, scoreQuantiles) == Ok(Grid([]))
  {
  }

  // ---------------------------------------------------------------------------
  // Quantile regression scores

  /** `max(lower prediction - y, y - upper prediction)`: how far `y` lies
      outside the predicted interval (negative inside it). */
  function QuantileScore(lo: real, hi: real, y: real): real
  {
    MaxReal(lo - y, y - hi)
  }

  /** A score is at most `s` exactly when the interval widened by `s` on both
      sides covers the point. */
  lemma QuantileScoreCoverage(lo: real, hi: real, y: real, s: real)
    ensures QuantileScore(lo, hi, y) <= s <==> lo - s <= y <= hi + s
  {
  }

  function QuantileScores(lo: seq<real>, hi: seq<real>, y: seq<real>): (r: seq<real>)
    requires |lo| == |y| && |hi| == |y|
    ensures |r| == |y| && forall i :: 0 <= i < |y| ==> r[i] == QuantileScore(lo[i], hi[i], y[i])
  {
    seq(|y|, i requires 0 <= i < |y| => QuantileScore(lo[i], hi[i], y[i]))
  }

  /** The scores of level pair `(i, n - 1 - i)` of the validation
      predictions. */
  function PairScores(rows: seq<seq<real>>, y: seq<real>, n: nat, i: nat): (r: seq<real>)
    requires Width(rows, n) && |rows| == |y| && i < n
    ensures |r| == |y|
  {
    QuantileScores(Column(rows, i), Column(rows, n - 1 - i), y)
  }

  /** The UCB scores, from the first and the last prediction column, stored
      under keys 0 and -1. */
  function UcbIndexedScores(rows: seq<seq<real>>, y: seq<real>, n: nat): (r: map<int, seq<real>>)
    requires Width(rows, n) && |rows| == |y| && n > 0
    ensures r.Keys == {0, -1}
    ensures r[0] == r[-1] == PairScores(rows, y, n, 0)
  {
    var s := PairScores(rows, y, n, 0);
    map[0 := s, -1 := s]
  }

  /** Column `j` under numpy indexing: a negative `j` counts from the end;
      anything else outside the `w` columns raises. */
  function PyColumn(rows: seq<seq<real>>, w: nat, j: int): (r: Result<seq<real>>)
    requires Width(rows, w)
    ensures r.Ok? <==> -(w as int) <= j < w
    ensures r.Err? ==> r.error == IndexOutOfRange
    ensures r.Ok? ==> |r.value| == |rows|
    ensures 0 <= j < w ==> r == Ok(Column(rows, j))
  {
    if 0 <= j < w then Ok(Column(rows, j))
    else if -(w as int) <= j < 0 then Ok(Column(rows, w + j))
    else Err(IndexOutOfRange)
  }

  /** The scores stored so far, and the error that stopped the loop, if any. */
  datatype ScoreTable = ScoreTable(scores: map<int, seq<real>>, error: Option<Error>)

  /** The Thompson score table after the first `count` level pairs of
      predictions with `w` columns and a sampler of `n` levels: pair `i`
      scores `y` against columns `i` and `n - 1 - i` and is stored under both
      keys; an upper column outside the predictions stops the loop. */
  function PairTable(rows: seq<seq<real>>, y: seq<real>, w: nat, n: int, count: nat): (r: ScoreTable)
    requires Width(rows, w) && |rows| == |y| && count <= w / 2
    ensures r.error.Some? ==> r.error == Some(IndexOutOfRange)
  {
    if count == 0 then ScoreTable(map[], None)
    else
      var prev := PairTable(rows, y, w, n, count - 1);
      var i := count - 1;
      if prev.error.Some? then prev
      else
        match PyColumn(rows, w, n - 1 - i)
        case Err(e) => ScoreTable(prev.scores, Some(e))
        case Ok(hi) =>
          var s := QuantileScores(Column(rows, i), hi, y);
          ScoreTable(prev.scores[i := s][n - 1 - i := s], None)
  }

  /** Once the loop has stopped, later pairs change nothing. */
  lemma {:induction false} PairTableStops(rows: seq<seq<real>>, y: seq<real>, w: nat, n: int, a: nat, b: nat)
    requires Width(rows, w) && |rows| == |y| && a <= b <= w / 2
    requires PairTable(rows, y, w, n, a).error.Some?
    ensures PairTable(rows, y, w, n, b) == PairTable(rows, y, w, n, a)
  {
    if a < b {
      PairTableStops(rows, y, w, n, a, b - 1);
    }
  }

  /** The loop stops exactly when a pair's upper column `n - 1 - i` falls
      outside the `w` prediction columns: the first pair when `n > w`, a late
      one only for a negative `n`. */
  lemma {:induction false} PairTableFails(rows: seq<seq<real>>, y: seq<real>, w: nat, n: int, count: nat)
    requires Width(rows, w) && |rows| == |y| && count <= w / 2
    ensures PairTable(rows, y, w, n, count).error.None? <==> count == 0 || (n <= w && -(w as int) <= n - count)
  {
    if count > 0 {
      PairTableFails(rows, y, w, n, count - 1);
    }
  }

  /** When the sampler's level count matches the prediction columns and is
      even, the table holds one entry per level: pair `j`'s scores under both
      `j` and `n - 1 - j`. */
  lemma {:induction false} PairTableMatched(rows: seq<seq<real>>, y: seq<real>, n: nat, count: nat)
    requires Width(rows, n) && |rows| == |y| && n % 2 == 0 && count <= n / 2
    ensures var t := PairTable(rows, y, n, n, count);
      && t.error.None?
      && (forall k :: k in t.scores <==> 0 <= k < count || n - count <= k < n)
      && (forall j :: 0 <= j < count ==> t.scores[j] == PairScores(rows, y, n, j))
      && (forall j :: 0 <= j < count ==> t.scores[n - 1 - j] == PairScores(rows, y, n, j))
  {
    if count > 0 {
      PairTableMatched(rows, y, n, count - 1);
      var prev := PairTable(rows, y, n, n, count - 1);
      var i := count - 1;
      assert PyColumn(rows, n, n - 1 - i) == Ok(Column(rows, n - 1 - i));
      var s := PairScores(rows, y, n, i);
      assert PairTable(rows, y, n, n, count).scores == prev.scores[i := s][n - 1 - i := s];
    }
  }

  /** The Thompson branch of `QuantileConformalRegression.fit`: the pair
      loop over `w / 2` pairs, with `n` the sampler's level count. */
  method ThompsonIndexedScores(rows: seq<seq<real>>, y: seq<real>, w: nat, n: int) returns (t: ScoreTable)
    requires Width(rows, w) && |rows| == |y|
    ensures t == PairTable(rows, y, w, n, w / 2)
  {
    var m: map<int, seq<real>> := map[];
    var i := 0;
    while i < w / 2
      invariant 0 <= i <= w / 2
      invariant PairTable(rows, y, w, n, i) == ScoreTable(m, None)
    {
      var hi := PyColumn(rows, w, n - 1 - i);
      if hi.Err? {
        PairTableStops(rows, y, w, n, i + 1, w / 2);
        return ScoreTable(m, Some(hi.error));
      }
      var s := QuantileScores(Column(rows, i), hi.value, y);
      m := m[i := s];
      m := m[n - 1 - i := s];
      i := i + 1;
    }
    t := ScoreTable(m, None);
  }

  // ---------------------------------------------------------------------------
  // The conformalization gate and the adjustments

  /** `len(X_train) + len(X_val) > n_pre_conformal_trials`: whether enough
      data was seen to hold out a calibration set. */
  predicate Conformalize(nTrain: nat, nVal: nat, nPreConformal: int)
  {
    nTrain + nVal > nPreConformal
  }

  /** The UCB interval of `QuantileConformalRegression.predict` and its
      exploration bound, from rows of `[lower, median, upper]` predictions:
      the interval is widened by the score quantile on both sides (by 0 when
      not conformalized) and the bound is the median plus `beta` times its
      distance from the widened lower end. */
  datatype UcbBand = UcbBand(lower: seq<real>, upper: seq<real>, bound: seq<real>)

  function QcrUcbBand(rows: seq<seq<real>>, scoreQuantile: real, beta: real): (r: UcbBand)
    requires Width(rows, 3)
    ensures |r.lower| == |r.upper| == |r.bound| == |rows|
  {
    var lower := seq(|rows|, i requires 0 <= i < |rows| => rows[i][0] - scoreQuantile);
    var upper := seq(|rows|, i requires 0 <= i < |rows| => rows[i][2] + scoreQuantile);
    UcbBand(lower, upper, seq(|rows|, i requires 0 <= i < |rows| => rows[i][1] + beta * (rows[i][1] - lower[i])))
  }

  /** The widened interval covers `y` exactly when `y`'s quantile score
      against the raw predictions is at most the score quantile; with no
      adjustment the interval is the raw one. */
  lemma QcrUcbBandCoverage(rows: seq<seq<real>>, scoreQuantile: real, beta: real, i: nat, y: real)
    requires Width(rows, 3) && i < |rows|
    ensures var b := QcrUcbBand(rows, scoreQuantile, beta);
      b.lower[i] <= y <= b.upper[i] <==> QuantileScore(rows[i][0], rows[i][2], y) <= scoreQuantile
    ensures scoreQuantile == 0.0 ==>
      QcrUcbBand(rows, scoreQuantile, beta).lower[i] == rows[i][0] && QcrUcbBand(rows, scoreQuantile, beta).upper[i] == rows[i][2]
  {
    QuantileScoreCoverage(rows[i][0], rows[i][2], y, scoreQuantile);
  }

  /** The exploration bound sits `beta` times the widened lower half-width
      above the median. */
  lemma QcrUcbBoundAboveMedian(rows: seq<seq<real>>, scoreQuantile: real, beta: real, i: nat)
    requires Width(rows, 3) && i < |rows|
    requires beta >= 0.0 && rows[i][0] <= rows[i][1] && scoreQuantile >= 0.0
    ensures QcrUcbBand(rows, scoreQuantile, beta).bound[i] >= rows[i][1]
  {
    var b := QcrUcbBand(rows, scoreQuantile, beta);
    ProductNonNegative(beta, rows[i][1] - b.lower[i]);
  }

  /** The sign given to level `i`'s score quantile in the Thompson branch:
      levels below the middle (`i < n / 2`, true division) move down, the
      others move up. */
  function SignedAdjustment(i: nat, n: nat, score: real): real
  {
    if (i as real) < (n as real) / 2.0 then -score else score
  }

  /** The Thompson branch's adjustment row: each level's signed score
      quantile, or all zeros when not conformalized. */
  function ScoreAdjustments(n: nat, conformalize: bool, scores: seq<real>): (r: seq<real>)
    requires conformalize ==> |scores| == n
    ensures |r| == n
  {
    if conformalize then seq(n, i requires 0 <= i < n => SignedAdjustment(i, n, scores[i]))
    else seq(n, i => 0.0)
  }

  /** The first `count` entries of the Thompson adjustment row when
      conformalized: level `i`'s score list is the one stored under key `i`,
      cut at the `i`-th level; a missing key raises before a missing level. */
  function SignedScores(table: map<int, seq<real>>, levels: seq<real>, n: nat,
                        quantileOf: (seq<real>, real) -> real, count: nat): (r: Result<seq<real>>)
    requires count <= n
    ensures r.Ok? ==> |r.value| == count
    ensures r.Err? ==> r.error == MissingKey || r.error == IndexOutOfRange
  {
    if count == 0 then Ok([])
    else
      match SignedScores(table, levels, n, quantileOf, count - 1)
      case Err(e) => Err(e)
      case Ok(prefix) =>
        var i := count - 1;
        if i !in table then Err(MissingKey)
        else if i >= |levels| then Err(IndexOutOfRange)
        else Ok(prefix + [SignedAdjustment(i, n, quantileOf(table[i], levels[i]))])
  }

  /** Every level below `n` has a stored score list and a level. */
  predicate Covered(table: map<int, seq<real>>, levels: seq<real>, n: nat)
  {
    forall i :: 0 <= i < n ==> i in table && i < |levels|
  }

  /** The raw score quantile of each of the `n` levels (0 where a key or a
      level is missing). */
  function RawScores(table: map<int, seq<real>>, levels: seq<real>, n: nat,
                     quantileOf: (seq<real>, real) -> real): (r: seq<real>)
    ensures |r| == n
  {
    seq(n, i => if i in table && 0 <= i < |levels| then quantileOf(table[i], levels[i]) else 0.0)
  }

  /** The adjustments exist exactly when every level below `count` has a key
      and a level; they are then the signed score quantiles of
      `ScoreAdjustments`. */
  lemma {:induction false} SignedScoresMeaning(table: map<int, seq<real>>, levels: seq<real>, n: nat,
                                               quantileOf: (seq<real>, real) -> real, count: nat)
    requires count <= n
    ensures SignedScores(table, levels, n, quantileOf, count).Ok? <==>
      forall i :: 0 <= i < count ==> i in table && i < |levels|
    ensures SignedScores(table, levels, n, quantileOf, count).Ok? ==>
      forall i :: 0 <= i < count ==>
        SignedScores(table, levels, n, quantileOf, count).value[i] == SignedAdjustment(i, n, quantileOf(table[i], levels[i]))
  {
    if count > 0 {
      var i := count - 1;
      SignedScoresMeaning(table, levels, n, quantileOf, i);
      var prefix := SignedScores(table, levels, n, quantileOf, i);
      var r := SignedScores(table, levels, n, quantileOf, count);
      if prefix.Ok? && i in table && i < |levels| {
        assert r == Ok(prefix.value + [SignedAdjustment(i, n, quantileOf(table[i], levels[i]))]);
      } else {
        assert r.Err?;
      }
    }
  }

  /** Over all `n` levels the adjustments are `ScoreAdjustments` of the raw
      score quantiles. */
  lemma SignedScoresAreAdjustments(table: map<int, seq<real>>, levels: seq<real>, n: nat,
                                   quantileOf: (seq<real>, real) -> real)
    requires Covered(table, levels, n)
    ensures SignedScores(table, levels, n, quantileOf, n) ==
      Ok(ScoreAdjustments(n, true, RawScores(table, levels, n, quantileOf)))
  {
    SignedScoresMeaning(table, levels, n, quantileOf, n);
    var r := SignedScores(table, levels, n, quantileOf, n);
    assert forall i :: 0 <= i < n ==> i in table && i < |levels|;
    assert r.Ok?;
    assert r.value == ScoreAdjustments(n, true, RawScores(table, levels, n, quantileOf));
  }

  /** The score-quantile loop of the Thompson branch of
      `QuantileConformalRegression.predict`. */
  method ComputeSignedScores(table: map<int, seq<real>>, levels: seq<real>, n: nat,
                             quantileOf: (seq<real>, real) -> real) returns (r: Result<seq<real>>)
    ensures r == SignedScores(table, levels, n, quantileOf, n)
  {
    var out: seq<real> := [];
    var i := 0;
    while i < n
      invariant 0 <= i <= n
      invariant SignedScores(table, levels, n, quantileOf, i) == Ok(out)
    {
      if i !in table {
        SignedScoresStop(table, levels, n, quantileOf, i + 1, n);
        return Err(MissingKey);
      }
      if i >= |levels| {
        SignedScoresStop(table, levels, n, quantileOf, i + 1, n);
        return Err(IndexOutOfRange);
      }
      var score := quantileOf(table[i], levels[i]);
      if (i as real) < (n as real) / 2.0 {
        out := out + [-score];
      } else {
        out := out + [score];
      }
      i := i + 1;
    }
    r := Ok(out);
  }

  /** Once a level has raised, later levels change nothing. */
  lemma {:induction false} SignedScoresStop(table: map<int, seq<real>>, levels: seq<real>, n: nat,
                                            quantileOf: (seq<real>, real) -> real, a: nat, b: nat)
    requires a <= b <= n
    requires SignedScores(table, levels, n, quantileOf, a).Err?
    ensures SignedScores(table, levels, n, quantileOf, b) == SignedScores(table, levels, n, quantileOf, a)
  {
    if a < b {
      SignedScoresStop(table, levels, n, quantileOf, a, b - 1);
    }
  }

  /** Without conformalization the predictions are left as they are. */
  lemma ScoreAdjustmentsOff(n: nat, scores: seq<real>)
    ensures forall i :: 0 <= i < n ==> ScoreAdjustments(n, false, scores)[i] == 0.0
  {
  }

  /** With conformalization and an even count, non-negative score quantiles
      move the lower level of each pair down and the upper one up, so every
      level pair widens. */
  lemma ScoreAdjustmentsWiden(n: nat, scores: seq<real>, i: nat)
    requires |scores| == n && n % 2 == 0 && i < n / 2
    requires forall k :: 0 <= k < n ==> scores[k] >= 0.0
    ensures ScoreAdjustments(n, true, scores)[i] <= 0.0 <= ScoreAdjustments(n, true, scores)[n - 1 - i]
  {
    var r := ScoreAdjustments(n, true, scores);
    assert (n / 2) as real == (n as real) / 2.0;
    assert r[i] == -scores[i];
    assert r[n - 1 - i] == scores[n - 1 - i];
  }

  /** `predictions + adjustments` broadcast over the rows. */
  function AdjustRows(rows: seq<seq<real>>, adjustments: seq<real>): (r: seq<seq<real>>)
    requires Width(rows, |adjustments|)
    ensures |r| == |rows| && Width(r, |adjustments|)
    ensures forall i, j :: 0 <= i < |rows| && 0 <= j < |adjustments| ==> r[i][j] == rows[i][j] + adjustments[j]
  {
    seq(|rows|, i requires 0 <= i < |rows| =>
      seq(|adjustments|, j requires 0 <= j < |adjustments| => rows[i][j] + adjustments[j]))
  }

  /** The sampled lower bound of each row: the entry at the column drawn for
      it (`random.choice(range(n_quantiles))`). */
  function PickColumns(rows: seq<seq<real>>, picks: seq<nat>, n: nat): (r: seq<real>)
    requires Width(rows, n) && |picks| == |rows|
    requires forall i :: 0 <= i < |picks| ==> picks[i] < n
    ensures |r| == |rows| && forall i :: 0 <= i < |rows| ==> r[i] == rows[i][picks[i]]
  {
    seq(|rows|, i requires 0 <= i < |rows| && picks[i] < |rows[i]| => rows[i][picks[i]])
  }

  /** The lower-bound loop of the Thompson branches of `predict`: one draw
      per row. */
  method PickLowerBounds(rows: seq<seq<real>>, picks: seq<nat>, n: nat) returns (lower: seq<real>)
    requires Width(rows, n) && |picks| == |rows|
    requires forall i :: 0 <= i < |picks| ==> picks[i] < n
    ensures lower == PickColumns(rows, picks, n)
  {
    lower := [];
    var i := 0;
    while i < |rows|
      invariant 0 <= i <= |rows| && |lower| == i
      invariant forall k :: 0 <= k < i ==> lower[k] == rows[k][picks[k]]
    {
      lower := lower + [rows[i][picks[i]]];
      i := i + 1;
    }
  }

  // ---------------------------------------------------------------------------
  // Breaches

  /** 0 when the observed performance lies in `[lo, hi]`, else 1. */
  function Breach(lo: real, hi: real, y: real): int
  {
    if lo <= y <= hi then 0 else 1
  }

  /** A breach is exactly a positive quantile score: the point lies outside
      the interval. */
  lemma BreachIsPositiveScore(lo: real, hi: real, y: real)
    ensures Breach(lo, hi, y) == 0 || Breach(lo, hi, y) == 1
    ensures Breach(lo, hi, y) == 0 <==> QuantileScore(lo, hi, y) <= 0.0
  {
    QuantileScoreCoverage(lo, hi, y, 0.0);
  }

  /** One breach per interval, in order. */
  function Breaches(qs: seq<QuantileInterval>, y: real): (r: seq<int>)
    ensures |r| == |qs|
  {
    seq(|qs|, i requires 0 <= i < |qs| => Breach(qs[i].lower, qs[i].upper, y))
  }

  /** The breach loop of the Thompson branch of `update_interval_width`. */
  method CollectBreaches(qs: seq<QuantileInterval>, y: real) returns (b: seq<int>)
    ensures b == Breaches(qs, y)
  {
    b := [];
    var i := 0;
    while i < |qs|
      invariant 0 <= i <= |qs| && |b| == i
      invariant forall k :: 0 <= k < i ==> b[k] == Breach(qs[k].lower, qs[k].upper, y)
    {
      var breach := if qs[i].lower <= y <= qs[i].upper then 0 else 1;
      b := b + [breach];
      i := i + 1;
    }
  }

  /** On nested intervals, outermost first, a point missed by an interval is
      missed by every interval inside it: the breaches never decrease. */
  lemma BreachesMonotone(qs: seq<QuantileInterval>, y: real)
    requires Nested(qs)
    ensures forall i, j :: 0 <= i <= j < |qs| ==> Breaches(qs, y)[i] <= Breaches(qs, y)[j]
  {
    var b := Breaches(qs, y);
    forall i, j | 0 <= i <= j < |qs| ensures b[i] <= b[j] {
      assert qs[i].lower <= qs[j].lower && qs[j].upper <= qs[i].upper;
    }
  }

  /** The Thompson update's breaches for a prediction row: the row sorted
      and paired ends inwards, one breach per pair. */
  lemma ThompsonRowBreaches(row: seq<real>, y: real)
    ensures |Breaches(PairUp(Sort(row)), y)| == |row| / 2
    ensures forall i, j :: 0 <= i <= j < |row| / 2 ==>
      Breaches(PairUp(Sort(row)), y)[i] <= Breaches(PairUp(Sort(row)), y)[j]
  {
    SortFacts(row);
    PairUpNested(Sort(row));
    BreachesMonotone(PairUp(Sort(row)), y);
  }
}
