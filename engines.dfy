/** The two conformal searchers: each holds a sampler, fits nonconformity
    scores on a validation split, turns the estimators' predictions into
    conformal bounds, and feeds the breach of an observed performance back
    to its sampler. The estimators themselves are outside the model: their
    predictions arrive as rows of numbers, one column per fitted level. */
module Engines {
  import opened Common
  import opened RealSeq
  import opened Intervals
  import opened Controllers
  import opened Samplers
  import opened Conformal

  /** The sampler a searcher was built with. */
  datatype Sampler = UcbChoice(ucb: UcbSampler) | ThompsonChoice(thompson: ThompsonSampler)
  {
    ghost function Repr(): set<object>
    {
      match this
      case UcbChoice(s) => s.Repr()
      case ThompsonChoice(s) => s.Repr()
    }

    ghost predicate Valid()
      reads Repr()
    {
      match this
      case UcbChoice(s) => s.Valid()
      case ThompsonChoice(s) => s.Valid()
    }
  }

  /** `range(n)` has `max(n, 0)` elements. */
  function Count(n: int): (r: nat)
    ensures n >= 0 ==> r == n
    ensures n < 0 ==> r == 0
  {
    if n > 0 then n else 0
  }

  /** The UCB levels fitted by the quantile estimator: the interval's two ends
      with the median inserted between them. */
  function UcbLevels(q: QuantileInterval): (r: seq<real>)
    ensures |r| == 3
  {
    [q.lower, 0.5, q.upper]
  }

  /** For a miscoverage level in [0, 1] the three levels are ascending and
      symmetric about the median. */
  lemma UcbLevelsSorted(alpha: real)
    requires 0.0 <= alpha <= 1.0
    ensures var p := SymmetricPair(alpha);
      && Sorted(UcbLevels(QuantileInterval(p[0], p[1])))
      && UcbLevels(QuantileInterval(p[0], p[1]))[0] + UcbLevels(QuantileInterval(p[0], p[1]))[2] == 1.0
  {
    var p := SymmetricPair(alpha);
    var l := UcbLevels(QuantileInterval(p[0], p[1]));
    assert l[0] <= l[1] <= l[2];
  }

  /** The score quantile the UCB branch of `predict` widens by: 0 when not
      conformalized, else the quantile of the scores under key 0 at the lower
      level. */
  function UcbScoreQuantile(conformalize: bool, table: Option<map<int, seq<real>>>, lowerLevel: real,
                            quantileOf: (seq<real>, real) -> real): (r: Result<real>)
    ensures !conformalize ==> r == Ok(0.0)
    ensures conformalize && table.None? ==> r == Err(MissingAttribute)
    ensures conformalize && table.Some? ==>
      (r.Ok? <==> 0 in table.value) && (r.Ok? ==> r.value == quantileOf(table.value[0], lowerLevel))
  {
    if !conformalize then Ok(0.0)
    else if table.None? then Err(MissingAttribute)
    else if 0 !in table.value then Err(MissingKey)
    else Ok(quantileOf(table.value[0], lowerLevel))
  }

  /** The adjustment row of the Thompson branch of `predict`: zeros when not
      conformalized, else the signed score quantiles of the `n` levels. */
  function ThompsonAdjustments(conformalize: bool, table: map<int, seq<real>>, levels: seq<real>, n: nat,
                               quantileOf: (seq<real>, real) -> real): (r: Result<seq<real>>)
    ensures r.Ok? ==> |r.value| == n
    ensures !conformalize ==> r == Ok(ScoreAdjustments(n, false, []))
    ensures conformalize && Covered(table, levels, n) ==>
      r == Ok(ScoreAdjustments(n, true, RawScores(table, levels, n, quantileOf)))
  {
    if conformalize then
      if Covered(table, levels, n) then
        SignedScoresAreAdjustments(table, levels, n, quantileOf);
        SignedScores(table, levels, n, quantileOf, n)
      else SignedScores(table, levels, n, quantileOf, n)
    else Ok(ScoreAdjustments(n, false, []))
  }

  /** The Thompson branch of the level list `fit` records:
      `fetch_quantiles().to_flattened_list()`, the sampler's own sorted
      levels. */
  method FittedLevels(ts: ThompsonSampler) returns (levels: seq<real>)
    requires ts.Valid()
    ensures ts.Valid() && levels == ts.quantiles
  {
    var sequence := ts.FetchQuantiles();
    // the value `ToFlattenedList` returns for a sequence that holds intervals
    levels := Sort(Flatten(sequence.intervals.value));
  }

  /** What the Thompson branch of `predict` produces: the adjusted
      predictions, once formed, and the drawn lower bounds or the error. */
  datatype Prediction = Prediction(adjusted: Option<seq<seq<real>>>, lower: Result<seq<real>>)

  /** The Thompson branch of `QuantileConformalRegression.predict` on
      predictions with `w` columns: the adjustment row (a missing score list
      or level raises), added to every row when it has one entry per column
      (else the shapes do not broadcast), then one draw per row, which
      `random.choice` cannot make from an empty range. */
  function ThompsonPrediction(conformalize: bool, table: map<int, seq<real>>, levels: seq<real>, nQuantiles: int,
                              w: nat, predictions: seq<seq<real>>, picks: seq<nat>,
                              quantileOf: (seq<real>, real) -> real): (p: Prediction)
    requires Width(predictions, w) && |picks| == |predictions|
    requires forall i :: 0 <= i < |picks| ==> picks[i] < Count(nQuantiles) || Count(nQuantiles) == 0
    ensures p.lower.Ok? ==> p.adjusted.Some? && |p.lower.value| == |predictions|
  {
    var n := Count(nQuantiles);
    var adj := ThompsonAdjustments(conformalize, table, levels, n, quantileOf);
    if adj.Err? then Prediction(None, Err(adj.error))
    else if w != n then Prediction(None, Err(ShapeMismatch))
    else
      var adjusted := AdjustRows(predictions, adj.value);
      if n == 0 && |predictions| > 0 then Prediction(Some(adjusted), Err(IndexOutOfRange))
      else Prediction(Some(adjusted), Ok(PickColumns(adjusted, picks, n)))
  }

  /** Without conformalization the predictions are kept as they are; with
      it, for an even level count whose score lists and levels are all
      present and whose score quantiles are non-negative, each level pair
      `(i, n - 1 - i)` of every row is pushed apart. */
  lemma ThompsonPredictionWidens(conformalize: bool, table: map<int, seq<real>>, levels: seq<real>, nQuantiles: int,
                                 w: nat, predictions: seq<seq<real>>, picks: seq<nat>,
                                 quantileOf: (seq<real>, real) -> real, row: nat, i: nat)
    requires Width(predictions, w) && |picks| == |predictions|
    requires forall k :: 0 <= k < |picks| ==> picks[k] < Count(nQuantiles) || Count(nQuantiles) == 0
    requires w == Count(nQuantiles) && row < |predictions|
    ensures !conformalize ==>
      ThompsonPrediction(conformalize, table, levels, nQuantiles, w, predictions, picks, quantileOf).adjusted == Some(predictions)
    ensures conformalize && w % 2 == 0 && i < w / 2 && Covered(table, levels, w) &&
            (forall k :: 0 <= k < w ==> RawScores(table, levels, w, quantileOf)[k] >= 0.0) ==>
      var adjusted := ThompsonPrediction(conformalize, table, levels, nQuantiles, w, predictions, picks, quantileOf).adjusted;
      && adjusted.Some?
      && adjusted.value[row][i] <= predictions[row][i]
      && predictions[row][w - 1 - i] <= adjusted.value[row][w - 1 - i]
  {
    var n := w;
    if !conformalize {
      var adjusted := AdjustRows(predictions, ScoreAdjustments(n, false, []));
      ScoreAdjustmentsOff(n, []);
      forall k | 0 <= k < |predictions| ensures adjusted[k] == predictions[k] {
        assert |adjusted[k]| == |predictions[k]| == n;
      }
      assert adjusted == predictions;
    } else if w % 2 == 0 && i < w / 2 && Covered(table, levels, w) &&
              (forall k :: 0 <= k < w ==> RawScores(table, levels, w, quantileOf)[k] >= 0.0) {
      var raw := RawScores(table, levels, n, quantileOf);
      ScoreAdjustmentsWiden(n, raw, i);
    }
  }

  /** The Thompson branch of `predict`, computed: the score-quantile loop,
      then the draw loop. */
  method ComputeThompsonPrediction(conformalize: bool, table: map<int, seq<real>>, levels: seq<real>, nQuantiles: int,
                                   w: nat, predictions: seq<seq<real>>, picks: seq<nat>,
                                   quantileOf: (seq<real>, real) -> real) returns (p: Prediction)
    requires Width(predictions, w) && |picks| == |predictions|
    requires forall i :: 0 <= i < |picks| ==> picks[i] < Count(nQuantiles) || Count(nQuantiles) == 0
    ensures p == ThompsonPrediction(conformalize, table, levels, nQuantiles, w, predictions, picks, quantileOf)
  {
    var n := Count(nQuantiles);
    var adj: Result<seq<real>>;
    if conformalize {
      // `fetch_quantiles().to_flattened_list()` is the sampler's level
      // list, which it keeps sorted.
      adj := ComputeSignedScores(table, levels, n, quantileOf);
    } else {
      adj := Ok(ScoreAdjustments(n, false, []));
    }
    if adj.Err? {
      return Prediction(None, Err(adj.error));
    }
    if w != n {
      return Prediction(None, Err(ShapeMismatch));
    }
    var adjusted := AdjustRows(predictions, adj.value);
    if n == 0 && |predictions| > 0 {
      return Prediction(Some(adjusted), Err(IndexOutOfRange));
    }
    var lower := PickLowerBounds(adjusted, picks, n);
    p := Prediction(Some(adjusted), Ok(lower));
  }

  /** The breaches of the Thompson branch of `update_interval_width`: the
      sampled row is copied into a list, sorted and paired ends inwards by
      `from_flattened_list`, and each pair's breach collected. */
  method RowBreaches(row: seq<real>, performance: real) returns (breaches: seq<int>)
    ensures breaches == Breaches(PairUp(Sort(row)), performance)
  {
    var list := new real[|row|](i requires 0 <= i < |row| => row[i]);
    assert list[..] == row;
    var empty := new QuantileIntervalSequence(None);
    var sequence := empty.FromFlattenedList(list);
    breaches := CollectBreaches(sequence.intervals.value, performance);
  }

  // ---------------------------------------------------------------------------

  /** `QuantileConformalRegression`: quantile estimators whose intervals are
      widened by conformal score quantiles once enough data has been seen. */
  class QuantileConformalRegression {
    const sampler: Sampler
    const nPreConformalTrials: int
    /** The levels the estimator is fitted at; absent before `fit`. */
    var quantiles: Option<seq<real>>
    var conformalize: Option<bool>
    var indexedScores: Option<map<int, seq<real>>>
    var lowerIntervalBound: Option<seq<real>>
    var upperIntervalBound: Option<seq<real>>
    var adjustedPredictions: Option<seq<seq<real>>>

    ghost function Repr(): set<object>
    {
      {this} + sampler.Repr()
    }

    ghost predicate Valid()
      reads Repr()
    {
      && sampler.Valid() && this !in sampler.Repr()
      && (sampler.UcbChoice? && quantiles.Some? ==> |quantiles.value| == 3)
      && (conformalize.Some? ==> quantiles.Some?)
      && (conformalize == Some(true) ==> indexedScores.Some?)
    }

    constructor (sampler: Sampler, nPreConformalTrials: int)
      requires sampler.Valid()
      ensures Valid()
      ensures this.sampler == sampler && this.nPreConformalTrials == nPreConformalTrials
      ensures quantiles.None? && conformalize.None? && indexedScores.None?
      ensures lowerIntervalBound.None? && upperIntervalBound.None? && adjustedPredictions.None?
    {
      this.sampler := sampler;
      this.nPreConformalTrials := nPreConformalTrials;
      quantiles := None;
      conformalize := None;
      indexedScores := None;
      lowerIntervalBound := None;
      upperIntervalBound := None;
      adjustedPredictions := None;
    }

    /** `fit` for the UCB sampler: records the interval's levels with the
        median between them and, when the training and validation sets
        together exceed the pre-conformal trial count, the validation scores
        against the outer prediction columns (`valPredictions` are the
        estimator's predictions on the validation set). Below the gate the
        scores are left as they were and predictions are not conformalized. */
    method FitUcb(nTrain: nat, nVal: nat, valPredictions: seq<seq<real>>, yVal: seq<real>)
      requires Valid() && sampler.UcbChoice?
      requires |valPredictions| == |yVal| && Width(valPredictions, 3)
      modifies this
      ensures Valid()
      ensures lowerIntervalBound == old(lowerIntervalBound) && upperIntervalBound == old(upperIntervalBound)
      ensures adjustedPredictions == old(adjustedPredictions)
      ensures quantiles == Some(UcbLevels(sampler.ucb.FetchQuantiles()))
      ensures Conformalize(nTrain, nVal, nPreConformalTrials) ==>
        conformalize == Some(true) && indexedScores == Some(UcbIndexedScores(valPredictions, yVal, 3))
      ensures !Conformalize(nTrain, nVal, nPreConformalTrials) ==>
        conformalize == Some(false) && indexedScores == old(indexedScores)
    {
      quantiles := Some(UcbLevels(sampler.ucb.FetchQuantiles()));
      if Conformalize(nTrain, nVal, nPreConformalTrials) {
        indexedScores := Some(UcbIndexedScores(valPredictions, yVal, 3));
        conformalize := Some(true);
      } else {
        conformalize := Some(false);
      }
    }

    /** `fit` for the Thompson sampler: records the sampler's sorted levels
        and, above the gate, the score table of the level pairs; a pair
        whose upper column is outside the predictions stops the loop with
        the scores stored so far. Below the gate the scores are left as they
        were and predictions are not conformalized. */
    method FitThompson(nTrain: nat, nVal: nat, valPredictions: seq<seq<real>>, yVal: seq<real>) returns (e: Option<Error>)
      requires Valid() && sampler.ThompsonChoice?
      requires |valPredictions| == |yVal| && Width(valPredictions, |sampler.thompson.quantiles|)
      modifies this
      ensures Valid()
      ensures lowerIntervalBound == old(lowerIntervalBound) && upperIntervalBound == old(upperIntervalBound)
      ensures adjustedPredictions == old(adjustedPredictions)
      ensures quantiles == Some(sampler.thompson.quantiles)
      ensures Conformalize(nTrain, nVal, nPreConformalTrials) ==>
        var w := |sampler.thompson.quantiles|;
        var t := PairTable(valPredictions, yVal, w, sampler.thompson.nQuantiles, w / 2);
        && indexedScores == Some(t.scores)
        && e == t.error
        && conformalize == (if t.error.None? then Some(true) else old(conformalize))
      ensures !Conformalize(nTrain, nVal, nPreConformalTrials) ==>
        e.None? && conformalize == Some(false) && indexedScores == old(indexedScores)
    {
      var table := ScoreTable(map[], None);
      if Conformalize(nTrain, nVal, nPreConformalTrials) {
        table := ThompsonIndexedScores(valPredictions, yVal, |sampler.thompson.quantiles|, sampler.thompson.nQuantiles);
      }
      var levels := FittedLevels(sampler.thompson);
      assert sampler.Valid();
      quantiles := Some(levels);
      e := None;
      if Conformalize(nTrain, nVal, nPreConformalTrials) {
        indexedScores := Some(table.scores);
        if table.error.Some? {
          return table.error;
        }
        conformalize := Some(true);
      } else {
        conformalize := Some(false);
      }
    }

    /** `predict` for the UCB sampler: the interval of each row widened by the
        score quantile, and the exploration bound returned; then one
        exploration step. */
    method PredictUcb(predictions: seq<seq<real>>, quantileOf: (seq<real>, real) -> real, ln: real -> real)
      returns (r: Result<seq<real>>)
      requires Valid() && sampler.UcbChoice?
      requires quantiles.Some? ==> Width(predictions, 3)
      modifies this, sampler.ucb
      ensures Valid()
      ensures quantiles == old(quantiles) && conformalize == old(conformalize) && indexedScores == old(indexedScores)
      ensures adjustedPredictions == old(adjustedPredictions)
      ensures old(conformalize).None? ==> r == Err(MissingAttribute) && unchanged(this, sampler.ucb)
      ensures old(conformalize).Some? ==>
        var sq := UcbScoreQuantile(old(conformalize).value, old(indexedScores), old(sampler.ucb.FetchQuantiles().lower), quantileOf);
        && (sq.Err? ==> r == Err(sq.error) && unchanged(this, sampler.ucb))
        && (sq.Ok? ==>
              var band := QcrUcbBand(predictions, sq.value, old(sampler.ucb.beta));
              && r == Ok(band.bound)
              && lowerIntervalBound == Some(band.lower) && upperIntervalBound == Some(band.upper)
              && sampler.ucb.t == old(sampler.ucb.t) + 1
              && sampler.ucb.beta == NextBeta(sampler.ucb.betaDecay, sampler.ucb.c, old(sampler.ucb.t), ln)
              && sampler.ucb.alpha == old(sampler.ucb.alpha))
    {
      if conformalize.None? {
        return Err(MissingAttribute);
      }
      var ucb := sampler.ucb;
      var sq := UcbScoreQuantile(conformalize.value, indexedScores, ucb.FetchQuantiles().lower, quantileOf);
      if sq.Err? {
        return Err(sq.error);
      }
      var band := QcrUcbBand(predictions, sq.value, ucb.beta);
      lowerIntervalBound := Some(band.lower);
      upperIntervalBound := Some(band.upper);
      ucb.UpdateExplorationStep(ln);
      r := Ok(band.bound);
    }

    /** `predict` for the Thompson sampler: `ThompsonPrediction` of the
        stored scores and the sampler's levels; the adjusted predictions are
        kept once they have been formed. */
    method PredictThompson(predictions: seq<seq<real>>, quantileOf: (seq<real>, real) -> real, picks: seq<nat>)
      returns (r: Result<seq<real>>)
      requires Valid() && sampler.ThompsonChoice?
      requires quantiles.Some? ==> Width(predictions, |quantiles.value|)
      requires |picks| == |predictions|
      requires forall i :: 0 <= i < |picks| ==> picks[i] < Count(sampler.thompson.nQuantiles) || Count(sampler.thompson.nQuantiles) == 0
      modifies this
      ensures Valid()
      ensures quantiles == old(quantiles) && conformalize == old(conformalize) && indexedScores == old(indexedScores)
      ensures lowerIntervalBound == old(lowerIntervalBound) && upperIntervalBound == old(upperIntervalBound)
      ensures conformalize.None? ==> r == Err(MissingAttribute) && adjustedPredictions == old(adjustedPredictions)
      ensures conformalize.Some? ==>
        var p := ThompsonPrediction(conformalize.value, if indexedScores.Some? then indexedScores.value else map[],
                                    sampler.thompson.quantiles, sampler.thompson.nQuantiles, |quantiles.value|,
                                    predictions, picks, quantileOf);
        && r == p.lower
        && adjustedPredictions == (if p.adjusted.Some? then p.adjusted else old(adjustedPredictions))
    {
      if conformalize.None? {
        return Err(MissingAttribute);
      }
      var ts := sampler.thompson;
      var table := if indexedScores.Some? then indexedScores.value else map[];
      var p := ComputeThompsonPrediction(conformalize.value, table, ts.quantiles, ts.nQuantiles,
                                         |quantiles.value|, predictions, picks, quantileOf);
      assert sampler.Valid();
      if p.adjusted.Some? {
        adjustedPredictions := p.adjusted;
      }
      r := p.lower;
    }

    /** `update_interval_width` for the UCB sampler: the breach of the
        observed performance against the stored interval of the sampled row
        goes to the sampler; `fed` is the breach passed on, if any. */
    method UpdateUcb(sampledIdx: int, performance: real, exp: real -> real) returns (e: Option<Error>, ghost fed: seq<int>)
      requires Valid() && sampler.UcbChoice?
      requires forall x :: exp(x) > 0.0
      modifies sampler.Repr()
      ensures Valid()
      ensures sampler.ucb.adapter.Some? ==> sampler.ucb.adapter.value.Fits(old(sampler.ucb.adapter.value.State()))
      ensures lowerIntervalBound.None? || upperIntervalBound.None? ==>
        e == Some(MissingAttribute) && fed == [] && unchanged(sampler.Repr())
      ensures lowerIntervalBound.Some? && upperIntervalBound.Some? ==>
        var lo := PyIndex(lowerIntervalBound.value, sampledIdx);
        var hi := PyIndex(upperIntervalBound.value, sampledIdx);
        && (lo.Err? || hi.Err? ==> e == Some(IndexOutOfRange) && fed == [] && unchanged(sampler.Repr()))
        && (lo.Ok? && hi.Ok? ==> fed == [Breach(lo.value, hi.value, performance)])
      ensures |fed| == 1 && sampler.ucb.adapter.None? ==> e == Some(MissingAttribute)
      ensures |fed| == 1 && sampler.ucb.adapter.Some? ==>
        var step := AdapterStep(sampler.ucb.adapter.value, old(sampler.ucb.adapter.value.State()), fed[0], exp);
        && sampler.ucb.adapter.value.State() == step.state
        && (step.output.Err? ==> e == Some(step.output.error) && sampler.ucb.alpha == old(sampler.ucb.alpha))
        && (step.output.Ok? ==> e == None && sampler.ucb.alpha == step.output.value)
    {
      var ucb := sampler.ucb;
      if ucb.adapter.Some? {
        ValidFits(ucb.adapter.value);
      }
      fed := [];
      if lowerIntervalBound.None? || upperIntervalBound.None? {
        return Some(MissingAttribute), fed;
      }
      var lo := PyIndex(lowerIntervalBound.value, sampledIdx);
      var hi := PyIndex(upperIntervalBound.value, sampledIdx);
      if lo.Err? || hi.Err? {
        return Some(IndexOutOfRange), fed;
      }
      var breach := if lo.value <= performance <= hi.value then 0 else 1;
      fed := [breach];
      e := ucb.UpdateIntervalWidth(breach, exp);
    }

    /** `update_interval_width` for the Thompson sampler: the sampled row of
        adjusted predictions is sorted, paired ends inwards, and the breach
        of each pair goes to the sampler. */
    method UpdateThompson(sampledIdx: int, performance: real, exp: real -> real)
      returns (e: Option<Error>, ghost fed: seq<int>, ghost failedAt: nat)
      requires Valid() && sampler.ThompsonChoice?
      requires forall x :: exp(x) > 0.0
      modifies sampler.Repr()
      ensures Valid()
      ensures adjustedPredictions.None? ==> e == Some(MissingAttribute) && unchanged(sampler.Repr())
      ensures adjustedPredictions.Some? ==>
        var row := PyIndex(adjustedPredictions.value, sampledIdx);
        && (row.Err? ==> e == Some(IndexOutOfRange) && unchanged(sampler.Repr()))
        && (row.Ok? ==> fed == Breaches(PairUp(Sort(row.value)), performance))
        && (row.Ok? && sampler.thompson.adapters.None? ==> e == Some(MissingAttribute))
        && (row.Ok? && sampler.thompson.adapters.Some? ==>
              var a := sampler.thompson.adapters.value;
              StepsSpec(a, old(States(a)), States(a), fed, exp, e, failedAt, sampler.thompson.alphas))
        && (row.Ok? && e.None? ==> sampler.thompson.quantiles == Sort(Levels(sampler.thompson.alphas)))
    {
      fed := [];
      failedAt := 0;
      if adjustedPredictions.None? {
        return Some(MissingAttribute), fed, failedAt;
      }
      var row := PyIndex(adjustedPredictions.value, sampledIdx);
      if row.Err? {
        return Some(IndexOutOfRange), fed, failedAt;
      }
      var breaches := RowBreaches(row.value, performance);
      assert sampler.thompson.Valid();
      assert sampler.thompson.adapters.Some? ==>
        States(sampler.thompson.adapters.value) == old(States(sampler.thompson.adapters.value));
      fed := breaches;
      e, failedAt := sampler.thompson.UpdateIntervalWidth(breaches, exp);
      assert sampler.Valid();
    }
  }

  // ---------------------------------------------------------------------------

  /** `LocallyWeightedConformalSearcher`: a point estimator and a spread
      estimator whose normalised validation residuals set the band width. */
  class LocallyWeightedConformalSearcher {
    const sampler: Sampler
    var scores: Option<seq<real>>
    var adjustedPredictions: Option<seq<seq<real>>>

    ghost function Repr(): set<object>
    {
      {this} + sampler.Repr()
    }

    ghost predicate Valid()
      reads Repr()
    {
      && sampler.Valid() && this !in sampler.Repr()
      && (sampler.UcbChoice? && adjustedPredictions.Some? ==> Width(adjustedPredictions.value, 2))
    }

    constructor (sampler: Sampler)
      requires sampler.Valid()
      ensures Valid() && this.sampler == sampler
      ensures scores.None? && adjustedPredictions.None?
    {
      this.sampler := sampler;
      scores := None;
      adjustedPredictions := None;
    }

    /** `fit`: the nonconformity scores of the validation set, from the point
        and spread predictions on it. */
    method Fit(yVal: seq<real>, pointVal: seq<real>, spreadVal: seq<real>)
      requires Valid()
      requires |pointVal| == |yVal| && |spreadVal| == |yVal|
      modifies this
      ensures Valid()
      ensures scores == Some(LwScores(yVal, pointVal, spreadVal))
      ensures adjustedPredictions == old(adjustedPredictions)
    {
      scores := Some(LwScores(yVal, pointVal, spreadVal));
    }

    /** `predict` for the UCB sampler, with the two bounds as columns: the
        lower column is returned, then one exploration step is taken. */
    method PredictUcb(yPred: seq<real>, spread: seq<real>, quantileOf: (seq<real>, real) -> real, ln: real -> real)
      returns (r: Result<seq<real>>)
      requires Valid() && sampler.UcbChoice?
      requires |spread| == |yPred|
      modifies this, sampler.ucb
      ensures Valid()
      ensures scores == old(scores)
      ensures old(scores).None? ==> r == Err(MissingAttribute) && unchanged(this, sampler.ucb)
      ensures old(scores).Some? ==>
        var rows := LwUcbRows(yPred, spread, quantileOf(old(scores).value, old(sampler.ucb.alpha)), old(sampler.ucb.beta));
        && adjustedPredictions == Some(rows)
        && r == Ok(Column(rows, 0))
        && sampler.ucb.t == old(sampler.ucb.t) + 1
        && sampler.ucb.beta == NextBeta(sampler.ucb.betaDecay, sampler.ucb.c, old(sampler.ucb.t), ln)
    {
      if scores.None? {
        return Err(MissingAttribute);
      }
      var ucb := sampler.ucb;
      var rows := LwUcbRows(yPred, spread, quantileOf(scores.value, ucb.alpha), ucb.beta);
      adjustedPredictions := Some(rows);
      ucb.UpdateExplorationStep(ln);
      r := Ok(Column(rows, 0));
    }

    /** `predict` for the Thompson sampler, with each alpha's two bounds as
        a pair of columns; one column is drawn per row. */
    method PredictThompson(yPred: seq<real>, spread: seq<real>, quantileOf: (seq<real>, real) -> real, picks: seq<nat>)
      returns (r: Result<seq<real>>)
      requires Valid() && sampler.ThompsonChoice?
      requires |spread| == |yPred| && |picks| == |yPred|
      requires forall i :: 0 <= i < |picks| ==> picks[i] < Count(sampler.thompson.nQuantiles) || Count(sampler.thompson.nQuantiles) == 0
      modifies this
      ensures Valid()
      ensures scores == old(scores)
      ensures scores.None? ==> r == Err(MissingAttribute) && adjustedPredictions == old(adjustedPredictions)
      ensures scores.Some? ==>
        var alphas := sampler.thompson.alphas;
        var fitted := scores.value;
        var sqs := seq(|alphas|, k requires 0 <= k < |alphas| => quantileOf(fitted, alphas[k]));
        var rows := LwThompsonRows(yPred, spread, sqs);
        var w := 2 * |alphas|;
        && adjustedPredictions == Some(rows)
        && (r.Ok? <==> |yPred| == 0 || (Count(sampler.thompson.nQuantiles) > 0 && forall i :: 0 <= i < |picks| ==> picks[i] < w))
        && (r.Ok? ==> r == Ok(PickColumns(rows, picks, w)))
        && (r.Err? ==> r.error == IndexOutOfRange)
    {
      if scores.None? {
        return Err(MissingAttribute);
      }
      var ts := sampler.thompson;
      var alphas := ts.alphas;
      var fitted := scores.value;
      var sqs := seq(|alphas|, k requires 0 <= k < |alphas| => quantileOf(fitted, alphas[k]));
      var rows := LwThompsonRows(yPred, spread, sqs);
      adjustedPredictions := Some(rows);
      var w := 2 * |alphas|;
      if |yPred| > 0 && Count(ts.nQuantiles) == 0 {
        return Err(IndexOutOfRange);
      }
      if exists i :: 0 <= i < |picks| && picks[i] >= w {
        return Err(IndexOutOfRange);
      }
      var lower := PickLowerBounds(rows, picks, w);
      r := Ok(lower);
    }

    /** `update_interval_width` for the UCB sampler: the breach of the
        observed performance against the sampled row's band goes to the
        sampler; `fed` is the breach passed on, if any. */
    method UpdateUcb(sampledIdx: int, performance: real, exp: real -> real) returns (e: Option<Error>, ghost fed: seq<int>)
      requires Valid() && sampler.UcbChoice?
      requires forall x :: exp(x) > 0.0
      modifies sampler.Repr()
      ensures Valid()
      ensures sampler.ucb.adapter.Some? ==> sampler.ucb.adapter.value.Fits(old(sampler.ucb.adapter.value.State()))
      ensures adjustedPredictions.None? ==> e == Some(MissingAttribute) && fed == [] && unchanged(sampler.Repr())
      ensures adjustedPredictions.Some? ==>
        var row := PyIndex(adjustedPredictions.value, sampledIdx);
        && (row.Err? ==> e == Some(IndexOutOfRange) && fed == [] && unchanged(sampler.Repr()))
        && (row.Ok? ==> |row.value| == 2 && fed == [Breach(row.value[0], row.value[1], performance)])
      ensures |fed| == 1 && sampler.ucb.adapter.None? ==> e == Some(MissingAttribute)
      ensures |fed| == 1 && sampler.ucb.adapter.Some? ==>
        var step := AdapterStep(sampler.ucb.adapter.value, old(sampler.ucb.adapter.value.State()), fed[0], exp);
        && sampler.ucb.adapter.value.State() == step.state
        && (step.output.Err? ==> e == Some(step.output.error) && sampler.ucb.alpha == old(sampler.ucb.alpha))
        && (step.output.Ok? ==> e == None && sampler.ucb.alpha == step.output.value)
    {
      var ucb := sampler.ucb;
      if ucb.adapter.Some? {
        ValidFits(ucb.adapter.value);
      }
      fed := [];
      if adjustedPredictions.None? {
        return Some(MissingAttribute), fed;
      }
      var row := PyIndex(adjustedPredictions.value, sampledIdx);
      if row.Err? {
        return Some(IndexOutOfRange), fed;
      }
      var breach := if row.value[0] <= performance <= row.value[1] then 0 else 1;
      fed := [breach];
      e := ucb.UpdateIntervalWidth(breach, exp);
    }

    /** `update_interval_width` for the Thompson sampler reads the sampled
        row and goes no further: the sampler is not updated. */
    method UpdateThompson(sampledIdx: int, performance: real) returns (e: Option<Error>)
      requires Valid() && sampler.ThompsonChoice?
      ensures adjustedPredictions.None? ==> e == Some(MissingAttribute)
      ensures adjustedPredictions.Some? ==>
        (e.None? <==> -|adjustedPredictions.value| <= sampledIdx < |adjustedPredictions.value|)
      ensures e.Some? ==> e == Some(MissingAttribute) || e == Some(IndexOutOfRange)
    {
      if adjustedPredictions.None? {
        return Some(MissingAttribute);
      }
      var row := PyIndex(adjustedPredictions.value, sampledIdx);
      if row.Err? {
        return Some(IndexOutOfRange);
      }
      e := None;
    }
  }
}
