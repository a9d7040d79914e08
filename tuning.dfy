/** Hyperparameter selection around the search estimators: scores gathered
    fold by fold, averaged per distinct configuration, and the first
    configuration of least average score picked among the sampled
    candidates and the default one. Configurations are compared only for
    equality, so they are a type parameter. */
module Tuning {
  import opened Common

  // ---------------------------------------------------------------------------
  // List primitives

  /** `s.index(x)`: the first position holding `x`. */
  function IndexOf<T(==)>(s: seq<T>, x: T): (r: nat)
    requires x in s
    ensures r < |s| && s[r] == x
    ensures forall k :: 0 <= k < r ==> s[k] != x
  {
    if s[0] == x then 0 else 1 + IndexOf(s[1..], x)
  }

  /** A prefix that already holds `x` gives the same first position. */
  lemma {:induction false} IndexOfPrefix<T>(s: seq<T>, n: nat, x: T)
    requires n <= |s| && x in s[..n]
    ensures IndexOf(s, x) == IndexOf(s[..n], x)
  {
    var i := IndexOf(s[..n], x);
    assert s[i] == x;
    assert forall k :: 0 <= k < i ==> s[k] == s[..n][k];
  }

  /** `min(s)` of a non-empty list. */
  function MinOf(s: seq<real>): (r: real)
    requires |s| > 0
    ensures r in s
    ensures forall k :: 0 <= k < |s| ==> r <= s[k]
  {
    if |s| == 1 then s[0]
    else
      var m := MinOf(s[1..]);
      assert forall k :: 1 <= k < |s| ==> s[k] == s[1..][k - 1];
      if s[0] <= m then s[0] else m
  }

  // ---------------------------------------------------------------------------
  // Averaging across folds

  /** The distinct configurations, each where it first appears. */
  function Dedup<C(==)>(cs: seq<C>): (r: seq<C>)
    ensures |r| <= |cs|
  {
    if |cs| == 0 then []
    else
      var p := Dedup(cs[..|cs| - 1]);
      if cs[|cs| - 1] in p then p else p + [cs[|cs| - 1]]
  }

  /** Exactly the configurations of the input are kept. */
  lemma {:induction false} DedupMembers<C>(cs: seq<C>)
    ensures forall c :: c in Dedup(cs) <==> c in cs
  {
    if |cs| > 0 {
      var n := |cs| - 1;
      DedupMembers(cs[..n]);
      assert cs == cs[..n] + [cs[n]];
    }
  }

  /** No configuration is kept twice. */
  lemma {:induction false} DedupDistinct<C>(cs: seq<C>)
    ensures forall j, k :: 0 <= j < k < |Dedup(cs)| ==> Dedup(cs)[j] != Dedup(cs)[k]
  {
    if |cs| > 0 {
      var n := |cs| - 1;
      DedupDistinct(cs[..n]);
    }
  }

  /** How many entries of `cs` equal `c`. */
  function CountFor<C(==)>(cs: seq<C>, c: C): nat
  {
    if |cs| == 0 then 0
    else CountFor(cs[..|cs| - 1], c) + (if cs[|cs| - 1] == c then 1 else 0)
  }

  /** The total of the scores paired with a configuration equal to `c`. */
  function SumFor<C(==)>(cs: seq<C>, scores: seq<real>, c: C): real
    requires |scores| == |cs|
  {
    if |cs| == 0 then 0.0
    else SumFor(cs[..|cs| - 1], scores[..|cs| - 1], c) + (if cs[|cs| - 1] == c then scores[|cs| - 1] else 0.0)
  }

  /** The average score of `c` over the pairs that name it (0 when none
      does). */
  function MeanFor<C(==)>(cs: seq<C>, scores: seq<real>, c: C): real
    requires |scores| == |cs|
  {
    var n := CountFor(cs, c);
    if n == 0 then 0.0 else SumFor(cs, scores, c) / n as real
  }

  /** The mean score of each distinct configuration, in `Dedup` order. */
  function Averages<C(==)>(cs: seq<C>, scores: seq<real>): (r: seq<real>)
    requires |scores| == |cs|
    ensures |r| == |Dedup(cs)|
  {
    var d := Dedup(cs);
    seq(|d|, j requires 0 <= j < |d| => MeanFor(cs, scores, d[j]))
  }

  /** A configuration that occurs is counted at least once. */
  lemma {:induction false} CountPositive<C>(cs: seq<C>, c: C)
    requires c in cs
    ensures CountFor(cs, c) >= 1
  {
    var n := |cs| - 1;
    if cs[n] != c {
      assert cs == cs[..n] + [cs[n]];
      CountPositive(cs[..n], c);
    }
  }

  /** A configuration that does not occur has no count and no total. */
  lemma {:induction false} AbsentCountsNothing<C>(cs: seq<C>, scores: seq<real>, c: C)
    requires |scores| == |cs| && c !in cs
    ensures CountFor(cs, c) == 0 && SumFor(cs, scores, c) == 0.0
  {
    if |cs| > 0 {
      var n := |cs| - 1;
      assert cs[..n] <= cs;
      AbsentCountsNothing(cs[..n], scores[..n], c);
    }
  }

  /** The distinct configurations keep the order of their first appearance. */
  lemma {:induction false} DedupFirstAppearance<C>(cs: seq<C>)
    ensures forall i :: 0 <= i < |Dedup(cs)| ==> Dedup(cs)[i] in cs
    ensures forall j, k :: 0 <= j < k < |Dedup(cs)| ==> IndexOf(cs, Dedup(cs)[j]) < IndexOf(cs, Dedup(cs)[k])
  {
    DedupMembers(cs);
    if |cs| > 0 {
      var n := |cs| - 1;
      var pre := cs[..n];
      var p := Dedup(pre);
      var r := Dedup(cs);
      DedupFirstAppearance(pre);
      DedupMembers(pre);
      forall j, k | 0 <= j < k < |r| ensures IndexOf(cs, r[j]) < IndexOf(cs, r[k]) {
        var x := r[j];
        assert x == p[j] && x in pre;
        IndexOfPrefix(cs, n, x);
        if k < |p| {
          var y := r[k];
          assert y == p[k] && y in pre;
          IndexOfPrefix(cs, n, y);
        } else {
          LastNewIndex(cs);
        }
      }
    }
  }

  /** A last entry that occurs nowhere before sits at its own first index. */
  lemma LastNewIndex<C>(cs: seq<C>)
    requires |cs| > 0 && cs[|cs| - 1] !in cs[..|cs| - 1]
    ensures IndexOf(cs, cs[|cs| - 1]) == |cs| - 1
  {
    var n := |cs| - 1;
    assert forall i :: 0 <= i < n ==> cs[i] == cs[..n][i];
  }

  /** A list without repeats is its own de-duplication. */
  lemma {:induction false} DedupOfDistinct<C>(cs: seq<C>)
    requires forall j, k :: 0 <= j < k < |cs| ==> cs[j] != cs[k]
    ensures Dedup(cs) == cs
  {
    if |cs| > 0 {
      var n := |cs| - 1;
      var pre := cs[..n];
      DedupOfDistinct(pre);
      assert cs[n] !in pre;
      assert cs == pre + [cs[n]];
    }
  }

  /** When no configuration repeats, every mean is the single score. */
  lemma {:induction false} DistinctAveragesUnchanged<C>(cs: seq<C>, scores: seq<real>)
    requires |scores| == |cs|
    requires forall j, k :: 0 <= j < k < |cs| ==> cs[j] != cs[k]
    ensures Dedup(cs) == cs
    ensures forall j :: 0 <= j < |cs| ==> MeanFor(cs, scores, cs[j]) == scores[j]
  {
    DedupOfDistinct(cs);
    if |cs| > 0 {
      var n := |cs| - 1;
      var pre := cs[..n];
      DistinctAveragesUnchanged(pre, scores[..n]);
      assert cs[n] !in pre;
      AbsentCountsNothing(pre, scores[..n], cs[n]);
      forall j | 0 <= j < n ensures MeanFor(cs, scores, cs[j]) == scores[j] {
        assert cs[j] == pre[j] && scores[j] == scores[..n][j];
        MeanForOther(cs, scores, cs[j]);
      }
    }
  }

  /** A last pair naming another configuration leaves its mean as it was. */
  lemma MeanForOther<C>(cs: seq<C>, scores: seq<real>, c: C)
    requires |scores| == |cs| > 0 && cs[|cs| - 1] != c
    ensures MeanFor(cs, scores, c) == MeanFor(cs[..|cs| - 1], scores[..|cs| - 1], c)
  {
  }

  /** A mean lies within any bounds that hold every score. */
  lemma {:induction false} SumForBounds<C>(cs: seq<C>, scores: seq<real>, c: C, lo: real, hi: real)
    requires |scores| == |cs|
    requires forall k :: 0 <= k < |scores| ==> lo <= scores[k] <= hi
    ensures lo * CountFor(cs, c) as real <= SumFor(cs, scores, c) <= hi * CountFor(cs, c) as real
  {
    if |cs| > 0 {
      var n := |cs| - 1;
      assert forall k :: 0 <= k < n ==> scores[..n][k] == scores[k];
      SumForBounds(cs[..n], scores[..n], c, lo, hi);
      if cs[n] == c {
        BoundStep(lo, hi, CountFor(cs[..n], c) as real, SumFor(cs[..n], scores[..n], c), scores[n]);
      }
    }
  }

  lemma BoundStep(lo: real, hi: real, k: real, sum: real, x: real)
    requires lo * k <= sum <= hi * k && lo <= x <= hi
    ensures lo * (k + 1.0) <= sum + x <= hi * (k + 1.0)
  {
  }

  lemma MeanWithinBounds<C>(cs: seq<C>, scores: seq<real>, c: C, lo: real, hi: real)
    requires |scores| == |cs| && c in cs
    requires forall k :: 0 <= k < |scores| ==> lo <= scores[k] <= hi
    ensures lo <= MeanFor(cs, scores, c) <= hi
  {
    CountPositive(cs, c);
    SumForBounds(cs, scores, c, lo, hi);
    var n := CountFor(cs, c) as real;
    assert n >= 1.0;
    var s := SumFor(cs, scores, c);
    assert lo * n <= s <= hi * n;
    DivideBounds(lo, s, hi, n);
  }

  lemma DivideBounds(lo: real, s: real, hi: real, n: real)
    requires n > 0.0 && lo * n <= s <= hi * n
    ensures lo <= s / n <= hi
  {
  }

  /** `average_scores_across_folds`: walks the (configuration, score) pairs
      as far as the shorter list reaches, adding each score to the running
      total of an equal configuration seen before or opening a new entry,
      then divides every total by its count. The result lists the distinct
      configurations in order of first appearance, each with the mean of its
      scores. */
  method AverageScoresAcrossFolds<C(==)>(configs: seq<C>, scores: seq<real>)
    returns (aggConfigs: seq<C>, aggScores: seq<real>)
    ensures var m := Min(|configs|, |scores|);
      aggConfigs == Dedup(configs[..m]) && aggScores == Averages(configs[..m], scores[..m])
    ensures |configs| == |scores| ==> aggConfigs == Dedup(configs) && aggScores == Averages(configs, scores)
  {
    var m := Min(|configs|, |scores|);
    var sums: seq<real> := [];
    var counts: seq<nat> := [];
    aggConfigs := [];
    var i := 0;
    while i < m
      invariant 0 <= i <= m
      invariant Tallied(configs[..i], scores[..i], aggConfigs, sums, counts)
    {
      assert configs[..i + 1] == configs[..i] + [configs[i]] && scores[..i + 1] == scores[..i] + [scores[i]];
      aggConfigs, sums, counts := AddScore(configs[..i], scores[..i], aggConfigs, sums, counts, configs[i], scores[i]);
      i := i + 1;
    }
    assert configs[..m] == configs[..i] && scores[..m] == scores[..i];
    assert |configs| == |scores| ==> configs[..m] == configs && scores[..m] == scores;
    aggScores := sums;
    var k := 0;
    while k < |aggScores|
      invariant 0 <= k <= |aggScores| == |sums|
      invariant forall j :: 0 <= j < k ==> aggScores[j] == sums[j] / counts[j] as real
      invariant forall j :: k <= j < |aggScores| ==> aggScores[j] == sums[j]
    {
      aggScores := aggScores[k := aggScores[k] / counts[k] as real];
      k := k + 1;
    }
  }

  /** The running lists after the pairs `cs`, `ss`: the distinct
      configurations so far, each with its total score and its count. */
  ghost predicate Tallied<C>(cs: seq<C>, ss: seq<real>, agg: seq<C>, sums: seq<real>, counts: seq<nat>)
  {
    && |ss| == |cs|
    && agg == Dedup(cs)
    && |sums| == |counts| == |agg|
    && forall j :: 0 <= j < |agg| ==>
         && sums[j] == SumFor(cs, ss, agg[j])
         && counts[j] == CountFor(cs, agg[j])
         && counts[j] >= 1
  }

  /** One pass of the first loop of `average_scores_across_folds`: a
      configuration seen before gets the score added to its total and one
      more count; a new one is appended with the score and a count of one. */
  method AddScore<C(==)>(cs: seq<C>, ss: seq<real>, agg: seq<C>, sums: seq<real>, counts: seq<nat>, c: C, s: real)
    returns (agg': seq<C>, sums': seq<real>, counts': seq<nat>)
    requires Tallied(cs, ss, agg, sums, counts)
    ensures Tallied(cs + [c], ss + [s], agg', sums', counts')
  {
    var cs', ss' := cs + [c], ss + [s];
    assert cs'[..|cs|] == cs && ss'[..|cs|] == ss;
    if c in agg {
      DedupDistinct(cs);
      var index := IndexOf(agg, c);
      agg', sums', counts' := agg, sums[index := sums[index] + s], counts[index := counts[index] + 1];
    } else {
      DedupMembers(cs);
      AbsentCountsNothing(cs, ss, c);
      agg', sums', counts' := agg + [c], sums + [s], counts + [1];
    }
  }

  // ---------------------------------------------------------------------------
  // Selection

  /** `scores.index(min(scores))`: the first position of least score. */
  function FirstArgMin(scores: seq<real>): (i: nat)
    requires |scores| > 0
    ensures i < |scores|
    ensures forall k :: 0 <= k < |scores| ==> scores[i] <= scores[k]
    ensures forall k :: 0 <= k < i ==> scores[k] > scores[i]
  {
    IndexOf(scores, MinOf(scores))
  }

  /** Least and first among the least: only one position is both. */
  lemma FirstArgMinUnique(scores: seq<real>, j: nat)
    requires j < |scores|
    requires forall k :: 0 <= k < |scores| ==> scores[j] <= scores[k]
    requires forall k :: 0 <= k < j ==> scores[k] > scores[j]
    ensures j == FirstArgMin(scores)
  {
    var i := FirstArgMin(scores);
    assert scores[i] <= scores[j] && scores[j] <= scores[i];
  }

  /** `scored_configurations[scores.index(min(scores))]`: `min` of no scores
      raises, and so would an index past the configurations. */
  function SelectBest<C>(configs: seq<C>, scores: seq<real>): (r: Result<C>)
    ensures |scores| == 0 <==> r == Err(EmptyScores)
    ensures 0 < |scores| <= |configs| ==> r.Ok?
    ensures r.Ok? ==> 0 < |scores| && FirstArgMin(scores) < |configs| && r.value == configs[FirstArgMin(scores)]
  {
    if |scores| == 0 then Err(EmptyScores)
    else
      var i := FirstArgMin(scores);
      if i < |configs| then Ok(configs[i]) else Err(IndexOutOfRange)
  }

  /** The candidates of one tuning round: the sampled configurations, then
      the default one. */
  function Candidates<C>(sampled: seq<C>, default: C): (r: seq<C>)
    ensures |r| == |sampled| + 1 && r[|sampled|] == default && r[..|sampled|] == sampled
  {
    sampled + [default]
  }

  // ---------------------------------------------------------------------------
  // Cross-validation bookkeeping

  /** The pairs fold `f` contributes, in configuration order: a configuration
      whose scoring fails contributes nothing. */
  function FoldPairs<C>(configs: seq<C>, f: nat, score: (nat, C) -> Option<real>): (r: seq<(C, real)>)
    ensures |r| <= |configs|
  {
    if |configs| == 0 then []
    else
      var n := |configs| - 1;
      var s := score(f, configs[n]);
      FoldPairs(configs[..n], f, score) + (if s.Some? then [(configs[n], s.value)] else [])
  }

  /** The pairs of folds `0 .. folds - 1`, fold after fold. */
  function ScoredPairs<C>(configs: seq<C>, folds: nat, score: (nat, C) -> Option<real>): seq<(C, real)>
  {
    if folds == 0 then [] else ScoredPairs(configs, folds - 1, score) + FoldPairs(configs, folds - 1, score)
  }

  function Firsts<C>(p: seq<(C, real)>): (r: seq<C>)
    ensures |r| == |p| && forall i :: 0 <= i < |p| ==> r[i] == p[i].0
  {
    seq(|p|, i requires 0 <= i < |p| => p[i].0)
  }

  function Seconds<C>(p: seq<(C, real)>): (r: seq<real>)
    ensures |r| == |p| && forall i :: 0 <= i < |p| ==> r[i] == p[i].1
  {
    seq(|p|, i requires 0 <= i < |p| => p[i].1)
  }

  lemma FirstsAppend<C>(p: seq<(C, real)>, q: seq<(C, real)>)
    ensures Firsts(p + q) == Firsts(p) + Firsts(q) && Seconds(p + q) == Seconds(p) + Seconds(q)
  {
    assert Firsts(p + q) == Firsts(p) + Firsts(q);
    assert Seconds(p + q) == Seconds(p) + Seconds(q);
  }

  lemma FirstsSnoc<C>(p: seq<(C, real)>, x: (C, real))
    ensures Firsts(p + [x]) == Firsts(p) + [x.0] && Seconds(p + [x]) == Seconds(p) + [x.1]
  {
    assert Firsts(p + [x]) == Firsts(p) + [x.0];
    assert Seconds(p + [x]) == Seconds(p) + [x.1];
  }

  /** Scoring one more configuration of a fold adds at most its pair. */
  lemma FoldPairsStep<C>(configs: seq<C>, j: nat, f: nat, score: (nat, C) -> Option<real>)
    requires j < |configs|
    ensures var s := score(f, configs[j]);
      FoldPairs(configs[..j + 1], f, score) == FoldPairs(configs[..j], f, score) + (if s.Some? then [(configs[j], s.value)] else [])
  {
    assert configs[..j + 1][..j] == configs[..j];
  }

  /** When every scoring succeeds, each fold contributes one pair per
      configuration, so every configuration is scored once per fold. */
  lemma {:induction false} FoldPairsComplete<C>(configs: seq<C>, f: nat, score: (nat, C) -> Option<real>)
    requires forall i :: 0 <= i < |configs| ==> score(f, configs[i]).Some?
    ensures Firsts(FoldPairs(configs, f, score)) == configs
  {
    if |configs| > 0 {
      var n := |configs| - 1;
      assert configs == configs[..n] + [configs[n]];
      FoldPairsComplete(configs[..n], f, score);
    }
  }

  /** Fitting and predicting succeed for every configuration on every fold. */
  predicate AllFit<C>(configs: seq<C>, folds: nat, fits: (nat, C) -> bool)
  {
    forall f, j :: 0 <= f < folds && 0 <= j < |configs| ==> fits(f, configs[j])
  }

  /** What cross-validation yields: the missing-quantiles error when any
      configuration is scored at all; else the estimator's error when a fit
      or predict raised on some fold; else the distinct scored
      configurations with their mean scores. */
  function CrossValidateOutcome<C(==)>(configs: seq<C>, folds: nat, isQuantile: bool, quantiles: Option<seq<real>>,
                                       fits: (nat, C) -> bool, score: (nat, C) -> Option<real>): Result<(seq<C>, seq<real>)>
  {
    if isQuantile && quantiles.None? && folds > 0 && |configs| > 0 then Err(MissingQuantiles)
    else if !AllFit(configs, folds, fits) then Err(EstimatorFailed)
    else
      var p := ScoredPairs(configs, folds, score);
      Ok((Dedup(Firsts(p)), Averages(Firsts(p), Seconds(p))))
  }

  /** `cross_validate_configurations`. Whether the estimator's `fit` and
      `predict` succeed on a fold is `fits(fold, configuration)`; they sit
      outside the `try`, so a failure aborts the whole run. The loss is
      `score(fold, configuration)`, `None` when scoring raised inside the
      `try` and the pair was skipped. A quantile architecture without
      quantile levels raises on the first configuration of the first fold. */
  method CrossValidate<C(==)>(configs: seq<C>, folds: nat, isQuantile: bool, quantiles: Option<seq<real>>,
                              fits: (nat, C) -> bool, score: (nat, C) -> Option<real>)
    returns (r: Result<(seq<C>, seq<real>)>)
    ensures r == CrossValidateOutcome(configs, folds, isQuantile, quantiles, fits, score)
  {
    var scoredConfigs: seq<C> := [];
    var scores: seq<real> := [];
    var f := 0;
    while f < folds
      invariant 0 <= f <= folds
      invariant isQuantile && quantiles.None? && |configs| > 0 ==> f == 0
      invariant forall g, j :: 0 <= g < f && 0 <= j < |configs| ==> fits(g, configs[j])
      invariant scoredConfigs == Firsts(ScoredPairs(configs, f, score))
      invariant scores == Seconds(ScoredPairs(configs, f, score))
    {
      var fold := ScoreFold(configs, f, isQuantile, quantiles, fits, score);
      if fold.Err? {
        return Err(fold.error);
      }
      FirstsAppend(ScoredPairs(configs, f, score), FoldPairs(configs, f, score));
      scoredConfigs := scoredConfigs + fold.value.0;
      scores := scores + fold.value.1;
      f := f + 1;
    }
    assert f == folds && |scoredConfigs| == |scores|;
    assert !(isQuantile && quantiles.None? && folds > 0 && |configs| > 0);
    var aggConfigs, aggScores := AverageScoresAcrossFolds(scoredConfigs, scores);
    r := Ok((aggConfigs, aggScores));
  }

  /** The inner loop of `cross_validate_configurations`: scores every
      configuration on fold `f`, skipping those whose scoring raised; a
      quantile architecture without quantile levels raises at once, and a
      failing fit or predict raises when its configuration is reached. */
  method ScoreFold<C>(configs: seq<C>, f: nat, isQuantile: bool, quantiles: Option<seq<real>>,
                      fits: (nat, C) -> bool, score: (nat, C) -> Option<real>)
    returns (r: Result<(seq<C>, seq<real>)>)
    ensures r.Err? <==>
      |configs| > 0 && ((isQuantile && quantiles.None?) || exists j :: 0 <= j < |configs| && !fits(f, configs[j]))
    ensures r.Err? && isQuantile && quantiles.None? ==> r.error == MissingQuantiles
    ensures r.Err? && !(isQuantile && quantiles.None?) ==> r.error == EstimatorFailed
    ensures r.Ok? ==> r.value == (Firsts(FoldPairs(configs, f, score)), Seconds(FoldPairs(configs, f, score)))
  {
    var scoredConfigs: seq<C> := [];
    var scores: seq<real> := [];
    ghost var pairs: seq<(C, real)> := [];
    var j := 0;
    while j < |configs|
      invariant 0 <= j <= |configs|
      invariant isQuantile && quantiles.None? ==> j == 0
      invariant forall k :: 0 <= k < j ==> fits(f, configs[k])
      invariant pairs == FoldPairs(configs[..j], f, score)
      invariant scoredConfigs == Firsts(pairs) && scores == Seconds(pairs)
    {
      if isQuantile && quantiles.None? {
        return Err(MissingQuantiles);
      }
      if !fits(f, configs[j]) {
        return Err(EstimatorFailed);
      }
      FoldPairsStep(configs, j, f, score);
      var s := score(f, configs[j]);
      if s.Some? {
        FirstsSnoc(pairs, (configs[j], s.value));
        pairs := pairs + [(configs[j], s.value)];
        scoredConfigs := scoredConfigs + [configs[j]];
        scores := scores + [s.value];
      }
      j := j + 1;
    }
    assert configs[..j] == configs;
    r := Ok((scoredConfigs, scores));
  }

  /** What tuning picks when nothing raises: the first distinct scored
      candidate of least mean score. */
  function TuneOutcome<C(==)>(sampled: seq<C>, default: C, folds: nat, score: (nat, C) -> Option<real>): Result<C>
  {
    var p := ScoredPairs(Candidates(sampled, default), folds, score);
    SelectBest(Dedup(Firsts(p)), Averages(Firsts(p), Seconds(p)))
  }

  /** `_tune_component_estimator` / `_tune`: cross-validates the sampled
      configurations plus the default one and returns the first of least
      mean score. */
  method Tune<C(==)>(sampled: seq<C>, default: C, folds: nat, isQuantile: bool, quantiles: Option<seq<real>>,
                     fits: (nat, C) -> bool, score: (nat, C) -> Option<real>)
    returns (r: Result<C>)
    ensures isQuantile && quantiles.None? && folds > 0 ==> r == Err(MissingQuantiles)
    ensures !(isQuantile && quantiles.None? && folds > 0) && !AllFit(Candidates(sampled, default), folds, fits) ==>
      r == Err(EstimatorFailed)
    ensures !(isQuantile && quantiles.None? && folds > 0) && AllFit(Candidates(sampled, default), folds, fits) ==>
      r == TuneOutcome(sampled, default, folds, score)
  {
    var candidates := Candidates(sampled, default);
    var cv := CrossValidate(candidates, folds, isQuantile, quantiles, fits, score);
    if cv.Err? {
      return Err(cv.error);
    }
    var (scored, scores) := cv.value;
    r := SelectBest(scored, scores);
  }

  /** Tuning picks one of the candidates, and no scored candidate has a
      lower mean score than the one picked. */
  lemma TunedIsBest<C>(sampled: seq<C>, default: C, folds: nat, score: (nat, C) -> Option<real>, c: C)
    requires TuneOutcome(sampled, default, folds, score).Ok?
    requires c in Firsts(ScoredPairs(Candidates(sampled, default), folds, score))
    ensures var p := ScoredPairs(Candidates(sampled, default), folds, score);
      var best := TuneOutcome(sampled, default, folds, score).value;
      && best in Candidates(sampled, default)
      && MeanFor(Firsts(p), Seconds(p), best) <= MeanFor(Firsts(p), Seconds(p), c)
  {
    var p := ScoredPairs(Candidates(sampled, default), folds, score);
    var f := Firsts(p);
    var cs := Dedup(f);
    var means := Averages(f, Seconds(p));
    var i := FirstArgMin(means);
    TunedIsCandidate(sampled, default, folds, score);
    DedupMembers(f);
    var k := IndexOf(cs, c);
    assert means[i] <= means[k];
  }

  /** Whatever tuning picks is a candidate. */
  lemma TunedIsCandidate<C>(sampled: seq<C>, default: C, folds: nat, score: (nat, C) -> Option<real>)
    ensures TuneOutcome(sampled, default, folds, score).Ok? ==>
      TuneOutcome(sampled, default, folds, score).value in Candidates(sampled, default)
  {
    var p := ScoredPairs(Candidates(sampled, default), folds, score);
    var f := Firsts(p);
    var r := TuneOutcome(sampled, default, folds, score);
    if r.Ok? {
      var i := FirstArgMin(Averages(f, Seconds(p)));
      DedupMembers(f);
      assert r.value == Dedup(f)[i] && r.value in f;
      var k := IndexOf(f, r.value);
      ScoredPairsFromCandidates(Candidates(sampled, default), folds, score);
      assert r.value == p[k].0;
    }
  }

  /** Every scored configuration is one of the candidates. */
  lemma {:induction false} ScoredPairsFromCandidates<C>(configs: seq<C>, folds: nat, score: (nat, C) -> Option<real>)
    ensures forall i :: 0 <= i < |ScoredPairs(configs, folds, score)| ==> ScoredPairs(configs, folds, score)[i].0 in configs
  {
    if folds > 0 {
      ScoredPairsFromCandidates(configs, folds - 1, score);
      FoldPairsFromCandidates(configs, folds - 1, score);
      var a := ScoredPairs(configs, folds - 1, score);
      var b := FoldPairs(configs, folds - 1, score);
      assert Firsts(a + b) == Firsts(a) + Firsts(b);
    }
  }

  lemma {:induction false} FoldPairsFromCandidates<C>(configs: seq<C>, f: nat, score: (nat, C) -> Option<real>)
    ensures forall i :: 0 <= i < |FoldPairs(configs, f, score)| ==> FoldPairs(configs, f, score)[i].0 in configs
  {
    if |configs| > 0 {
      var n := |configs| - 1;
      FoldPairsFromCandidates(configs[..n], f, score);
      var a := FoldPairs(configs[..n], f, score);
      var s := score(f, configs[n]);
      var b := if s.Some? then [(configs[n], s.value)] else [];
      assert Firsts(a + b) == Firsts(a) + Firsts(b);
    }
  }

  /** `_fit_component_estimator` / `fit`: more than one tuning iteration
      tunes; otherwise the default configuration is used as it is. */
  method ComponentParameters<C(==)>(tuningIterations: int, sampled: seq<C>, default: C, folds: nat,
                                    isQuantile: bool, quantiles: Option<seq<real>>,
                                    fits: (nat, C) -> bool, score: (nat, C) -> Option<real>)
    returns (r: Result<C>)
    ensures tuningIterations <= 1 ==> r == Ok(default)
    ensures tuningIterations > 1 && isQuantile && quantiles.None? && folds > 0 ==> r == Err(MissingQuantiles)
    ensures tuningIterations > 1 && !(isQuantile && quantiles.None? && folds > 0) ==>
      (AllFit(Candidates(sampled, default), folds, fits) ==> r == TuneOutcome(sampled, default, folds, score))
      && (!AllFit(Candidates(sampled, default), folds, fits) ==> r == Err(EstimatorFailed))
    ensures r.Ok? ==> r.value in Candidates(sampled, default)
  {
    if tuningIterations > 1 {
      r := Tune(sampled, default, folds, isQuantile, quantiles, fits, score);
      TunedIsCandidate(sampled, default, folds, score);
    } else {
      r := Ok(default);
    }
  }
}
