/** The two interval samplers: UCB keeps one symmetric quantile pair and an
    exploration weight; Thompson keeps nested quantile pairs, one adaptive
    controller per pair. */
module Samplers {
  import opened Common
  import opened RealSeq
  import opened Controllers
  import opened Intervals

  /** The two `beta_decay` schedules of the UCB sampler. */
  datatype BetaDecay = LogarithmicDecay | LogarithmicGrowth

  /** `[alpha / 2, 1 - alpha / 2]`: the quantile levels of the central
      interval with miscoverage `alpha`. */
  function SymmetricPair(alpha: real): (r: seq<real>)
    ensures |r| == 2 && r[0] + r[1] == 1.0 && r[1] - r[0] == 1.0 - alpha
    ensures 0.0 <= alpha <= 1.0 ==> 0.0 <= r[0] <= 0.5 <= r[1] <= 1.0
  {
    [alpha / 2.0, 1.0 - alpha / 2.0]
  }

  /** The exploration weight after a step taken at counter `t`; `ln` is the
      natural logarithm. */
  function NextBeta(decay: BetaDecay, c: real, t: int, ln: real -> real): real
    requires t >= 1
  {
    match decay
    case LogarithmicDecay => c * ln(t as real) / t as real
    case LogarithmicGrowth => 2.0 * ln((t + 1) as real)
  }

  /** The exploration weight after `k` steps taken from counter `t`. */
  function BetaAfter(decay: BetaDecay, c: real, beta: real, t: int, k: nat, ln: real -> real): real
    requires t >= 1
    decreases k
  {
    if k == 0 then beta else BetaAfter(decay, c, NextBeta(decay, c, t, ln), t + 1, k - 1, ln)
  }

  /** After at least one step the weight depends only on the last counter:
      the schedule forgets its starting weight. */
  lemma {:induction false} BetaAfterLast(decay: BetaDecay, c: real, beta: real, t: int, k: nat, ln: real -> real)
    requires t >= 1 && k >= 1
    ensures BetaAfter(decay, c, beta, t, k, ln) == NextBeta(decay, c, t + k - 1, ln)
    decreases k
  {
    if k > 1 {
      BetaAfterLast(decay, c, NextBeta(decay, c, t, ln), t + 1, k - 1, ln);
    }
  }

  // ---------------------------------------------------------------------------
  // UCB

  class UcbSampler {
    const betaDecay: BetaDecay
    const c: real
    const intervalWidth: real
    /** Present only when an adapter framework was chosen. */
    const adapter: Option<Adapter>
    var beta: real
    var alpha: real
    var quantiles: seq<real>
    /** The exploration step counter. */
    var t: int

    ghost function Repr(): set<object>
    {
      {this} + (if adapter.Some? then adapter.value.Repr() else {})
    }

    ghost predicate Valid()
      reads Repr()
    {
      && quantiles == SymmetricPair(alpha)
      && t >= 1
      && (adapter.Some? ==> this !in adapter.value.Repr() && adapter.value.Valid())
    }

    constructor (betaDecay: BetaDecay, beta: real, c: real, intervalWidth: real, adapter: Option<Adapter>)
      requires adapter.Some? ==> adapter.value.Valid()
      ensures Valid()
      ensures this.betaDecay == betaDecay && this.beta == beta && this.c == c
      ensures this.intervalWidth == intervalWidth && this.adapter == adapter
      ensures alpha == 1.0 - intervalWidth && t == 1
    {
      this.betaDecay := betaDecay;
      this.beta := beta;
      this.c := c;
      this.intervalWidth := intervalWidth;
      this.adapter := adapter;
      alpha := 1.0 - intervalWidth;
      quantiles := SymmetricPair(1.0 - intervalWidth);
      t := 1;
    }

    /** `fetch_quantiles`: the current pair as an interval, centred on the
        median and `1 - alpha` wide. */
    function FetchQuantiles(): (q: QuantileInterval)
      reads this
      requires |quantiles| == 2
      ensures quantiles == SymmetricPair(alpha) ==>
        q.lower == alpha / 2.0 && q.lower + q.upper == 1.0 && q.upper - q.lower == 1.0 - alpha
    {
      QuantileInterval(quantiles[0], quantiles[1])
    }

    /** `update_exploration_step`: recompute `beta` from the counter, then
        advance the counter by one; nothing else changes. */
    method UpdateExplorationStep(ln: real -> real)
      requires Valid()
      modifies this
      ensures Valid()
      ensures t == old(t) + 1 && beta == NextBeta(betaDecay, c, old(t), ln)
      ensures alpha == old(alpha) && quantiles == old(quantiles)
    {
      match betaDecay {
        case LogarithmicDecay =>
          beta := c * ln(t as real) / t as real;
        case LogarithmicGrowth =>
          beta := 2.0 * ln((t + 1) as real);
      }
      t := t + 1;
    }

    /** `update_interval_width`: the adapter's new level becomes `alpha` and
        the pair is re-centred on it. Without an adapter the attribute is
        missing; a failing adapter leaves everything as it was. */
    method UpdateIntervalWidth(breach: int, exp: real -> real) returns (e: Option<Error>)
      requires Valid()
      requires forall x :: exp(x) > 0.0
      modifies Repr()
      ensures Valid()
      ensures beta == old(beta) && t == old(t)
      ensures adapter.None? ==> e == Some(MissingAttribute) && alpha == old(alpha) && quantiles == old(quantiles)
      ensures adapter.Some? ==> adapter.value.Fits(old(adapter.value.State()))
      ensures adapter.Some? ==>
        var step := AdapterStep(adapter.value, old(adapter.value.State()), breach, exp);
        && adapter.value.State() == step.state
        && (step.output.Err? ==> e == Some(step.output.error) && alpha == old(alpha) && quantiles == old(quantiles))
        && (step.output.Ok? ==> e == None && alpha == step.output.value)
      ensures e.None? ==> 0.0 <= alpha <= 1.0 && quantiles[0] <= quantiles[1]
    {
      if adapter.None? {
        return Some(MissingAttribute);
      }
      var a := adapter.value;
      ValidFits(a);
      AdapterStepFacts(a, a.State(), breach, exp);
      var r := UpdateAdapter(a, breach, exp);
      if r.Err? {
        return Some(r.error);
      }
      alpha := r.value;
      quantiles := SymmetricPair(alpha);
      e := None;
    }
  }

  /** `UCBSampler(...)`: the adapter, if one is asked for, is built for
      `alpha = 1 - interval_width`; only a DtACI adapter can refuse it. */
  method CreateUcbSampler(betaDecay: BetaDecay, beta: real, c: real, intervalWidth: real, framework: Option<Framework>)
    returns (r: Result<UcbSampler>)
    ensures r.Err? <==> framework == Some(DtAciFramework) && !(0.0 < 1.0 - intervalWidth < 1.0)
    ensures r.Err? ==> r.error == AlphaOutOfRange
    ensures r.Ok? ==> fresh(r.value.Repr()) && r.value.Valid()
    ensures r.Ok? ==>
      && r.value.alpha == 1.0 - intervalWidth && r.value.t == 1 && r.value.beta == beta
      && r.value.quantiles == SymmetricPair(1.0 - intervalWidth)
      && (r.value.adapter.Some? <==> framework.Some?)
      && (framework.Some? ==> BuiltFor(r.value.adapter.value, framework.value, 1.0 - intervalWidth))
  {
    var adapter: Option<Adapter> := None;
    if framework.Some? {
      var a := CreateAdapter(framework.value, 1.0 - intervalWidth);
      if a.Err? {
        return Err(a.error);
      }
      adapter := Some(a.value);
    }
    var s := new UcbSampler(betaDecay, beta, c, intervalWidth, adapter);
    r := Ok(s);
  }

  // ---------------------------------------------------------------------------
  // Thompson: quantile levels and alphas

  /** `round(x, 2)`, ties rounded upwards. */
  function Round2(x: real): real
  {
    (x * 100.0 + 0.5).Floor as real / 100.0
  }

  lemma Round2Monotone(x: real, y: real)
    requires x <= y
    ensures Round2(x) <= Round2(y)
  {
    assert (x * 100.0 + 0.5).Floor <= (y * 100.0 + 0.5).Floor;
  }

  /** `i / (n + 1)` rounded to two places, for `i = 1 .. n`. */
  function InitialQuantiles(n: int): (r: seq<real>)
    ensures |r| == (if n > 0 then n else 0)
  {
    if n <= 0 then []
    else seq(n, i requires 0 <= i < n => Round2((i + 1) as real / (n + 1) as real))
  }

  /** The initial levels are in ascending order. */
  lemma InitialQuantilesSorted(n: int)
    ensures Sorted(InitialQuantiles(n))
  {
    var q := InitialQuantiles(n);
    forall i, j | 0 <= i < j < |q| ensures q[i] <= q[j] {
      var d := (n + 1) as real;
      QuotientMonotone((i + 1) as real, (j + 1) as real, d);
      Round2Monotone((i + 1) as real / d, (j + 1) as real / d);
    }
  }

  /** One minus the width of the `i`-th pair `(q[i], q[n - 1 - i])`. */
  function PairAlphas(q: seq<real>): (r: seq<real>)
    ensures |r| == |q| / 2
  {
    seq(|q| / 2, i requires 0 <= i < |q| / 2 => 1.0 - (q[|q| - 1 - i] - q[i]))
  }

  /** Each alpha is the miscoverage of the matching interval of the paired
      levels, outermost first. */
  lemma PairAlphasArePairMiscoverage(q: seq<real>, i: nat)
    requires i < |q| / 2
    ensures PairAlphas(q)[i] == 1.0 - (PairUp(q)[i].upper - PairUp(q)[i].lower)
  {
  }

  /** On ascending levels the outer pairs have the smaller alphas, and all
      alphas are at most one. */
  lemma PairAlphasOrdered(q: seq<real>)
    requires Sorted(q)
    ensures forall i :: 0 <= i < |q| / 2 ==> PairAlphas(q)[i] <= 1.0
    ensures forall i, j :: 0 <= i <= j < |q| / 2 ==> PairAlphas(q)[i] <= PairAlphas(q)[j]
  {
    PairUpNested(q);
    var a := PairAlphas(q);
    var p := PairUp(q);
    forall i | 0 <= i < |q| / 2 ensures a[i] <= 1.0 {
      PairAlphasArePairMiscoverage(q, i);
    }
    forall i, j | 0 <= i <= j < |q| / 2 ensures a[i] <= a[j] {
      PairAlphasArePairMiscoverage(q, i);
      PairAlphasArePairMiscoverage(q, j);
    }
  }

  /** The loop in `ThompsonSampler.__init__` that derives the alphas. */
  method ComputeAlphas(q: seq<real>) returns (alphas: seq<real>)
    ensures alphas == PairAlphas(q)
  {
    alphas := [];
    var i := 0;
    while i < |q| / 2
      invariant 0 <= i <= |q| / 2
      invariant alphas == PairAlphas(q)[..i]
    {
      alphas := alphas + [1.0 - (q[|q| - 1 - i] - q[i])];
      i := i + 1;
    }
  }

  /** The central interval `(alpha / 2, 1 - alpha / 2)` for each alpha. */
  function CentredIntervals(alphas: seq<real>): (r: seq<QuantileInterval>)
    ensures |r| == |alphas|
  {
    seq(|alphas|, i requires 0 <= i < |alphas| => QuantileInterval(alphas[i] / 2.0, 1.0 - alphas[i] / 2.0))
  }

  lemma CentredCons(x: real, s: seq<real>)
    ensures CentredIntervals([x] + s) == [QuantileInterval(x / 2.0, 1.0 - x / 2.0)] + CentredIntervals(s)
  {
  }

  /** The symmetric pair of each alpha in turn, as the update loop extends
      its list. */
  function Levels(alphas: seq<real>): (r: seq<real>)
    ensures |r| == 2 * |alphas| && |r| % 2 == 0
  {
    if |alphas| == 0 then [] else SymmetricPair(alphas[0]) + Levels(alphas[1..])
  }

  lemma {:induction false} LevelsAreFlattenedIntervals(alphas: seq<real>)
    ensures Levels(alphas) == Flatten(CentredIntervals(alphas))
  {
    if |alphas| > 0 {
      LevelsAreFlattenedIntervals(alphas[1..]);
      assert alphas == [alphas[0]] + alphas[1..];
      CentredCons(alphas[0], alphas[1..]);
      FlattenCons(QuantileInterval(alphas[0] / 2.0, 1.0 - alphas[0] / 2.0), CentredIntervals(alphas[1..]));
    }
  }

  lemma {:induction false} LevelsSnoc(alphas: seq<real>, x: real)
    ensures Levels(alphas + [x]) == Levels(alphas) + SymmetricPair(x)
  {
    if |alphas| > 0 {
      assert (alphas + [x])[1..] == alphas[1..] + [x];
      LevelsSnoc(alphas[1..], x);
    }
  }

  lemma LevelsCons(x: real, s: seq<real>)
    ensures Levels([x] + s) == SymmetricPair(x) + Levels(s)
  {
    assert ([x] + s)[1..] == s;
  }

  lemma MultisetRearrange(p: seq<real>, a: seq<real>, b: seq<real>, q: seq<real>)
    requires multiset(a) == multiset(b) + multiset(q)
    ensures multiset(p + a) == multiset(p + b) + multiset(q)
  {
  }

  /** Inserting `x` adds exactly the two levels of `x`. */
  lemma {:induction false} LevelsInsertMultiset(x: real, s: seq<real>)
    ensures multiset(Levels(Insert(x, s))) == multiset(Levels(s)) + multiset(SymmetricPair(x))
  {
    if |s| == 0 || x <= s[0] {
      LevelsCons(x, s);
    } else {
      var h := s[0];
      var rest := Insert(x, s[1..]);
      assert Insert(x, s) == [h] + rest;
      LevelsInsertMultiset(x, s[1..]);
      LevelsCons(h, rest);
      MultisetRearrange(SymmetricPair(h), Levels(rest), Levels(s[1..]), SymmetricPair(x));
    }
  }

  /** Sorting the alphas permutes their levels. */
  lemma {:induction false} LevelsSortMultiset(s: seq<real>)
    ensures multiset(Levels(Sort(s))) == multiset(Levels(s))
  {
    if |s| > 0 {
      var t := s[1..];
      assert Sort(s) == Insert(s[0], Sort(t));
      LevelsSortMultiset(t);
      LevelsInsertMultiset(s[0], Sort(t));
      assert Levels(s) == SymmetricPair(s[0]) + Levels(t);
    }
  }

  /** Central intervals of ascending alphas in [0, 1] are nested. */
  lemma CentredNested(alphas: seq<real>)
    requires Sorted(alphas)
    requires forall i :: 0 <= i < |alphas| ==> 0.0 <= alphas[i] <= 1.0
    ensures Nested(CentredIntervals(alphas))
  {
  }

  /** After an update the Thompson levels pair up into the central intervals
      of the new alphas, smallest alpha (widest interval) first: every
      fetched interval is symmetric about the median. */
  lemma FetchAfterUpdate(alphas: seq<real>)
    requires forall i :: 0 <= i < |alphas| ==> 0.0 <= alphas[i] <= 1.0
    ensures PairUp(Sort(Levels(alphas))) == CentredIntervals(Sort(alphas))
  {
    var sorted := Sort(alphas);
    SortFacts(alphas);
    forall i | 0 <= i < |sorted| ensures 0.0 <= sorted[i] <= 1.0 {
      assert sorted[i] in multiset(alphas);
    }
    CentredNested(sorted);
    FromToFlattened(CentredIntervals(sorted));
    LevelsSortMultiset(alphas);
    LevelsAreFlattenedIntervals(alphas);
    LevelsAreFlattenedIntervals(sorted);
    SortOfPermutation(Levels(sorted), Levels(alphas));
  }

  // ---------------------------------------------------------------------------
  // Thompson: the sampler

  /** Every object of every adapter. */
  ghost function AdaptersRepr(s: seq<Adapter>): set<object>
  {
    set i, o | 0 <= i < |s| && o in s[i].Repr() :: o
  }

  /** Each adapter valid, and no two sharing an object. */
  ghost predicate AdaptersValid(s: seq<Adapter>)
    reads AdaptersRepr(s)
  {
    && (forall i :: 0 <= i < |s| ==> s[i].Valid())
    && (forall i, j :: 0 <= i < j < |s| ==> s[i].Repr() !! s[j].Repr())
  }

  /** A valid adapter sharing nothing with a valid collection extends it. */
  lemma AdaptersValidSnoc(s: seq<Adapter>, x: Adapter)
    requires AdaptersValid(s) && x.Valid() && x.Repr() !! AdaptersRepr(s)
    ensures AdaptersValid(s + [x])
    ensures AdaptersRepr(s + [x]) == AdaptersRepr(s) + x.Repr()
    ensures (s + [x])[..|s|] == s && (s + [x])[|s|] == x
  {
    var t := s + [x];
    assert t[..|s|] == s;
    forall i, j | 0 <= i < j < |t| ensures t[i].Repr() !! t[j].Repr() {
      if j == |s| {
        assert t[i] == s[i];
        assert s[i].Repr() <= AdaptersRepr(s);
      }
    }
    forall o | o in AdaptersRepr(t) ensures o in AdaptersRepr(s) + x.Repr() {
      var k :| 0 <= k < |t| && o in t[k].Repr();
      if k < |s| {
        assert t[k] == s[k];
      }
    }
    forall o | o in AdaptersRepr(s) + x.Repr() ensures o in AdaptersRepr(t) {
      if o in AdaptersRepr(s) {
        var k :| 0 <= k < |s| && o in s[k].Repr();
        assert t[k] == s[k];
      } else {
        assert t[|s|] == x;
      }
    }
  }

  class ThompsonSampler {
    const nQuantiles: int
    /** Present only when an adapter framework was chosen. */
    const adapters: Option<seq<Adapter>>
    var quantiles: seq<real>
    var alphas: seq<real>

    ghost function Repr(): set<object>
    {
      {this} + (if adapters.Some? then AdaptersRepr(adapters.value) else {})
    }

    ghost predicate Valid()
      reads Repr()
    {
      && Sorted(quantiles) && |quantiles| % 2 == 0
      && (adapters.Some? ==> this !in AdaptersRepr(adapters.value) && AdaptersValid(adapters.value))
    }

    constructor (nQuantiles: int, quantiles: seq<real>, alphas: seq<real>, adapters: Option<seq<Adapter>>)
      requires Sorted(quantiles) && |quantiles| % 2 == 0
      requires adapters.Some? ==> AdaptersValid(adapters.value)
      ensures Valid()
      ensures this.nQuantiles == nQuantiles && this.quantiles == quantiles
      ensures this.alphas == alphas && this.adapters == adapters
    {
      this.nQuantiles := nQuantiles;
      this.quantiles := quantiles;
      this.alphas := alphas;
      this.adapters := adapters;
    }

    /** `fetch_quantiles`: `from_flattened_list` sorts the level list in
        place, which leaves the already sorted list as it is, and pairs its ends inwards. */
    method FetchQuantiles() returns (r: QuantileIntervalSequence)
      requires Valid()
      ensures Valid()
      ensures fresh(r) && r.intervals == Some(PairUp(quantiles))
      ensures Nested(PairUp(quantiles)) && Sort(Flatten(PairUp(quantiles))) == quantiles
    {
      SortOfSorted(quantiles);
      r := new QuantileIntervalSequence(Some(PairUp(Sort(quantiles))));
      assert Valid();
      PairUpNested(quantiles);
      RoundTripSorted(quantiles);
    }

    /** `update_interval_width`: adapter `k` takes breach `k`, as far as the
        shorter of the two lists reaches; the new alphas and their sorted
        symmetric levels replace the old ones. When adapter `failedAt` fails,
        the adapters before it have already been updated and nothing else
        changes. */
    method UpdateIntervalWidth(breaches: seq<int>, exp: real -> real) returns (e: Option<Error>, ghost failedAt: nat)
      requires Valid()
      requires forall x :: exp(x) > 0.0
      modifies Repr()
      ensures Valid()
      ensures adapters.None? ==> e == Some(MissingAttribute) && alphas == old(alphas) && quantiles == old(quantiles)
      ensures adapters.Some? ==>
        StepsSpec(adapters.value, old(States(adapters.value)), States(adapters.value), breaches, exp, e, failedAt, alphas)
      ensures adapters.Some? && e.None? ==> quantiles == Sort(Levels(alphas))
      ensures e.Some? ==> alphas == old(alphas) && quantiles == old(quantiles)
    {
      failedAt := 0;
      if adapters.None? {
        return Some(MissingAttribute), 0;
      }
      var newAlphas;
      e, failedAt, newAlphas := StepAdapters(adapters.value, breaches, exp);
      if e.None? {
        var levels := Levels(newAlphas);
        SortFacts(levels);
        var sorted := Sort(levels);
        assert Sorted(sorted) && |sorted| == |levels|;
        SetLevels(newAlphas, sorted);
      } else {
        assert Sorted(quantiles) && |quantiles| % 2 == 0;
      }
    }

    /** Replaces the alphas and the levels, leaving the adapters alone. */
    method SetLevels(newAlphas: seq<real>, sorted: seq<real>)
      requires Sorted(sorted) && |sorted| % 2 == 0
      requires adapters.Some? ==> this !in AdaptersRepr(adapters.value) && AdaptersValid(adapters.value)
      modifies this
      ensures Valid()
      ensures alphas == newAlphas && quantiles == sorted
      ensures adapters.Some? ==> unchanged(AdaptersRepr(adapters.value))
    {
      alphas, quantiles := newAlphas, sorted;
    }
  }

  /** The state of every adapter, in order. */
  ghost function States(s: seq<Adapter>): (r: seq<AdapterState>)
    reads AdaptersRepr(s)
    ensures |r| == |s|
  {
    seq(|s|, i requires 0 <= i < |s| reads AdaptersRepr(s) => s[i].State())
  }

  /** What feeding `breaches` to adapters `a` (as far as the shorter list
      reaches) did, from states `before` to states `after`: on success adapter
      `k` took step `k` and returned `alphas[k]`; on failure at `failedAt` the
      adapters before it took their step, it failed with `e`, and it and those
      after it are unchanged. */
  ghost predicate StepsSpec(a: seq<Adapter>, before: seq<AdapterState>, after: seq<AdapterState>,
                            breaches: seq<int>, exp: real -> real,
                            e: Option<Error>, failedAt: nat, alphas: seq<real>)
  {
    && (forall x :: exp(x) > 0.0)
    && |before| == |after| == |a|
    && (forall k :: 0 <= k < |a| ==> a[k].Fits(before[k]))
    && var m := Min(|a|, |breaches|);
    && (e.None? ==>
         && |alphas| == m
         && (forall k :: 0 <= k < m ==> 0.0 <= alphas[k] <= 1.0)
         && (forall k :: 0 <= k < m ==>
               AdapterStep(a[k], before[k], breaches[k], exp) == AdapterResult(Ok(alphas[k]), after[k]))
         && (forall k :: m <= k < |a| ==> after[k] == before[k]))
    && (e.Some? ==>
         && failedAt < m
         && AdapterStep(a[failedAt], before[failedAt], breaches[failedAt], exp).output == Err(e.value)
         && (forall k :: 0 <= k < failedAt ==>
               && AdapterStep(a[k], before[k], breaches[k], exp).output.Ok?
               && AdapterStep(a[k], before[k], breaches[k], exp).state == after[k])
         && (forall k :: failedAt <= k < |a| ==> after[k] == before[k]))
  }

  /** The loop of `ThompsonSampler.update_interval_width`: feeds breach `k`
      to adapter `k` and collects the returned levels. */
  method StepAdapters(a: seq<Adapter>, breaches: seq<int>, exp: real -> real)
    returns (e: Option<Error>, ghost failedAt: nat, alphas: seq<real>)
    requires AdaptersValid(a)
    requires forall x :: exp(x) > 0.0
    modifies AdaptersRepr(a)
    ensures AdaptersValid(a)
    ensures StepsSpec(a, old(States(a)), States(a), breaches, exp, e, failedAt, alphas)
  {
    forall k | 0 <= k < |a| ensures a[k].Fits(a[k].State()) {
      ValidFits(a[k]);
    }
    failedAt := 0;
    var m := Min(|a|, |breaches|);
    alphas := [];
    var i := 0;
    while i < m
      invariant 0 <= i <= m
      invariant AdaptersValid(a)
      invariant |alphas| == i
      invariant forall k :: 0 <= k < |a| ==> a[k].Fits(old(a[k].State()))
      invariant forall k :: 0 <= k < i ==> 0.0 <= alphas[k] <= 1.0
      invariant forall k :: 0 <= k < i ==>
        AdapterStep(a[k], old(a[k].State()), breaches[k], exp) == AdapterResult(Ok(alphas[k]), a[k].State())
      invariant forall k :: i <= k < |a| ==> a[k].State() == old(a[k].State())
    {
      var r := StepAdapterAt(a, i, breaches[i], exp);
      if r.Err? {
        return Some(r.error), i, alphas;
      }
      alphas := alphas + [r.value];
      i := i + 1;
    }
    e := None;
  }

  /** Updates adapter `i` of a collection, leaving the others alone. */
  method StepAdapterAt(a: seq<Adapter>, i: nat, breach: int, exp: real -> real) returns (r: Result<real>)
    requires i < |a| && AdaptersValid(a)
    requires forall x :: exp(x) > 0.0
    modifies a[i].Repr()
    ensures AdaptersValid(a)
    ensures a[i].Fits(old(a[i].State()))
    ensures AdapterStep(a[i], old(a[i].State()), breach, exp) == AdapterResult(r, a[i].State())
    ensures r.Ok? ==> 0.0 <= r.value <= 1.0
    ensures r.Err? ==> a[i].State() == old(a[i].State())
    ensures forall k :: 0 <= k < |a| && k != i ==> a[k].State() == old(a[k].State())
  {
    var x := a[i];
    ValidFits(x);
    AdapterStepFacts(x, x.State(), breach, exp);
    r := UpdateAdapter(x, breach, exp);
    forall k | 0 <= k < |a| && k != i
      ensures a[k].State() == old(a[k].State()) && a[k].Valid()
    {
      var y := a[k];
      assert y.Repr() !! x.Repr();
    }
  }

  /** `ThompsonSampler(n_quantiles, adapter_framework)`: refuses an odd count;
      derives the levels and the pair alphas; builds one adapter per alpha
      when a framework is given (a DtACI adapter refuses an alpha outside
      (0, 1), which rounding can produce for large counts). */
  method CreateThompsonSampler(n: int, framework: Option<Framework>) returns (r: Result<ThompsonSampler>)
    ensures r.Err? <==>
      || n % 2 != 0
      || (framework == Some(DtAciFramework) && exists i :: 0 <= i < |PairAlphas(InitialQuantiles(n))| && !(0.0 < PairAlphas(InitialQuantiles(n))[i] < 1.0))
    ensures n % 2 != 0 ==> r == Err(OddQuantileCount)
    ensures r.Err? && n % 2 == 0 ==> r.error == AlphaOutOfRange
    ensures r.Ok? ==>
      && fresh(r.value.Repr()) && r.value.Valid()
      && r.value.nQuantiles == n
      && r.value.quantiles == InitialQuantiles(n)
      && r.value.alphas == PairAlphas(InitialQuantiles(n))
      && (r.value.adapters.Some? <==> framework.Some?)
      && (r.value.adapters.Some? ==>
            && |r.value.adapters.value| == |r.value.alphas|
            && forall k :: 0 <= k < |r.value.alphas| ==>
                 BuiltFor(r.value.adapters.value[k], framework.value, r.value.alphas[k]))
  {
    if n % 2 != 0 {
      return Err(OddQuantileCount);
    }
    var q := InitialQuantiles(n);
    InitialQuantilesSorted(n);
    var alphas := ComputeAlphas(q);
    var adapters: Option<seq<Adapter>> := None;
    if framework.Some? {
      var built := BuildAdapters(framework.value, alphas);
      if built.Err? {
        return Err(built.error);
      }
      adapters := Some(built.value);
    }
    var s := new ThompsonSampler(n, q, alphas, adapters);
    r := Ok(s);
  }

  /** One fresh adapter per alpha, in order. */
  method BuildAdapters(framework: Framework, alphas: seq<real>) returns (r: Result<seq<Adapter>>)
    ensures r.Err? <==> framework == DtAciFramework && exists i :: 0 <= i < |alphas| && !(0.0 < alphas[i] < 1.0)
    ensures r.Err? ==> r.error == AlphaOutOfRange
    ensures r.Ok? ==> |r.value| == |alphas| && AdaptersValid(r.value) && fresh(AdaptersRepr(r.value))
    ensures r.Ok? ==> forall k :: 0 <= k < |alphas| ==> BuiltFor(r.value[k], framework, alphas[k])
  {
    var built: seq<Adapter> := [];
    var i := 0;
    while i < |alphas|
      invariant 0 <= i <= |alphas| && |built| == i
      invariant AdaptersValid(built) && fresh(AdaptersRepr(built))
      invariant forall k :: 0 <= k < i ==> BuiltFor(built[k], framework, alphas[k])
      invariant framework == DtAciFramework ==> forall k :: 0 <= k < i ==> 0.0 < alphas[k] < 1.0
    {
      var next := AppendAdapter(built, framework, alphas[i]);
      if next.Err? {
        return Err(next.error);
      }
      built := next.value;
      i := i + 1;
    }
    r := Ok(built);
  }

  /** Extends a collection of adapters by a fresh one for `alpha`. */
  method AppendAdapter(built: seq<Adapter>, framework: Framework, alpha: real) returns (r: Result<seq<Adapter>>)
    requires AdaptersValid(built)
    ensures r.Err? <==> framework == DtAciFramework && !(0.0 < alpha < 1.0)
    ensures r.Err? ==> r.error == AlphaOutOfRange
    ensures r.Ok? ==>
      && |r.value| == |built| + 1 && r.value[..|built|] == built
      && AdaptersValid(r.value) && BuiltFor(r.value[|built|], framework, alpha)
      && fresh(AdaptersRepr(r.value) - AdaptersRepr(built))
  {
    var a := CreateAdapter(framework, alpha);
    if a.Err? {
      return Err(a.error);
    }
    var x := a.value;
    assert AdaptersValid(built);
    assert x.Repr() !! AdaptersRepr(built);
    AppendBuilt(built, x, framework, alpha);
    r := Ok(built + [x]);
  }

  /** What adding an adapter built for `alpha` keeps and adds. */
  lemma AppendBuilt(built: seq<Adapter>, x: Adapter, framework: Framework, alpha: real)
    requires AdaptersValid(built) && x.Valid() && x.Repr() !! AdaptersRepr(built)
    requires BuiltFor(x, framework, alpha)
    ensures var t := built + [x];
      && |t| == |built| + 1 && t[..|built|] == built
      && AdaptersValid(t) && BuiltFor(t[|built|], framework, alpha)
      && AdaptersRepr(t) - AdaptersRepr(built) <= x.Repr()
  {
    AdaptersValidSnoc(built, x);
  }
}
