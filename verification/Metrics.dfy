/** Retrieval metrics: one case at one cutoff, and their means over cases and categories. */
module Metrics {
  import opened Text

  // One case -----------------------------------------------------------------------------------------

  datatype CaseMetrics = CaseMetrics(
    retrievedCount: nat,
    relevantCount: nat,
    recall: Option<real>,
    precision: real,
    hit: Option<bool>,
    firstRank: Option<nat>,
    reciprocalRank: Option<real>,
    zeroResult: bool)

  function Cut(retrieved: seq<string>, k: nat): seq<string> {
    if k < |retrieved| then retrieved[..k] else retrieved
  }

  function Relevant(retrieved: seq<string>, gold: set<string>): seq<string> {
    if retrieved == [] then []
    else
      var last := retrieved[|retrieved| - 1];
      Relevant(retrieved[..|retrieved| - 1], gold) + if last in gold then [last] else []
  }

  /** The one-based rank of the first relevant result. */
  function FirstRank(retrieved: seq<string>, gold: set<string>): (r: Option<nat>)
    ensures r.Some? ==> 1 <= r.value <= |retrieved| && retrieved[r.value - 1] in gold
    ensures r.Some? ==> forall i | 0 <= i < r.value - 1 :: retrieved[i] !in gold
    ensures r == None ==> forall i | 0 <= i < |retrieved| :: retrieved[i] !in gold
  {
    if retrieved == [] then None
    else if retrieved[0] in gold then Some(1)
    else match FirstRank(retrieved[1..], gold) case None => None case Some(n) => Some(n + 1)
  }

  function CalculateCase(results: seq<string>, gold: set<string>, k: nat): CaseMetrics {
    var retrieved := Cut(results, k);
    var relevant := |Relevant(retrieved, gold)|;
    var rank := FirstRank(retrieved, gold);
    var supported := gold != {};
    CaseMetrics(
      |retrieved|, relevant,
      if supported then Some(relevant as real / |gold| as real) else None,
      if retrieved != [] then relevant as real / |retrieved| as real else 0.0,
      if supported then Some(relevant > 0) else None,
      rank,
      if rank.Some? && supported then Some(1.0 / rank.value as real) else None,
      retrieved == [])
  }

  predicate Distinct(xs: seq<string>) {
    forall i, j | 0 <= i < j < |xs| :: xs[i] != xs[j]
  }

  function Elements(xs: seq<string>): set<string> {
    set x | x in xs
  }

  lemma {:induction false} RelevantIn(retrieved: seq<string>, gold: set<string>)
    ensures forall x :: x in Relevant(retrieved, gold) <==> x in retrieved && x in gold
    ensures Distinct(retrieved) ==> Distinct(Relevant(retrieved, gold))
    ensures |Relevant(retrieved, gold)| <= |retrieved|
  {
    if retrieved != [] {
      var p, last := retrieved[..|retrieved| - 1], retrieved[|retrieved| - 1];
      RelevantIn(p, gold);
      assert retrieved == p + [last];
    }
  }

  lemma {:induction false} DistinctSize(xs: seq<string>)
    requires Distinct(xs)
    ensures |Elements(xs)| == |xs|
  {
    if xs != [] {
      var p, last := xs[..|xs| - 1], xs[|xs| - 1];
      DistinctSize(p);
      assert xs == p + [last];
      assert Elements(xs) == Elements(p) + {last} && last !in p;
    }
  }

  lemma SubsetSize(a: set<string>, b: set<string>)
    requires a <= b
    ensures |a| <= |b|
  {
    assert b == a + (b - a);
  }

  lemma {:induction false} RelevantGrows(xs: seq<string>, m: nat, n: nat, gold: set<string>)
    requires m <= n <= |xs|
    ensures |Relevant(xs[..m], gold)| <= |Relevant(xs[..n], gold)|
  {
    if m < n {
      RelevantGrows(xs, m, n - 1, gold);
      assert xs[..n][..n - 1] == xs[..n - 1];
    }
  }

  lemma CutIs(xs: seq<string>, k: nat)
    ensures Cut(xs, k) == xs[..if k < |xs| then k else |xs|]
  {
  }

  lemma Quotients(a: nat, b: nat, n: nat)
    requires n > 0
    ensures a <= b ==> a as real / n as real <= b as real / n as real
    ensures a as real / n as real * n as real == a as real
    ensures a <= n ==> 0.0 <= a as real / n as real <= 1.0
  {
    if a <= b {
      assert a as real / n as real <= b as real / n as real;
    }
  }

  /** No more relevant results than gold entries, if results are distinct. */
  lemma RelevantBound(xs: seq<string>, gold: set<string>)
    requires Distinct(xs)
    ensures |Relevant(xs, gold)| == |Elements(xs) * gold| && |Relevant(xs, gold)| <= |gold|
    ensures |Relevant(xs, gold)| <= |xs|
  {
    RelevantIn(xs, gold);
    DistinctSize(Relevant(xs, gold));
    assert Elements(Relevant(xs, gold)) == Elements(xs) * gold;
    SubsetSize(Elements(xs) * gold, gold);
  }

  /** With distinct results and a gold set, the relevant ones are counted exactly, recall and precision lie in
      [0, 1], and both times their totals give that count. */
  lemma CaseLaws(results: seq<string>, gold: set<string>, k: nat)
    requires Distinct(results) && gold != {}
    ensures var m, xs := CalculateCase(results, gold, k), results[..if k < |results| then k else |results|];
      && m.retrievedCount == |xs| && m.relevantCount == |Elements(xs) * gold| && (m.zeroResult <==> xs == [])
      && m.recall.Some? && 0.0 <= m.recall.value <= 1.0 && 0.0 <= m.precision <= 1.0
      && m.recall.value * |gold| as real == m.relevantCount as real == m.precision * m.retrievedCount as real
  {
    hide CalculateCase, Relevant, Distinct, Cut, Elements;
    var xs := Cut(results, k);
    CutIs(results, k);
    CutDistinct(results, k);
    RelevantBound(xs, gold);
    CaseRatios(results, gold, k);
    Ratios(|Relevant(xs, gold)|, |gold|, |xs|);
  }

  lemma CutDistinct(results: seq<string>, k: nat)
    requires Distinct(results)
    ensures Distinct(Cut(results, k))
  {
  }

  lemma CaseRatios(results: seq<string>, gold: set<string>, k: nat)
    requires gold != {}
    ensures var m, xs := CalculateCase(results, gold, k), Cut(results, k);
      && m.recall == Some(|Relevant(xs, gold)| as real / |gold| as real) && m.retrievedCount == |xs| && |gold| > 0
      && m.relevantCount == |Relevant(xs, gold)| && (m.zeroResult <==> xs == [])
      && m.precision == if |xs| > 0 then |Relevant(xs, gold)| as real / |xs| as real else 0.0
  {
    hide Relevant, FirstRank, Cut;
  }

  lemma Ratios(r: nat, g: nat, n: nat)
    requires g > 0 && r <= g && r <= n
    ensures 0.0 <= r as real / g as real <= 1.0
    ensures n > 0 ==> 0.0 <= r as real / n as real <= 1.0
    ensures r as real / g as real * g as real == r as real
    ensures (if n > 0 then r as real / n as real else 0.0) * n as real == r as real
  {
    Quotients(r, r, g);
    if n > 0 {
      Quotients(r, r, n);
    }
  }

  /** Recall and hit never fall as the cutoff grows. */
  lemma CutoffMonotone(results: seq<string>, gold: set<string>, k: nat, m: nat)
    requires gold != {} && k <= m
    ensures var a, b := CalculateCase(results, gold, k), CalculateCase(results, gold, m);
      a.recall.value <= b.recall.value && (a.hit.value ==> b.hit.value)
  {
    CutIs(results, k);
    CutIs(results, m);
    RelevantGrows(results, if k < |results| then k else |results|, if m < |results| then m else |results|, gold);
    hide Relevant, FirstRank, Cut;
    Quotients(|Relevant(Cut(results, k), gold)|, |Relevant(Cut(results, m), gold)|, |gold|);
  }

  /** Recall is at most 1 whatever the gold set exactly when the results up to the cutoff are distinct: repeated
      results count again. */
  lemma RecallBoundedIff(results: seq<string>, k: nat)
    ensures (forall gold | gold != {} :: CalculateCase(results, gold, k).recall.value <= 1.0)
       <==> Distinct(Cut(results, k))
  {
    hide CalculateCase, Cut;
    var xs := Cut(results, k);
    if Distinct(xs) {
      forall gold | gold != {}
        ensures CalculateCase(results, gold, k).recall.Some? && CalculateCase(results, gold, k).recall.value <= 1.0
      {
        BoundedIfDistinct(results, gold, k);
      }
    } else {
      var i, j :| 0 <= i < j < |xs| && xs[i] == xs[j];
      RepeatExceeds(results, k, i, j);
    }
  }

  lemma BoundedIfDistinct(results: seq<string>, gold: set<string>, k: nat)
    requires Distinct(Cut(results, k)) && gold != {}
    ensures CalculateCase(results, gold, k).recall.Some? && CalculateCase(results, gold, k).recall.value <= 1.0
  {
    CaseRatios(results, gold, k);
    RelevantBound(Cut(results, k), gold);
    hide CalculateCase, Relevant, Distinct, Cut;
    Quotients(|Relevant(Cut(results, k), gold)|, |gold|, |gold|);
  }

  /** A result that comes twice has recall above 1 where it alone is relevant. */
  lemma RepeatExceeds(results: seq<string>, k: nat, i: nat, j: nat)
    requires i < j < |Cut(results, k)| && Cut(results, k)[i] == Cut(results, k)[j]
    ensures var gold := {Cut(results, k)[i]};
      gold != {} && CalculateCase(results, gold, k).recall.Some? && CalculateCase(results, gold, k).recall.value > 1.0
  {
    var xs := Cut(results, k);
    var gold := {xs[i]};
    CaseRatios(results, gold, k);
    CountedTwice(xs, i, j);
    assert |gold| == 1;
  }

  lemma CountedTwice(xs: seq<string>, i: nat, j: nat)
    requires i < j < |xs| && xs[i] == xs[j]
    ensures |Relevant(xs, {xs[i]})| >= 2
  {
    var gold := {xs[i]};
    RelevantLast(xs, i, gold);
    RelevantLast(xs, j, gold);
    RelevantGrows(xs, i + 1, j, gold);
    RelevantGrows(xs, j + 1, |xs|, gold);
    assert xs[..|xs|] == xs;
  }

  lemma RelevantLast(xs: seq<string>, i: nat, gold: set<string>)
    requires i < |xs| && xs[i] in gold
    ensures |Relevant(xs[..i + 1], gold)| == |Relevant(xs[..i], gold)| + 1
  {
    assert xs[..i + 1][..i] == xs[..i];
  }

  lemma Inverse(n: nat)
    requires n > 0
    ensures 1.0 / n as real * n as real == 1.0
  {
  }

  lemma RelevantIffRank(xs: seq<string>, gold: set<string>)
    ensures |Relevant(xs, gold)| > 0 <==> FirstRank(xs, gold).Some?
  {
    RelevantIn(xs, gold);
    var rank, relevant := FirstRank(xs, gold), Relevant(xs, gold);
    hide Relevant, FirstRank;
    assert rank.Some? ==> xs[rank.value - 1] in relevant;
    assert relevant != [] ==> relevant[0] in relevant;
  }

  /** i is the place of the first relevant result. */
  predicate FirstAt(xs: seq<string>, gold: set<string>, i: nat) {
    i < |xs| && xs[i] in gold && forall j | 0 <= j < i :: xs[j] !in gold
  }

  /** A case has a reciprocal rank exactly when it is a hit: one over the rank of the first relevant result. */
  lemma RankIffHit(results: seq<string>, gold: set<string>, k: nat)
    requires gold != {}
    ensures var m, xs := CalculateCase(results, gold, k), results[..if k < |results| then k else |results|];
      && (m.reciprocalRank.Some? <==> m.hit == Some(true))
      && (m.hit == Some(true) <==> exists i :: FirstAt(xs, gold, i))
      && (m.reciprocalRank.Some? ==>
            exists i :: FirstAt(xs, gold, i) && m.reciprocalRank.value * (i + 1) as real == 1.0)
  {
    CutIs(results, k);
    var xs := Cut(results, k);
    RelevantIffRank(xs, gold);
    var rank := FirstRank(xs, gold);
    hide Relevant, Cut;
    if rank.Some? {
      Inverse(rank.value);
      assert FirstAt(xs, gold, rank.value - 1);
    }
    hide FirstRank;
  }

  // Means --------------------------------------------------------------------------------------------

  function Sum(xs: seq<real>): real {
    if xs == [] then 0.0 else Sum(xs[..|xs| - 1]) + xs[|xs| - 1]
  }

  function Mean(xs: seq<real>): Option<real> {
    if xs == [] then None else Some(Sum(xs) / |xs| as real)
  }

  lemma {:induction false} SumConcat(a: seq<real>, b: seq<real>)
    ensures Sum(a + b) == Sum(a) + Sum(b)
  {
    if b == [] {
      assert a + b == a;
    } else {
      assert (a + b)[..|a + b| - 1] == a + b[..|b| - 1];
      SumConcat(a, b[..|b| - 1]);
    }
  }

  /** One case of the dataset with the results it was answered with. */
  datatype Case = Case(category: string, gold: set<string>, retrieved: seq<string>)

  /** One evaluated case: its category and its metrics at each reported cutoff. */
  datatype Result = Result(category: string, at: map<nat, CaseMetrics>)

  const CUTOFFS: seq<nat> := [1, 3, 5, 10]

  function EvaluateCase(c: Case): Result {
    Result(c.category, map k | k in CUTOFFS :: CalculateCase(c.retrieved, c.gold, k))
  }

  function Evaluate(cases: seq<Case>): seq<Result> {
    seq(|cases|, i requires 0 <= i < |cases| => EvaluateCase(cases[i]))
  }

  /** All cutoffs are there. */
  predicate Complete(r: Result) {
    forall k | k in CUTOFFS :: k in r.at
  }

  predicate AllComplete(rs: seq<Result>) {
    forall i | 0 <= i < |rs| :: Complete(rs[i])
  }

  predicate Measured(r: Result) {
    forall k | k in CUTOFFS :: k in r.at && r.at[k].recall.Some? && r.at[k].hit.Some?
  }

  function Pick(rs: seq<Result>, category: string): seq<Result> {
    if rs == [] then []
    else
      var last := rs[|rs| - 1];
      Pick(rs[..|rs| - 1], category) + if last.category == category then [last] else []
  }

  function Supported(rs: seq<Result>): seq<Result> {
    if rs == [] then []
    else
      var last := rs[|rs| - 1];
      Supported(rs[..|rs| - 1]) + if last.category != "unsupported" then [last] else []
  }

  datatype Metric = Recall(k: nat) | Precision(k: nat) | HitRate(k: nat) | Mrr | ZeroResultRate

  function AsNumber(b: bool): real {
    if b then 1.0 else 0.0
  }

  /** What one case contributes to a mean over cases. */
  function Share(metric: Metric, r: Result): real
    requires Measured(r) && (metric.Recall? || metric.Precision? || metric.HitRate? ==> metric.k in CUTOFFS)
  {
    match metric
    case Recall(k) => r.at[k].recall.value
    case Precision(k) => r.at[k].precision
    case HitRate(k) => AsNumber(r.at[k].hit.value)
    case Mrr => if r.at[10].reciprocalRank.Some? then r.at[10].reciprocalRank.value else 0.0
    case ZeroResultRate => AsNumber(r.at[10].zeroResult)
  }

  predicate AllMeasured(rs: seq<Result>) {
    forall i | 0 <= i < |rs| :: Measured(rs[i])
  }

  predicate Reported(metric: Metric) {
    metric.Recall? || metric.Precision? || metric.HitRate? ==> metric.k in CUTOFFS
  }

  function Shares(metric: Metric, rs: seq<Result>): seq<real>
    requires AllMeasured(rs) && Reported(metric)
  {
    seq(|rs|, i requires 0 <= i < |rs| => Share(metric, rs[i]))
  }

  /** The reciprocal ranks of the cases that have one: misses do not count at all. */
  function Ranks(rs: seq<Result>): seq<real>
    requires AllMeasured(rs)
  {
    if rs == [] then []
    else
      var rank := rs[|rs| - 1].at[10].reciprocalRank;
      Ranks(rs[..|rs| - 1]) + if rank.Some? then [rank.value] else []
  }

  function MetricOf(metric: Metric, rs: seq<Result>): Option<real>
    requires AllMeasured(rs) && Reported(metric)
  {
    if metric == Mrr then Mean(Ranks(rs)) else Mean(Shares(metric, rs))
  }

  /** The value of a call, or that it raises. */
  datatype Outcome<+T> = Returned(value: T) | Raised

  predicate AllSome(xs: seq<Option<real>>) {
    forall i | 0 <= i < |xs| :: xs[i].Some?
  }

  function Values(xs: seq<Option<real>>): seq<real>
    requires AllSome(xs)
  {
    seq(|xs|, i requires 0 <= i < |xs| => xs[i].value)
  }

  /** The mean of the values; it raises when one of them is missing. */
  method Average(values: seq<Option<real>>) returns (m: Outcome<Option<real>>)
    ensures m == if AllSome(values) then Returned(Mean(Values(values))) else Raised
  {
    var total := 0.0;
    assert values[..0] == [];
    for i := 0 to |values|
      invariant AllSome(values[..i]) && total == Sum(Values(values[..i]))
    {
      if values[i] == None {
        return Raised;
      }
      OneMore(values, i);
      total := total + values[i].value;
    }
    assert values[..|values|] == values;
    hide Sum, Values;
    m := Returned(if values == [] then None else Some(total / |values| as real));
  }

  lemma OneMore(values: seq<Option<real>>, i: nat)
    requires i < |values| && AllSome(values[..i]) && values[i].Some?
    ensures AllSome(values[..i + 1]) && Sum(Values(values[..i + 1])) == Sum(Values(values[..i])) + values[i].value
  {
    var p, x := Values(values[..i]), values[i].value;
    assert Values(values[..i + 1]) == p + [x];
    assert (p + [x])[..|p|] == p;
  }

  /** What one case enters into a mean, if anything. */
  function Entry(metric: Metric, r: Result): Option<real>
    requires Complete(r) && Reported(metric)
  {
    match metric
    case Recall(k) => r.at[k].recall
    case Precision(k) => Some(r.at[k].precision)
    case HitRate(k) => if r.at[k].hit.Some? then Some(AsNumber(r.at[k].hit.value)) else None
    case Mrr => r.at[10].reciprocalRank
    case ZeroResultRate => Some(AsNumber(r.at[10].zeroResult))
  }

  function Entries(metric: Metric, rs: seq<Result>): seq<Option<real>>
    requires AllComplete(rs) && Reported(metric)
  {
    seq(|rs|, i requires 0 <= i < |rs| => Entry(metric, rs[i]))
  }

  /** The entries that are there. */
  function Present(xs: seq<Option<real>>): (r: seq<Option<real>>)
    ensures AllSome(r)
  {
    if xs == [] then []
    else
      var last := xs[|xs| - 1];
      Present(xs[..|xs| - 1]) + if last.Some? then [last] else []
  }

  lemma EntriesMeasured(metric: Metric, rs: seq<Result>)
    requires AllMeasured(rs) && Reported(metric) && metric != Mrr
    ensures AllComplete(rs) && AllSome(Entries(metric, rs)) && Values(Entries(metric, rs)) == Shares(metric, rs)
  {
  }

  lemma {:induction false} RanksPresent(rs: seq<Result>)
    requires AllMeasured(rs)
    ensures AllComplete(rs) && Values(Present(Entries(Mrr, rs))) == Ranks(rs)
  {
    assert AllComplete(rs);
    var xs := Entries(Mrr, rs);
    if rs != [] {
      var p := rs[..|rs| - 1];
      RanksPresent(p);
      assert xs[..|xs| - 1] == Entries(Mrr, p);
    }
  }

  lemma MeasuredAt(rs: seq<Result>)
    requires AllComplete(rs)
    requires forall k | k in CUTOFFS :: AllSome(Entries(Recall(k), rs)) && AllSome(Entries(HitRate(k), rs))
    ensures AllMeasured(rs)
  {
    forall i, k | 0 <= i < |rs| && k in CUTOFFS
      ensures rs[i].at[k].recall.Some? && rs[i].at[k].hit.Some?
    {
      assert Entries(Recall(k), rs)[i].Some? && Entries(HitRate(k), rs)[i].Some?;
    }
  }

  /** The mean of a metric as the report computes it. */
  function Averaged(metric: Metric, rs: seq<Result>): Outcome<Option<real>>
    requires AllComplete(rs) && Reported(metric)
  {
    var xs := if metric == Mrr then Present(Entries(metric, rs)) else Entries(metric, rs);
    if AllSome(xs) then Returned(Mean(Values(xs))) else Raised
  }

  lemma AveragedMeasured(metric: Metric, rs: seq<Result>)
    requires AllMeasured(rs) && Reported(metric)
    ensures AllComplete(rs) && Averaged(metric, rs) == Returned(MetricOf(metric, rs))
  {
    if metric == Mrr {
      RanksPresent(rs);
    } else {
      EntriesMeasured(metric, rs);
    }
    hide Mean, Values, Entries, Shares, Ranks, Present, AllMeasured, AllComplete, AllSome;
  }

  method AverageMetric(metric: Metric, rs: seq<Result>) returns (m: Outcome<Option<real>>)
    requires AllComplete(rs) && Reported(metric)
    ensures m == Averaged(metric, rs)
  {
    hide Mean, Entries, Present, AllSome, Values;
    m := Average(if metric == Mrr then Present(Entries(metric, rs)) else Entries(metric, rs));
  }

  type Means = map<Metric, Option<real>>

  /** All reported metrics with their means. */
  ghost predicate MeansOf(means: Means, rs: seq<Result>)
    requires AllMeasured(rs)
  {
    && (forall m: Metric :: m in means <==> Reported(m))
    && forall m | m in means :: means[m] == MetricOf(m, rs)
  }

  predicate AtCutoff(m: Metric, k: nat) {
    m == Recall(k) || m == Precision(k) || m == HitRate(k)
  }

  /** The means at the first i cutoffs. */
  ghost predicate UpTo(means: Means, rs: seq<Result>, i: nat)
    requires AllComplete(rs) && i <= |CUTOFFS|
  {
    && (forall m: Metric :: m in means <==> (m.Recall? || m.Precision? || m.HitRate?) && m.k in CUTOFFS[..i])
    && AllReturned(means, rs)
  }

  ghost predicate AllReturned(means: Means, rs: seq<Result>)
    requires AllComplete(rs)
  {
    forall m | m in means :: Reported(m) && Averaged(m, rs) == Returned(means[m])
  }

  method AverageCutoff(rs: seq<Result>, k: nat, before: Means) returns (r: Outcome<Means>)
    requires AllComplete(rs) && k in CUTOFFS && AllReturned(before, rs)
    ensures r.Raised? ==> !AllMeasured(rs)
    ensures r.Returned? ==> AllReturned(r.value, rs)
    ensures r.Returned? ==> forall m: Metric :: m in r.value <==> m in before || AtCutoff(m, k)
  {
    hide Averaged, AllMeasured, AllComplete;
    var recall := AverageMetric(Recall(k), rs);
    var precision := AverageMetric(Precision(k), rs);
    var hits := AverageMetric(HitRate(k), rs);
    if recall.Raised? || precision.Raised? || hits.Raised? {
      NotMeasured(rs, k);
      return Raised;
    }
    r := Returned(before[Recall(k) := recall.value][Precision(k) := precision.value][HitRate(k) := hits.value]);
  }

  lemma NoCutoffs(rs: seq<Result>)
    requires AllComplete(rs)
    ensures UpTo(map[], rs, 0)
  {
  }

  lemma UpToReturned(means: Means, rs: seq<Result>, i: nat)
    requires AllComplete(rs) && i <= |CUTOFFS| && UpTo(means, rs, i)
    ensures AllReturned(means, rs)
  {
  }

  lemma TwoMore(means: Means, rs: seq<Result>, mrr: Option<real>, zero: Option<real>)
    requires AllComplete(rs) && UpTo(means, rs, |CUTOFFS|)
    requires Averaged(Mrr, rs) == Returned(mrr) && Averaged(ZeroResultRate, rs) == Returned(zero)
    ensures AllMeasured(rs) && MeansOf(means[Mrr := mrr][ZeroResultRate := zero], rs)
  {
    hide Averaged, AllMeasured, AllComplete, MeansOf;
    assert CUTOFFS[..|CUTOFFS|] == CUTOFFS;
    AllAveraged(means[Mrr := mrr][ZeroResultRate := zero], rs);
  }

  lemma OneCutoffMore(before: Means, after: Means, rs: seq<Result>, i: nat)
    requires AllComplete(rs) && i < |CUTOFFS| && UpTo(before, rs, i) && AllReturned(after, rs)
    requires forall m: Metric :: m in after <==> m in before || AtCutoff(m, CUTOFFS[i])
    ensures UpTo(after, rs, i + 1)
  {
    hide AllReturned, AllComplete;
    assert CUTOFFS[..i + 1] == CUTOFFS[..i] + [CUTOFFS[i]];
  }

  /** The report on the supported cases: a mean per metric. It raises exactly when one of them has no gold entry. */
  method AggregateMetrics(results: seq<Result>) returns (r: Outcome<Means>)
    requires AllComplete(results)
    ensures r.Returned? <==> AllMeasured(Supported(results))
    ensures r.Returned? ==> MeansOf(r.value, Supported(results))
  {
    SupportedComplete(results);
    var selected := Supported(results);
    hide Averaged, AllMeasured, AllComplete, Supported, MeansOf, UpTo, AllReturned, CUTOFFS;
    NoCutoffs(selected);
    var metrics: Means := map[];
    for i := 0 to |CUTOFFS|
      invariant UpTo(metrics, selected, i)
    {
      UpToReturned(metrics, selected, i);
      assert CUTOFFS[i] in CUTOFFS;
      var more := AverageCutoff(selected, CUTOFFS[i], metrics);
      if more.Raised? {
        return Raised;
      }
      OneCutoffMore(metrics, more.value, selected, i);
      metrics := more.value;
    }
    var mrr := AverageMetric(Mrr, selected);
    var zero := AverageMetric(ZeroResultRate, selected);
    AlwaysThere(selected);
    TwoMore(metrics, selected, mrr.value, zero.value);
    r := Returned(metrics[Mrr := mrr.value][ZeroResultRate := zero.value]);
  }

  lemma {:induction false} SupportedComplete(rs: seq<Result>)
    requires AllComplete(rs)
    ensures AllComplete(Supported(rs))
  {
    if rs != [] {
      SupportedComplete(rs[..|rs| - 1]);
    }
  }

  lemma AlwaysThere(rs: seq<Result>)
    requires AllComplete(rs)
    ensures Averaged(Mrr, rs).Returned? && Averaged(ZeroResultRate, rs).Returned?
  {
    assert AllSome(Entries(ZeroResultRate, rs));
  }

  lemma NotMeasured(rs: seq<Result>, k: nat)
    requires AllComplete(rs) && k in CUTOFFS
    ensures Averaged(Recall(k), rs).Raised? || Averaged(Precision(k), rs).Raised? || Averaged(HitRate(k), rs).Raised?
      ==> !AllMeasured(rs)
  {
    if AllMeasured(rs) {
      AveragedMeasured(Recall(k), rs);
      AveragedMeasured(Precision(k), rs);
      AveragedMeasured(HitRate(k), rs);
      hide Averaged, AllMeasured;
    }
  }

  lemma AllAveraged(means: Means, rs: seq<Result>)
    requires AllComplete(rs) && forall m: Metric :: m in means <==> Reported(m)
    requires AllReturned(means, rs)
    ensures AllMeasured(rs) && MeansOf(means, rs)
  {
    forall k | k in CUTOFFS
      ensures AllSome(Entries(Recall(k), rs)) && AllSome(Entries(HitRate(k), rs))
    {
      assert Recall(k) in means && HitRate(k) in means;
    }
    hide AllSome, Entries;
    MeasuredAt(rs);
    hide AllMeasured, Averaged, MetricOf;
    forall m | m in means
      ensures means[m] == MetricOf(m, rs)
    {
      AveragedMeasured(m, rs);
    }
  }

  // Categories ---------------------------------------------------------------------------------------

  const CATEGORIES: seq<string> := ["direct", "multi-chunk", "distractor", "scope/filter"]

  /** The supported cases have all they need for the means; the others never do. */
  predicate SupportedMeasured(rs: seq<Result>) {
    forall i | 0 <= i < |rs| && rs[i].category != "unsupported" :: Measured(rs[i])
  }

  predicate Categorised(rs: seq<Result>) {
    forall i | 0 <= i < |rs| :: rs[i].category in CATEGORIES || rs[i].category == "unsupported"
  }

  /** The sum of a metric's shares over the first n categories. */
  function TotalOver(metric: Metric, rs: seq<Result>, n: nat): real
    requires SupportedMeasured(rs) && Reported(metric) && n <= |CATEGORIES|
  {
    if n == 0 then 0.0
    else
      UnsupportedIsNone();
      PickMeasured(rs, CATEGORIES[n - 1]);
      TotalOver(metric, rs, n - 1) + Sum(Shares(metric, Pick(rs, CATEGORIES[n - 1])))
  }

  function CasesOver(rs: seq<Result>, n: nat): nat
    requires n <= |CATEGORIES|
  {
    if n == 0 then 0 else CasesOver(rs, n - 1) + |Pick(rs, CATEGORIES[n - 1])|
  }

  lemma {:induction false} PickMeasured(rs: seq<Result>, category: string)
    requires SupportedMeasured(rs)
    ensures (category != "unsupported" ==> AllMeasured(Pick(rs, category))) && AllMeasured(Supported(rs))
  {
    if rs != [] {
      PickMeasured(rs[..|rs| - 1], category);
    }
  }

  lemma SharesMore(metric: Metric, rs: seq<Result>, r: Result)
    requires AllMeasured(rs + [r]) && Reported(metric)
    ensures AllMeasured(rs) && Measured(r)
    ensures Sum(Shares(metric, rs + [r])) == Sum(Shares(metric, rs)) + Share(metric, r)
  {
    var all := rs + [r];
    assert all[|rs|] == r && forall i | 0 <= i < |rs| :: all[i] == rs[i];
    assert Shares(metric, all) == Shares(metric, rs) + [Share(metric, r)];
    SumConcat(Shares(metric, rs), [Share(metric, r)]);
    assert [Share(metric, r)][..0] == [];
  }

  lemma PickMore(metric: Metric, p: seq<Result>, r: Result, c: string)
    requires SupportedMeasured(p + [r]) && Reported(metric) && c != "unsupported"
    ensures SupportedMeasured(p) && (r.category == c ==> Measured(r))
    ensures AllMeasured(Pick(p, c)) && AllMeasured(Pick(p + [r], c))
    ensures Sum(Shares(metric, Pick(p + [r], c)))
      == Sum(Shares(metric, Pick(p, c))) + if r.category == c then Share(metric, r) else 0.0
    ensures |Pick(p + [r], c)| == |Pick(p, c)| + if r.category == c then 1 else 0
  {
    var all := p + [r];
    assert all[..|all| - 1] == p && all[|all| - 1] == r;
    assert forall i | 0 <= i < |p| :: all[i] == p[i];
    PickMeasured(p, c);
    PickMeasured(all, c);
    hide Shares, Sum, Measured;
    if r.category == c {
      SharesMore(metric, Pick(p, c), r);
    } else {
      assert Pick(p, c) + [] == Pick(p, c);
    }
  }

  lemma AmongFirst(n: nat)
    requires 0 < n <= |CATEGORIES|
    ensures CATEGORIES[n - 1] !in CATEGORIES[..n - 1]
    ensures forall c :: c in CATEGORIES[..n] <==> c in CATEGORIES[..n - 1] || c == CATEGORIES[n - 1]
  {
    assert CATEGORIES[..n] == CATEGORIES[..n - 1] + [CATEGORIES[n - 1]];
  }

  /** One more case counts in exactly one of the categories. */
  lemma {:induction false} OneCategory(metric: Metric, p: seq<Result>, r: Result, n: nat)
    requires SupportedMeasured(p + [r]) && Reported(metric) && n <= |CATEGORIES|
    ensures SupportedMeasured(p) && (r.category in CATEGORIES[..n] ==> Measured(r))
    ensures TotalOver(metric, p + [r], n)
      == TotalOver(metric, p, n) + if r.category in CATEGORIES[..n] then Share(metric, r) else 0.0
    ensures CasesOver(p + [r], n) == CasesOver(p, n) + if r.category in CATEGORIES[..n] then 1 else 0
  {
    PickMore(metric, p, r, "");
    UnsupportedIsNone();
    InCategories(r, n);
    hide Shares, Sum, Pick, Measured, AllMeasured, Share;
    if n > 0 {
      OneCategory(metric, p, r, n - 1);
      PickMore(metric, p, r, CATEGORIES[n - 1]);
      AmongFirst(n);
    }
  }

  /** The supported cases are split among the categories without loss or overlap. */
  lemma {:induction false} CategoriesPartition(metric: Metric, rs: seq<Result>)
    requires SupportedMeasured(rs) && Reported(metric) && Categorised(rs)
    ensures AllMeasured(Supported(rs))
    ensures Sum(Shares(metric, Supported(rs))) == TotalOver(metric, rs, |CATEGORIES|)
    ensures |Supported(rs)| == CasesOver(rs, |CATEGORIES|)
  {
    PickMeasured(rs, "");
    if rs == [] {
      NoneOver(metric, |CATEGORIES|);
    } else {
      var p, r := rs[..|rs| - 1], rs[|rs| - 1];
      assert rs == p + [r] && CATEGORIES[..|CATEGORIES|] == CATEGORIES;
      assert r.category in CATEGORIES <==> r.category != "unsupported" by {
        UnsupportedIsNone();
      }
      assert SupportedMeasured(p) && Categorised(p);
      hide Shares, Sum, Share, TotalOver, CasesOver, Categorised, AllMeasured, Measured, SupportedMeasured;
      CategoriesPartition(metric, p);
      OneCategory(metric, p, r, |CATEGORIES|);
      if r.category != "unsupported" {
        assert Supported(rs) == Supported(p) + [r];
        SharesMore(metric, Supported(p), r);
      } else {
        assert Supported(p) + [] == Supported(p);
      }
    }
  }

  lemma InCategories(r: Result, n: nat)
    requires n <= |CATEGORIES|
    ensures r.category in CATEGORIES[..n] ==> r.category != "unsupported"
  {
    UnsupportedIsNone();
    assert forall c | c in CATEGORIES[..n] :: c in CATEGORIES;
  }

  lemma UnsupportedIsNone()
    ensures "unsupported" !in CATEGORIES
  {
    assert |"unsupported"| == 11 && |"direct"| == 6 && |"scope/filter"| == 12;
    assert "multi-chunk"[0] == 'm' && "distractor"[0] == 'd';
  }

  lemma {:induction false} NoneOver(metric: Metric, n: nat)
    requires Reported(metric) && n <= |CATEGORIES|
    ensures TotalOver(metric, [], n) == 0.0 && CasesOver([], n) == 0
  {
    if n > 0 {
      NoneOver(metric, n - 1);
      assert Shares(metric, []) == [];
    }
  }

  /** The sum of case counts times category means over the first n categories. */
  function Weighted(metric: Metric, rs: seq<Result>, n: nat): real
    requires SupportedMeasured(rs) && Reported(metric) && metric != Mrr && n <= |CATEGORIES|
  {
    if n == 0 then 0.0
    else
      UnsupportedIsNone();
      PickMeasured(rs, CATEGORIES[n - 1]);
      var own := Pick(rs, CATEGORIES[n - 1]);
      Weighted(metric, rs, n - 1) + if own == [] then 0.0 else |own| as real * MetricOf(metric, own).value
  }

  lemma MeanTimes(xs: seq<real>)
    requires xs != []
    ensures Mean(xs).Some? && |xs| as real * Mean(xs).value == Sum(xs)
  {
    hide Sum;
    Restores(Sum(xs), |xs|);
  }

  lemma {:induction false} WeightedTotal(metric: Metric, rs: seq<Result>, n: nat)
    requires SupportedMeasured(rs) && Reported(metric) && metric != Mrr && n <= |CATEGORIES|
    ensures Weighted(metric, rs, n) == TotalOver(metric, rs, n)
  {
    hide Sum, Pick, Mean, Share, Measured;
    if n > 0 {
      WeightedTotal(metric, rs, n - 1);
      UnsupportedIsNone();
      PickMeasured(rs, CATEGORIES[n - 1]);
      var own := Pick(rs, CATEGORIES[n - 1]);
      assert |Shares(metric, own)| == |own|;
      if own == [] {
        SumNone();
      } else {
        MeanTimes(Shares(metric, own));
      }
    }
  }

  lemma SumNone()
    ensures Sum([]) == 0.0
  {
  }

  lemma Restores(total: real, n: nat)
    requires n > 0
    ensures n as real * (total / n as real) == total
  {
  }

  /** The overall value is the mean of the category values, weighted by the number of cases in each. */
  predicate IsWeightedMean(metric: Metric, rs: seq<Result>)
    requires SupportedMeasured(rs) && AllMeasured(Supported(rs)) && Reported(metric) && metric != Mrr
  {
    && MetricOf(metric, Supported(rs)).Some?
    && MetricOf(metric, Supported(rs)).value * CasesOver(rs, |CATEGORIES|) as real
       == Weighted(metric, rs, |CATEGORIES|)
  }

  /** Overall recall, precision, hit rate and zero-result rate are weighted means of the category ones. */
  lemma OverallIsWeightedMean(metric: Metric, rs: seq<Result>)
    requires SupportedMeasured(rs) && Reported(metric) && metric != Mrr && Categorised(rs) && Supported(rs) != []
    ensures AllMeasured(Supported(rs)) && IsWeightedMean(metric, rs)
  {
    hide Sum, Shares, Mean, Supported, Weighted, TotalOver, CasesOver, Categorised, AllMeasured, SupportedMeasured;
    CategoriesPartition(metric, rs);
    WeightedTotal(metric, rs, |CATEGORIES|);
    SharesCount(metric, Supported(rs));
    MeanTimes(Shares(metric, Supported(rs)));
  }

  lemma SharesCount(metric: Metric, rs: seq<Result>)
    requires AllMeasured(rs) && Reported(metric)
    ensures |Shares(metric, rs)| == |rs|
  {
  }

  // Mean reciprocal rank -----------------------------------------------------------------------------

  /** A case is a hit at ten exactly when it has a reciprocal rank there. */
  predicate RanksAreHits(rs: seq<Result>) {
    forall i | 0 <= i < |rs| :: Measured(rs[i]) && (rs[i].at[10].reciprocalRank.Some? <==> rs[i].at[10].hit.value)
  }

  lemma {:induction false} RankSums(rs: seq<Result>)
    requires AllMeasured(rs) && RanksAreHits(rs)
    ensures Sum(Ranks(rs)) == Sum(Shares(Mrr, rs))
    ensures |Ranks(rs)| as real == Sum(Shares(HitRate(10), rs))
  {
    if rs == [] {
      assert Shares(Mrr, rs) == [] && Shares(HitRate(10), rs) == [];
    } else {
      var p, r := rs[..|rs| - 1], rs[|rs| - 1];
      RankSums(p);
      assert rs == p + [r];
      SharesMore(Mrr, p, r);
      SharesMore(HitRate(10), p, r);
      RankMore(p, r);
      hide Sum, Shares, Ranks, Measured, AllMeasured;
    }
  }

  lemma RankMore(p: seq<Result>, r: Result)
    requires AllMeasured(p + [r]) && RanksAreHits(p + [r])
    ensures AllMeasured(p) && Measured(r)
    ensures Sum(Ranks(p + [r])) == Sum(Ranks(p)) + Share(Mrr, r)
    ensures |Ranks(p + [r])| as real == |Ranks(p)| as real + Share(HitRate(10), r)
  {
    var all := p + [r];
    assert all[|p|] == r && all[..|all| - 1] == p && forall i | 0 <= i < |p| :: all[i] == p[i];
    var rank := r.at[10].reciprocalRank;
    hide Measured;
    if rank.Some? {
      assert (Ranks(p) + [rank.value])[..|Ranks(p)|] == Ranks(p);
    } else {
      assert Ranks(p) + [] == Ranks(p);
    }
  }

  /** The reported mrr leaves misses out: times the hit rate at ten it is the mean reciprocal rank with misses
      counted as zero, and it is missing exactly when nothing was hit. */
  predicate MrrLeavesMissesOut(rs: seq<Result>)
    requires AllMeasured(rs)
  {
    var mrr, hits, full := MetricOf(Mrr, rs), MetricOf(HitRate(10), rs), Mean(Shares(Mrr, rs));
    && hits.Some? && full.Some? && (mrr == None <==> hits.value == 0.0)
    && (if mrr.Some? then mrr.value * hits.value == full.value else full.value == 0.0)
  }

  lemma MrrTimesHitRate(rs: seq<Result>)
    requires AllMeasured(rs) && RanksAreHits(rs) && rs != []
    ensures MrrLeavesMissesOut(rs)
  {
    RankSums(rs);
    var n, h, total := |rs| as real, |Ranks(rs)|, Sum(Ranks(rs));
    assert |Shares(HitRate(10), rs)| == |rs| == |Shares(Mrr, rs)|;
    if h > 0 {
      Chained(total, h as real, n);
    }
  }

  lemma Chained(total: real, h: real, n: real)
    requires h > 0.0 && n > 0.0
    ensures (total / h) * (h / n) == total / n && h / n != 0.0
  {
    assert total / h * h == total;
    assert (total / h) * (h / n) * n == (total / h) * h;
  }
}
