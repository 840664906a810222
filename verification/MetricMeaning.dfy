/** What the reported numbers are, told by the results and gold entries of the cases alone. */
module MetricMeaning {
  import opened Text
  import opened Metrics
  import opened Evaluation

  /** The results up to the cutoff. */
  function Top(c: Case, k: nat): seq<string> {
    c.retrieved[..if k < |c.retrieved| then k else |c.retrieved|]
  }

  /** How many of the results are gold entries, repeated ones counted each time. */
  function Hits(xs: seq<string>, gold: set<string>): nat {
    if xs == [] then 0 else (if xs[0] in gold then 1 else 0) + Hits(xs[1..], gold)
  }

  /** The place of the first gold entry, counted from one; behind the end when there is none. */
  function Place(xs: seq<string>, gold: set<string>): nat {
    if xs == [] || xs[0] in gold then 1 else 1 + Place(xs[1..], gold)
  }

  /** The number one case enters into the mean of a metric. */
  function Figure(metric: Metric, c: Case): real {
    match metric
    case Recall(k) => if c.gold == {} then 0.0 else Hits(Top(c, k), c.gold) as real / |c.gold| as real
    case Precision(k) => if Top(c, k) == [] then 0.0 else Hits(Top(c, k), c.gold) as real / |Top(c, k)| as real
    case HitRate(k) => if Hits(Top(c, k), c.gold) > 0 then 1.0 else 0.0
    case Mrr => if Hits(Top(c, 10), c.gold) > 0 then 1.0 / Place(Top(c, 10), c.gold) as real else 0.0
    case ZeroResultRate => if Top(c, 10) == [] then 1.0 else 0.0
  }

  predicate Belongs(category: string, c: Case) {
    if category == "all_supported" then c.category != "unsupported" else c.category == category
  }

  /** Which cases a mean is over: those of a category, or all supported ones; the mean rank is over hits only. */
  predicate Wanted(metric: Metric, category: string, c: Case) {
    Belongs(category, c) && Enters(metric, c)
  }

  predicate Enters(metric: Metric, c: Case) {
    metric == Mrr ==> Hits(Top(c, 10), c.gold) > 0
  }

  function Total(metric: Metric, category: string, cases: seq<Case>): real {
    if cases == [] then 0.0
    else
      var last := cases[|cases| - 1];
      Total(metric, category, cases[..|cases| - 1])
      + if Wanted(metric, category, last) then Figure(metric, last) else 0.0
  }

  function Number(metric: Metric, category: string, cases: seq<Case>): nat {
    if cases == [] then 0
    else
      Number(metric, category, cases[..|cases| - 1]) + if Wanted(metric, category, cases[|cases| - 1]) then 1 else 0
  }

  lemma {:induction false} HitsLast(p: seq<string>, x: string, gold: set<string>)
    ensures Hits(p + [x], gold) == Hits(p, gold) + if x in gold then 1 else 0
  {
    var all := p + [x];
    if p == [] {
      assert all[1..] == [];
    } else {
      assert all[1..] == p[1..] + [x];
      HitsLast(p[1..], x, gold);
    }
  }

  lemma {:induction false} HitsAreRelevant(xs: seq<string>, gold: set<string>)
    ensures |Relevant(xs, gold)| == Hits(xs, gold)
  {
    if xs != [] {
      var p := xs[..|xs| - 1];
      HitsAreRelevant(p, gold);
      HitsLast(p, xs[|xs| - 1], gold);
      assert p + [xs[|xs| - 1]] == xs;
    }
  }

  lemma {:induction false} PlaceIsRank(xs: seq<string>, gold: set<string>)
    ensures FirstRank(xs, gold).Some? <==> Hits(xs, gold) > 0
    ensures FirstRank(xs, gold).Some? ==> FirstRank(xs, gold).value == Place(xs, gold)
  {
    if xs != [] {
      PlaceIsRank(xs[1..], gold);
    }
  }

  /** The metrics of a case with gold entries at a cutoff are its figures. */
  lemma CaseFigures(c: Case, k: nat)
    requires c.gold != {}
    ensures var m := CalculateCase(c.retrieved, c.gold, k);
      && m.recall == Some(Figure(Recall(k), c)) && m.precision == Figure(Precision(k), c)
      && m.hit == Some(Hits(Top(c, k), c.gold) > 0) && (m.zeroResult <==> Top(c, k) == [])
      && (m.reciprocalRank.Some? <==> Hits(Top(c, k), c.gold) > 0)
      && (m.reciprocalRank.Some? ==> m.reciprocalRank.value == 1.0 / Place(Top(c, k), c.gold) as real)
  {
    CutIs(c.retrieved, k);
    HitsAreRelevant(Top(c, k), c.gold);
    PlaceIsRank(Top(c, k), c.gold);
    hide Relevant, FirstRank, Hits, Place, Cut;
  }

  /** What an evaluated case shares is its figure. */
  lemma ShareIsFigure(metric: Metric, c: Case)
    requires c.gold != {} && Reported(metric)
    ensures Measured(EvaluateCase(c)) && Share(metric, EvaluateCase(c)) == Figure(metric, c)
    ensures EvaluateCase(c).at[10].reciprocalRank.Some? <==> Hits(Top(c, 10), c.gold) > 0
  {
    MeasuredIffGold(c);
    assert 10 in CUTOFFS;
    CaseFigures(c, 10);
    if metric.Recall? || metric.Precision? || metric.HitRate? {
      CaseFigures(c, metric.k);
    }
    hide CalculateCase, Hits, Place, Top, Measured;
  }

  /** The evaluated cases of a category, or all supported ones. */
  function Chosen(category: string, rs: seq<Result>): seq<Result> {
    if category == "all_supported" then Supported(rs) else Pick(rs, category)
  }

  predicate Named(category: string) {
    category == "all_supported" || category in CATEGORIES
  }

  lemma ChosenMore(category: string, p: seq<Result>, c: Case)
    ensures Chosen(category, p + [EvaluateCase(c)])
      == Chosen(category, p) + if Belongs(category, c) then [EvaluateCase(c)] else []
  {
    var all := p + [EvaluateCase(c)];
    assert all[..|all| - 1] == p;
  }

  lemma MeasuredMore(rs: seq<Result>, c: Case)
    requires AllMeasured(rs) && c.gold != {}
    ensures AllMeasured(rs + [EvaluateCase(c)])
  {
    MeasuredIffGold(c);
    hide Measured, EvaluateCase;
  }

  lemma SharesStep(metric: Metric, rs: seq<Result>, c: Case)
    requires AllMeasured(rs) && c.gold != {} && Reported(metric)
    ensures var all := rs + [EvaluateCase(c)];
      && AllMeasured(all) && |Shares(metric, all)| == |Shares(metric, rs)| + 1
      && Sum(Shares(metric, all)) == Sum(Shares(metric, rs)) + Figure(metric, c)
  {
    MeasuredMore(rs, c);
    ShareIsFigure(metric, c);
    SharesMore(metric, rs, EvaluateCase(c));
    hide Figure, Share, Sum, EvaluateCase, Measured;
  }

  lemma RanksStep(rs: seq<Result>, c: Case)
    requires AllMeasured(rs) && c.gold != {}
    ensures var all := rs + [EvaluateCase(c)];
      && AllMeasured(all)
      && |Ranks(all)| == |Ranks(rs)| + (if Hits(Top(c, 10), c.gold) > 0 then 1 else 0)
      && Sum(Ranks(all)) == Sum(Ranks(rs)) + Figure(Mrr, c)
  {
    MeasuredMore(rs, c);
    ShareIsFigure(Mrr, c);
    var r := EvaluateCase(c);
    var all := rs + [r];
    assert all[..|rs|] == rs && all[|rs|] == r;
    var rank := r.at[10].reciprocalRank;
    hide Figure, EvaluateCase, Measured, Hits, Top;
    if rank.Some? {
      assert (Ranks(rs) + [rank.value])[..|Ranks(rs)|] == Ranks(rs);
    } else {
      assert Ranks(rs) + [] == Ranks(rs);
    }
  }

  lemma NoHitNoFigure(c: Case)
    ensures Hits(Top(c, 10), c.gold) == 0 ==> Figure(Mrr, c) == 0.0
  {
  }

  lemma NotUnsupported(category: string, c: Case)
    requires Named(category)
    ensures Belongs(category, c) ==> c.category != "unsupported"
  {
    UnsupportedIsNone();
    assert |"all_supported"| != |"unsupported"|;
  }

  /** The values a mean is over. */
  function Averages(metric: Metric, rs: seq<Result>): seq<real>
    requires AllMeasured(rs) && Reported(metric)
  {
    if metric == Mrr then Ranks(rs) else Shares(metric, rs)
  }

  predicate Tallied(metric: Metric, category: string, cases: seq<Case>, xs: seq<real>) {
    Sum(xs) == Total(metric, category, cases) && |xs| == Number(metric, category, cases)
  }

  lemma TallyMore(metric: Metric, category: string, p: seq<Case>, c: Case, xs: seq<real>, ys: seq<real>)
    requires Tallied(metric, category, p, xs)
    requires Sum(ys) == Sum(xs) + if Wanted(metric, category, c) then Figure(metric, c) else 0.0
    requires |ys| == |xs| + if Wanted(metric, category, c) then 1 else 0
    ensures Tallied(metric, category, p + [c], ys)
  {
    var all := p + [c];
    assert all[..|all| - 1] == p && all[|all| - 1] == c;
    hide Wanted, Figure, Sum;
  }

  lemma AveragesMore(metric: Metric, rs: seq<Result>, c: Case)
    requires AllMeasured(rs) && c.gold != {} && Reported(metric)
    ensures var all := rs + [EvaluateCase(c)];
      && AllMeasured(all)
      && |Averages(metric, all)| == |Averages(metric, rs)| + (if Enters(metric, c) then 1 else 0)
      && Sum(Averages(metric, all)) == Sum(Averages(metric, rs)) + if Enters(metric, c) then Figure(metric, c) else 0.0
  {
    hide Figure, Sum, EvaluateCase, AllMeasured, Hits, Top, Ranks, Shares;
    if metric == Mrr {
      RanksStep(rs, c);
      NoHitNoFigure(c);
    } else {
      SharesStep(metric, rs, c);
    }
  }

  lemma TallyNone(metric: Metric, category: string)
    requires Reported(metric)
    ensures AllMeasured(Chosen(category, Evaluate([])))
    ensures Tallied(metric, category, [], Averages(metric, Chosen(category, Evaluate([]))))
  {
    assert Evaluate([]) == [];
    assert Chosen(category, []) == [];
    assert Averages(metric, []) == [];
  }

  lemma FrontGauged(p: seq<Case>, c: Case)
    requires Gauged(p + [c])
    ensures Gauged(p) && (c.category != "unsupported" ==> c.gold != {})
    ensures Evaluate(p + [c]) == Evaluate(p) + [EvaluateCase(c)]
  {
    var all := p + [c];
    assert all[|p|] == c && forall i | 0 <= i < |p| :: all[i] == p[i];
    hide EvaluateCase;
  }

  lemma TallyStep(metric: Metric, category: string, p: seq<Case>, c: Case, rs: seq<Result>, all: seq<Result>)
    requires Reported(metric) && AllMeasured(rs) && Tallied(metric, category, p, Averages(metric, rs))
    requires all == rs + if Belongs(category, c) then [EvaluateCase(c)] else []
    requires Belongs(category, c) ==> c.gold != {}
    ensures AllMeasured(all) && Tallied(metric, category, p + [c], Averages(metric, all))
  {
    hide Tallied, Belongs, EvaluateCase, AllMeasured, Averages, Figure, Sum, Hits, Top, Reported;
    if Belongs(category, c) {
      AveragesMore(metric, rs, c);
    } else {
      assert rs + [] == rs;
    }
    TallyMore(metric, category, p, c, Averages(metric, rs), Averages(metric, all));
  }

  lemma {:induction false} Tally(metric: Metric, category: string, cases: seq<Case>)
    requires Gauged(cases) && Named(category) && Reported(metric)
    ensures AllMeasured(Chosen(category, Evaluate(cases)))
    ensures Tallied(metric, category, cases, Averages(metric, Chosen(category, Evaluate(cases))))
  {
    hide *;
    if cases == [] {
      TallyNone(metric, category);
    } else {
      var p, c := cases[..|cases| - 1], cases[|cases| - 1];
      assert cases == p + [c];
      FrontGauged(p, c);
      Tally(metric, category, p);
      ChosenMore(category, Evaluate(p), c);
      NotUnsupported(category, c);
      TallyStep(metric, category, p, c, Chosen(category, Evaluate(p)), Chosen(category, Evaluate(cases)));
    }
  }

  /** There is a mean of some numbers exactly if there are any; times how many they are it is their sum. */
  lemma MeanOf(xs: seq<real>)
    ensures Mean(xs) == None <==> |xs| == 0
    ensures Mean(xs).Some? ==> Mean(xs).value * |xs| as real == Sum(xs)
  {
    if xs != [] {
      MeanTimes(xs);
    }
  }

  /** Every mean in the report is the sum of the figures of the cases it is over, divided by their number; without such
      cases there is none. */
  lemma MeanIs(metric: Metric, category: string, cases: seq<Case>)
    requires Gauged(cases) && Named(category) && Reported(metric)
    ensures AllMeasured(Chosen(category, Evaluate(cases)))
    ensures var mean := MetricOf(metric, Chosen(category, Evaluate(cases)));
      && (mean == None <==> Number(metric, category, cases) == 0)
      && (mean.Some? ==> mean.value * Number(metric, category, cases) as real == Total(metric, category, cases))
  {
    hide *;
    Tally(metric, category, cases);
    AveragesAre(metric, Chosen(category, Evaluate(cases)), category, cases);
    MeanOf(Averages(metric, Chosen(category, Evaluate(cases))));
  }

  lemma AveragesAre(metric: Metric, rs: seq<Result>, category: string, cases: seq<Case>)
    requires AllMeasured(rs) && Reported(metric)
    ensures MetricOf(metric, rs) == Mean(Averages(metric, rs))
    ensures Tallied(metric, category, cases, Averages(metric, rs)) ==>
      && Sum(Averages(metric, rs)) == Total(metric, category, cases)
      && |Averages(metric, rs)| == Number(metric, category, cases)
  {
    hide Sum, Mean, AllMeasured, Reported, Ranks, Shares, Total, Number;
  }
}
