/** The evaluation of a whole dataset: every case at every cutoff, then the means overall and by category. */
module Evaluation {
  import opened Text
  import opened Metrics

  /** A supported case without a gold entry has neither recall nor hit. */
  predicate Gauged(cases: seq<Case>) {
    forall i | 0 <= i < |cases| && cases[i].category != "unsupported" :: cases[i].gold != {}
  }

  lemma MeasuredIffGold(c: Case)
    ensures Complete(EvaluateCase(c)) && (Measured(EvaluateCase(c)) <==> c.gold != {})
  {
    hide Relevant, FirstRank;
    assert 10 in CUTOFFS;
  }

  lemma EvaluatedComplete(cases: seq<Case>)
    ensures AllComplete(Evaluate(cases))
    ensures SupportedMeasured(Evaluate(cases)) <==> Gauged(cases)
  {
    var rs := Evaluate(cases);
    hide Complete, Measured;
    forall i | 0 <= i < |cases|
      ensures Complete(rs[i]) && (Measured(rs[i]) <==> cases[i].gold != {})
    {
      MeasuredIffGold(cases[i]);
    }
    hide EvaluateCase;
    assert forall i | 0 <= i < |cases| :: rs[i].category == cases[i].category;
  }

  lemma {:induction false} SupportedIffMeasured(rs: seq<Result>)
    ensures AllMeasured(Supported(rs)) <==> SupportedMeasured(rs)
  {
    hide Measured;
    if rs != [] {
      var p, last := rs[..|rs| - 1], rs[|rs| - 1];
      SupportedIffMeasured(p);
      if last.category != "unsupported" {
        assert Supported(rs)[|Supported(p)|] == last;
        assert forall i | 0 <= i < |Supported(p)| :: Supported(rs)[i] == Supported(p)[i];
      }
      assert forall i | 0 <= i < |p| :: rs[i] == p[i];
    }
  }

  /** In evaluated cases the hits at ten are exactly the cases with a reciprocal rank. */
  lemma {:induction false} EvaluatedRanks(cases: seq<Case>)
    requires Gauged(cases)
    ensures AllMeasured(Supported(Evaluate(cases))) && RanksAreHits(Supported(Evaluate(cases)))
  {
    EvaluatedComplete(cases);
    SupportedIffMeasured(Evaluate(cases));
    if cases != [] {
      var p, last := cases[..|cases| - 1], cases[|cases| - 1];
      EvaluatedRanks(p);
      assert Evaluate(cases)[..|cases| - 1] == Evaluate(p) && Evaluate(cases)[|cases| - 1] == EvaluateCase(last);
      hide Evaluate, Measured, EvaluateCase, Gauged, RanksAreHits, AllMeasured;
      if last.category != "unsupported" {
        HitHasRank(last);
        HitsAppended(Supported(Evaluate(p)), EvaluateCase(last));
      }
    }
  }

  lemma HitsAppended(rs: seq<Result>, r: Result)
    requires RanksAreHits(rs) && RanksAreHits([r])
    ensures RanksAreHits(rs + [r])
  {
    hide Measured;
    assert [r][0] == r;
  }

  lemma HitHasRank(c: Case)
    requires c.gold != {}
    ensures EvaluateCase(c).category == c.category && RanksAreHits([EvaluateCase(c)])
  {
    MeasuredIffGold(c);
    RankIffHit(c.retrieved, c.gold, 10);
    hide CalculateCase, Measured;
    assert 10 in CUTOFFS;
  }

  /** Of every dataset that can be reported: mrr leaves misses out, so times the hit rate at ten it is the mean
      reciprocal rank with misses counted as zero, and it is missing exactly when nothing was hit. */
  lemma MrrOfDataset(cases: seq<Case>)
    requires Gauged(cases) && Supported(Evaluate(cases)) != []
    ensures AllMeasured(Supported(Evaluate(cases))) && MrrLeavesMissesOut(Supported(Evaluate(cases)))
  {
    EvaluatedRanks(cases);
    hide Evaluate, Supported, AllMeasured, RanksAreHits, MrrLeavesMissesOut;
    MrrTimesHitRate(Supported(Evaluate(cases)));
  }

  /** Of every such dataset whose categories are the known ones: the overall value of any other metric is the mean of
      the category values, weighted by the number of cases. */
  lemma OverallOfDataset(metric: Metric, cases: seq<Case>)
    requires Gauged(cases) && Categorised(Evaluate(cases)) && Supported(Evaluate(cases)) != []
    requires Reported(metric) && metric != Mrr
    ensures var rs := Evaluate(cases);
      SupportedMeasured(rs) && AllMeasured(Supported(rs)) && IsWeightedMean(metric, rs)
  {
    EvaluatedComplete(cases);
    hide Evaluate, Supported, AllMeasured, SupportedMeasured, IsWeightedMean, Categorised;
    OverallIsWeightedMean(metric, Evaluate(cases));
  }

  /** A dataset whose only case is supported but has no gold entry cannot be reported. */
  lemma NoGoldNoReport(retrieved: seq<string>)
    ensures var cases := [Case("direct", {}, retrieved)];
      !Gauged(cases) && !AllMeasured(Supported(Evaluate(cases)))
  {
    var c := Case("direct", {}, retrieved);
    assert |"direct"| != |"unsupported"| && [c][0].category != "unsupported";
    EvaluatedComplete([c]);
    hide Evaluate, Gauged;
    SupportedIffMeasured(Evaluate([c]));
  }

  // The report ---------------------------------------------------------------------------------------

  datatype Report = Report(perCase: seq<Result>, overall: Means, byCategory: map<string, map<Metric, Option<real>>>)

  const METRICS: seq<Metric> :=
    [Recall(1), Recall(3), Recall(5), Recall(10), Precision(1), Precision(3), Precision(5), Precision(10),
     HitRate(1), HitRate(3), HitRate(5), HitRate(10), Mrr, ZeroResultRate]

  function NoMeans(): Means {
    map m | m in METRICS :: None
  }

  lemma NoMeansReported()
    ensures forall m: Metric :: m in NoMeans() <==> Reported(m)
  {
    assert forall k: nat :: k in CUTOFFS <==> k == 1 || k == 3 || k == 5 || k == 10;
    hide Reported;
    forall m: Metric
      ensures m in METRICS <==> Reported(m)
    {
      NamedIsReported(m);
    }
  }

  lemma NamedIsReported(m: Metric)
    ensures m in METRICS <==> Reported(m)
  {
    if m.Recall? || m.Precision? || m.HitRate? {
      assert m.k in CUTOFFS <==> m.k == 1 || m.k == 3 || m.k == 5 || m.k == 10;
    }
  }

  /** The means of measured cases. */
  ghost predicate CategoryMeans(means: Means, rs: seq<Result>) {
    AllMeasured(rs) && MeansOf(means, rs)
  }

  /** The means of one category: those of its cases, or nothing at all. */
  method MeansOfCategory(own: seq<Result>) returns (r: Outcome<Means>)
    requires AllComplete(own)
    ensures r.Returned? <==> AllMeasured(Supported(own))
    ensures r.Returned? ==> CategoryMeans(r.value, Supported(own))
  {
    if own == [] {
      NoMeansReported();
      return Returned(NoMeans());
    }
    r := AggregateMetrics(own);
  }

  lemma {:induction false} PickOf(rs: seq<Result>, category: string)
    requires AllComplete(rs) && category != "unsupported"
    ensures AllComplete(Pick(rs, category)) && Supported(Pick(rs, category)) == Pick(rs, category)
  {
    hide Complete;
    if rs != [] {
      PickOf(rs[..|rs| - 1], category);
      var p := Pick(rs[..|rs| - 1], category);
      if Pick(rs, category) != p {
        assert Pick(rs, category)[..|p|] == p;
      }
    }
  }

  lemma {:induction false} SupportedTwice(rs: seq<Result>)
    requires AllComplete(rs)
    ensures AllComplete(Supported(rs)) && Supported(Supported(rs)) == Supported(rs)
  {
    hide Complete;
    if rs != [] {
      SupportedTwice(rs[..|rs| - 1]);
      var p := Supported(rs[..|rs| - 1]);
      if Supported(rs) != p {
        assert Supported(rs)[..|p|] == p;
      }
    }
  }

  lemma OtherNames()
    ensures "unsupported" !in CATEGORIES && "all_supported" !in CATEGORIES && "unsupported" != "all_supported"
  {
    UnsupportedIsNone();
    assert |"all_supported"| == 13 && |"direct"| == 6 && |"scope/filter"| == 12 && |"unsupported"| == 11;
    assert |"multi-chunk"| == 11 && |"distractor"| == 10;
  }

  /** Adds the means of every supported category. */
  method CategoryTable(perCase: seq<Result>, first: map<string, Means>) returns (table: map<string, Means>)
    requires AllComplete(perCase) && SupportedMeasured(perCase) && forall c | c in CATEGORIES :: c !in first
    ensures table.Keys == (set c | c in CATEGORIES) + first.Keys
    ensures forall c | c in CATEGORIES :: CategoryMeans(table[c], Pick(perCase, c))
    ensures forall c | c in first :: table[c] == first[c]
  {
    OtherNames();
    hide Pick, Supported, AllMeasured, AllComplete, CategoryMeans, SupportedMeasured;
    table := first;
    for i := 0 to |CATEGORIES|
      invariant table.Keys == (set c | c in CATEGORIES[..i]) + first.Keys
      invariant forall c | c in CATEGORIES[..i] :: CategoryMeans(table[c], Pick(perCase, c))
      invariant forall c | c in first :: table[c] == first[c]
    {
      var category := CATEGORIES[i];
      assert category in CATEGORIES;
      assert CATEGORIES[..i + 1] == CATEGORIES[..i] + [category];
      PickOf(perCase, category);
      PickMeasured(perCase, category);
      var means := MeansOfCategory(Pick(perCase, category));
      table := table[category := means.value];
    }
    assert CATEGORIES[..|CATEGORIES|] == CATEGORIES;
  }

  method EvaluateCases(cases: seq<Case>) returns (perCase: seq<Result>)
    ensures perCase == Evaluate(cases)
  {
    hide EvaluateCase;
    perCase := [];
    for i := 0 to |cases|
      invariant perCase == Evaluate(cases[..i])
    {
      perCase := perCase + [EvaluateCase(cases[i])];
    }
    assert cases[..|cases|] == cases;
  }

  /** The report of a dataset. It raises exactly when a supported case has no gold entry; otherwise it holds every
      case's metrics, the means over the supported cases, and those of each supported category. */
  method EvaluateDataset(cases: seq<Case>) returns (r: Outcome<Report>)
    ensures r.Returned? <==> Gauged(cases)
    ensures r.Returned? ==> r.value.perCase == Evaluate(cases)
    ensures r.Returned? ==> CategoryMeans(r.value.overall, Supported(Evaluate(cases)))
    ensures r.Returned? ==> r.value.byCategory.Keys == (set c | c in CATEGORIES) + {"all_supported", "unsupported"}
    ensures r.Returned? ==> forall c | c in CATEGORIES :: CategoryMeans(r.value.byCategory[c], Pick(Evaluate(cases), c))
    ensures r.Returned? ==> CategoryMeans(r.value.byCategory["all_supported"], Supported(Evaluate(cases)))
    ensures r.Returned? ==> r.value.byCategory["unsupported"] == NoMeans()
  {
    var perCase := EvaluateCases(cases);
    EvaluatedComplete(cases);
    SupportedIffMeasured(perCase);
    hide Evaluate, Pick, Supported, AllMeasured, AllComplete, Gauged, CategoryMeans, SupportedMeasured, CATEGORIES;
    SupportedTwice(perCase);
    OtherNames();
    var supported := MeansOfCategory(Supported(perCase));
    if supported.Raised? {
      return Raised;
    }
    var byCategory := CategoryTable(perCase, map["all_supported" := supported.value]["unsupported" := NoMeans()]);
    var overall := AggregateMetrics(Supported(perCase));
    MeansAreCategory(overall.value, Supported(perCase));
    r := Returned(Report(perCase, overall.value, byCategory));
  }

  lemma MeansAreCategory(means: Means, rs: seq<Result>)
    requires AllMeasured(rs) && MeansOf(means, rs)
    ensures CategoryMeans(means, rs)
  {
  }
}
