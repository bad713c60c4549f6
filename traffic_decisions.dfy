/** The traffic decision engine (lib/core/decision-engine.ts): diversions,
    signal adjustments and preventive interventions proposed from the current
    analysis, the detected bottleneck and the predictions, ranked by benefit. */
module TrafficDecisions {
  import opened Common
  import TrafficIntelligence
  import Bottleneck
  import TrafficPrediction

  type TrafficAnalysis = TrafficIntelligence.TrafficAnalysis
  type Prediction = TrafficPrediction.Prediction

  datatype DecisionType = Diversion | SignalAdjustment | Intervention | LaneManagement

  /** The description of a decision (Arabic texts in the source); the diversion
      names its segment, the intervention the minutes until the congestion. */
  datatype Description = DiversionText(segmentId: string) | SignalText | PreventiveText(minutesUntil: int)

  datatype Details = Details(description: Description, duration: int)

  datatype TrafficDecision = TrafficDecision(
    segmentId: string,
    decisionType: DecisionType,
    recommendedAt: int,
    expectedDelayReduction: real,
    expectedBenefitScore: real,
    affectedSegments: seq<string>,
    details: Details,
    priority: Severity)

  function BenefitScore(d: TrafficDecision): real
  {
    d.expectedBenefitScore
  }

  /** The severity multiplier of a diversion. */
  function SeverityMultiplier(s: Severity): (m: real)
    ensures 1.0 <= m <= 1.5
  {
    match s
    case Critical => 1.5
    case High => 1.3
    case Medium => 1.1
    case Low => 1.0
  }

  /** calculateDiversionBenefit: 40% of the delay, scaled by the bottleneck's
      severity, rounded to one decimal. */
  function DiversionBenefit(analysis: TrafficAnalysis, bottleneck: Bottleneck.Bottleneck): (r: real)
    ensures analysis.delayMinutes >= 0.0 ==> r >= 0.0
  {
    var baseReduction := analysis.delayMinutes * 0.4;
    var severityMultiplier := SeverityMultiplier(bottleneck.severity);
    // Both arms compute the source's value; the first only brings the rounding
    // bound into scope for the ensures.
    if analysis.delayMinutes >= 0.0 then
      Round1AtLeast(baseReduction * severityMultiplier, 0);
      Round1(baseReduction * severityMultiplier)
    else
      Round1(baseReduction * severityMultiplier)
  }

  /** A more severe bottleneck never promises a smaller diversion benefit. */
  lemma DiversionBenefitGrowsWithSeverity(analysis: TrafficAnalysis, b1: Bottleneck.Bottleneck, b2: Bottleneck.Bottleneck)
    requires analysis.delayMinutes >= 0.0 && Rank(b1.severity) <= Rank(b2.severity)
    ensures DiversionBenefit(analysis, b1) <= DiversionBenefit(analysis, b2)
  {
    var base := analysis.delayMinutes * 0.4;
    var m1 := SeverityMultiplier(b1.severity);
    var m2 := SeverityMultiplier(b2.severity);
    assert m1 <= m2;
    assert base * m2 - base * m1 == base * (m2 - m1);
    Round1Monotone(base * m1, base * m2);
  }

  /** calculateSignalBenefit: 30% of the delay for a moderate index (50 to 79),
      15% otherwise, rounded to one decimal. */
  function SignalBenefit(analysis: TrafficAnalysis): real
  {
    if analysis.congestionIndex >= 50 && analysis.congestionIndex < 80 then
      Round1(analysis.delayMinutes * 0.3)
    else
      Round1(analysis.delayMinutes * 0.15)
  }

  /** Signal tuning pays off most in moderate congestion: for the same delay the
      benefit there is at least the benefit in any other band. */
  lemma SignalBenefitPeaksInModerateBand(a1: TrafficAnalysis, a2: TrafficAnalysis)
    requires a1.delayMinutes == a2.delayMinutes >= 0.0
    requires 50 <= a1.congestionIndex < 80
    ensures SignalBenefit(a2) <= SignalBenefit(a1)
    ensures !(50 <= a2.congestionIndex < 80) ==>
      SignalBenefit(a2) == Round1(a2.delayMinutes * 0.15) && SignalBenefit(a1) == Round1(a1.delayMinutes * 0.3)
  {
    Round1Monotone(a1.delayMinutes * 0.15, a1.delayMinutes * 0.3);
  }

  /** generateCriticalDecisions: a diversion when there is a bottleneck, then a
      signal adjustment in every case. */
  function CriticalDecisions(analysis: TrafficAnalysis, bottleneck: Option<Bottleneck.Bottleneck>, now: int)
    : (r: seq<TrafficDecision>)
    ensures |r| == if bottleneck.Some? then 2 else 1
    ensures var s := r[|r| - 1];
      s.decisionType == SignalAdjustment && s.expectedBenefitScore == 70.0 && s.priority == High &&
      s.affectedSegments == [analysis.segmentId] && s.expectedDelayReduction == SignalBenefit(analysis)
    ensures bottleneck.Some? ==>
      r[0].decisionType == Diversion && r[0].expectedBenefitScore == 85.0 && r[0].priority == Critical &&
      r[0].affectedSegments == bottleneck.value.affectedSegments &&
      r[0].expectedDelayReduction == DiversionBenefit(analysis, bottleneck.value)
    ensures forall d :: d in r ==> d.segmentId == analysis.segmentId && d.recommendedAt == now
  {
    var diversion :=
      match bottleneck
      case Some(b) =>
        [TrafficDecision(analysis.segmentId, Diversion, now, DiversionBenefit(analysis, b), 85.0,
                         b.affectedSegments, Details(DiversionText(analysis.segmentId), 5), Critical)]
      case None => [];
    diversion + [TrafficDecision(analysis.segmentId, SignalAdjustment, now, SignalBenefit(analysis), 70.0,
                                 [analysis.segmentId], Details(SignalText, 2), High)]
  }

  /** generatePreventiveDecisions: an intervention for a confident (> 0.7)
      prediction of an index of at least 70. */
  function PreventiveDecisions(analysis: TrafficAnalysis, prediction: Prediction, now: int)
    : (r: seq<TrafficDecision>)
    ensures |r| <= 1
    ensures |r| == 1 <==> prediction.predictedIndex >= 70 && prediction.confidence > 0.7
    ensures |r| == 1 ==>
      r[0].decisionType == Intervention && r[0].expectedBenefitScore == 75.0 && r[0].priority == High &&
      r[0].expectedDelayReduction == prediction.predictedDelayMinutes * 0.5 &&
      r[0].affectedSegments == [analysis.segmentId] && r[0].segmentId == analysis.segmentId
  {
    if prediction.predictedIndex >= 70 && prediction.confidence > 0.7 then
      var minutes := Round((prediction.predictedFor - now) as real / 60000.0);
      [TrafficDecision(analysis.segmentId, Intervention, now, prediction.predictedDelayMinutes * 0.5, 75.0,
                       [analysis.segmentId], Details(PreventiveText(minutes), 10), High)]
    else []
  }

  predicate PredictsHeavyCongestion(p: Prediction)
  {
    p.predictedIndex >= 70
  }

  /** Whether the situation calls for the critical decisions. */
  predicate IsCritical(analysis: TrafficAnalysis, bottleneck: Option<Bottleneck.Bottleneck>)
  {
    analysis.congestionIndex >= 80 || (bottleneck.Some? && bottleneck.value.severity == Critical)
  }

  /** The decisions before ranking. */
  function UnrankedDecisions(analysis: TrafficAnalysis, bottleneck: Option<Bottleneck.Bottleneck>,
                             predictions: seq<Prediction>, now: int): seq<TrafficDecision>
  {
    var critical := if IsCritical(analysis, bottleneck) then CriticalDecisions(analysis, bottleneck, now) else [];
    var heavy := FindFirst(predictions, PredictsHeavyCongestion);
    critical + (if heavy.Some? then PreventiveDecisions(analysis, heavy.value, now) else [])
  }

  /** generateDecisions: the critical and preventive decisions, sorted by
      decreasing benefit score. */
  function GenerateDecisions(analysis: TrafficAnalysis, bottleneck: Option<Bottleneck.Bottleneck>,
                             predictions: seq<Prediction>, now: int): (r: seq<TrafficDecision>)
    ensures multiset(r) == multiset(UnrankedDecisions(analysis, bottleneck, predictions, now))
    ensures SortedDesc(r, BenefitScore)
    ensures |r| <= 3
  {
    var decisions := UnrankedDecisions(analysis, bottleneck, predictions, now);
    SortDescLength(decisions, BenefitScore);
    SortDesc(decisions, BenefitScore)
  }

  predicate HasKind(decisions: seq<TrafficDecision>, t: DecisionType)
  {
    exists d :: d in decisions && d.decisionType == t
  }

  lemma HasKindConcat(a: seq<TrafficDecision>, b: seq<TrafficDecision>, t: DecisionType)
    ensures HasKind(a + b, t) <==> HasKind(a, t) || HasKind(b, t)
  {
    if HasKind(a + b, t) {
      var d :| d in a + b && d.decisionType == t;
      assert d in a || d in b;
    }
    if HasKind(a, t) {
      var d :| d in a && d.decisionType == t;
      assert d in a + b;
    }
    if HasKind(b, t) {
      var d :| d in b && d.decisionType == t;
      assert d in a + b;
    }
  }

  lemma CriticalDecisionKinds(analysis: TrafficAnalysis, bottleneck: Option<Bottleneck.Bottleneck>, now: int)
    ensures var c := CriticalDecisions(analysis, bottleneck, now);
      HasKind(c, SignalAdjustment) && (HasKind(c, Diversion) <==> bottleneck.Some?) && !HasKind(c, Intervention)
  {
    var c := CriticalDecisions(analysis, bottleneck, now);
    assert c[|c| - 1] in c;
    if bottleneck.Some? {
      assert c[0] in c;
    }
  }

  lemma PreventiveDecisionKinds(analysis: TrafficAnalysis, prediction: Prediction, now: int)
    ensures var p := PreventiveDecisions(analysis, prediction, now);
      !HasKind(p, SignalAdjustment) && !HasKind(p, Diversion) &&
      (HasKind(p, Intervention) <==> prediction.predictedIndex >= 70 && prediction.confidence > 0.7)
  {
    var p := PreventiveDecisions(analysis, prediction, now);
    if |p| == 1 {
      assert p[0] in p;
    }
  }

  /** Sorting neither adds nor drops a kind of decision. */
  lemma RankingKeepsKinds(a: seq<TrafficDecision>, b: seq<TrafficDecision>, t: DecisionType)
    requires multiset(a) == multiset(b)
    ensures HasKind(a, t) <==> HasKind(b, t)
  {
    if HasKind(a, t) {
      var d :| d in a && d.decisionType == t;
      assert d in multiset(b);
    }
    if HasKind(b, t) {
      var d :| d in b && d.decisionType == t;
      assert d in multiset(a);
    }
  }

  /** Which decisions are generated: a signal adjustment exactly in a critical
      situation, a diversion exactly in a critical situation with a bottleneck,
      and an intervention exactly when the first prediction of an index of at
      least 70 is confident. */
  lemma GeneratedDecisionKinds(analysis: TrafficAnalysis, bottleneck: Option<Bottleneck.Bottleneck>,
                               predictions: seq<Prediction>, now: int)
    ensures var r := GenerateDecisions(analysis, bottleneck, predictions, now);
      (HasKind(r, SignalAdjustment) <==> IsCritical(analysis, bottleneck)) &&
      (HasKind(r, Diversion) <==> IsCritical(analysis, bottleneck) && bottleneck.Some?) &&
      (HasKind(r, Intervention) <==>
        var heavy := FindFirst(predictions, PredictsHeavyCongestion);
        heavy.Some? && heavy.value.confidence > 0.7)
  {
    var r := GenerateDecisions(analysis, bottleneck, predictions, now);
    var u := UnrankedDecisions(analysis, bottleneck, predictions, now);
    var critical := if IsCritical(analysis, bottleneck) then CriticalDecisions(analysis, bottleneck, now) else [];
    var heavy := FindFirst(predictions, PredictsHeavyCongestion);
    var preventive := if heavy.Some? then PreventiveDecisions(analysis, heavy.value, now) else [];
    assert u == critical + preventive;
    CriticalDecisionKinds(analysis, bottleneck, now);
    if heavy.Some? {
      PreventiveDecisionKinds(analysis, heavy.value, now);
    }
    HasKindConcat(critical, preventive, SignalAdjustment);
    HasKindConcat(critical, preventive, Diversion);
    HasKindConcat(critical, preventive, Intervention);
    RankingKeepsKinds(r, u, SignalAdjustment);
    RankingKeepsKinds(r, u, Diversion);
    RankingKeepsKinds(r, u, Intervention);
  }

  /** The first index of a maximal benefit score (the `reduce` that keeps the
      incumbent unless a later score is strictly greater). */
  function BestIndex(decisions: seq<TrafficDecision>): (k: nat)
    requires |decisions| > 0
    ensures k < |decisions|
    ensures forall j :: 0 <= j < |decisions| ==> decisions[j].expectedBenefitScore <= decisions[k].expectedBenefitScore
    ensures forall j :: 0 <= j < k ==> decisions[j].expectedBenefitScore < decisions[k].expectedBenefitScore
  {
    if |decisions| == 1 then 0
    else
      var best := BestIndex(decisions[..|decisions| - 1]);
      var current := |decisions| - 1;
      if decisions[current].expectedBenefitScore > decisions[best].expectedBenefitScore then current else best
  }

  /** selectBestDecision: none for no decisions, else the earliest decision with
      the highest benefit score. */
  function SelectBestDecision(decisions: seq<TrafficDecision>): (r: Option<TrafficDecision>)
    ensures r.None? <==> |decisions| == 0
    ensures r.Some? ==>
      exists k :: 0 <= k < |decisions| && decisions[k] == r.value &&
        (forall j :: 0 <= j < |decisions| ==> decisions[j].expectedBenefitScore <= r.value.expectedBenefitScore) &&
        (forall j :: 0 <= j < k ==> decisions[j].expectedBenefitScore < r.value.expectedBenefitScore)
  {
    if |decisions| == 0 then None
    else Some(decisions[BestIndex(decisions)])
  }

  /** On a ranked list the best decision is the first one. */
  lemma BestOfRankedIsFirst(analysis: TrafficAnalysis, bottleneck: Option<Bottleneck.Bottleneck>,
                            predictions: seq<Prediction>, now: int)
    ensures var r := GenerateDecisions(analysis, bottleneck, predictions, now);
      |r| > 0 ==> SelectBestDecision(r) == Some(r[0])
  {
    var r := GenerateDecisions(analysis, bottleneck, predictions, now);
    if |r| > 0 {
      var k := BestIndex(r);
      assert BenefitScore(r[0]) >= BenefitScore(r[k]);
    }
  }

  function DelaySum(decisions: seq<TrafficDecision>): real
  {
    if decisions == [] then 0.0 else DelaySum(decisions[..|decisions| - 1]) + decisions[|decisions| - 1].expectedDelayReduction
  }

  function BenefitSum(decisions: seq<TrafficDecision>): real
  {
    if decisions == [] then 0.0 else BenefitSum(decisions[..|decisions| - 1]) + decisions[|decisions| - 1].expectedBenefitScore
  }

  /** Every segment named by some decision. */
  ghost function AffectedSegments(decisions: seq<TrafficDecision>): set<string>
  {
    if decisions == [] then {}
    else AffectedSegments(decisions[..|decisions| - 1]) + Elements(decisions[|decisions| - 1].affectedSegments)
  }

  lemma {:induction false} AffectedSegmentsMembership(decisions: seq<TrafficDecision>, s: string)
    ensures s in AffectedSegments(decisions) <==>
      exists i :: 0 <= i < |decisions| && s in decisions[i].affectedSegments
  {
    if decisions != [] {
      var init := decisions[..|decisions| - 1];
      AffectedSegmentsMembership(init, s);
      assert s in Elements(decisions[|decisions| - 1].affectedSegments) <==> s in decisions[|decisions| - 1].affectedSegments;
      if exists i :: 0 <= i < |init| && s in init[i].affectedSegments {
        var i :| 0 <= i < |init| && s in init[i].affectedSegments;
        assert decisions[i] == init[i];
      }
      if exists i :: 0 <= i < |decisions| && s in decisions[i].affectedSegments {
        var i :| 0 <= i < |decisions| && s in decisions[i].affectedSegments;
        if i < |init| {
          assert init[i] == decisions[i];
        }
      }
    }
  }

  /** The totals of a set of decisions. The mean benefit of no decisions is
      JavaScript's NaN, modelled as None. */
  datatype TotalImpact = TotalImpact(totalDelayReduction: real, totalBenefitScore: Option<real>, affectedSegmentsCount: nat)

  /** calculateTotalImpact: the delay reductions summed, the benefit scores
      averaged, and the distinct affected segments counted. */
  method CalculateTotalImpact(decisions: seq<TrafficDecision>) returns (impact: TotalImpact)
    ensures impact.totalDelayReduction == Round1(DelaySum(decisions))
    ensures |decisions| == 0 <==> impact.totalBenefitScore.None?
    ensures |decisions| > 0 ==>
      impact.totalBenefitScore == Some(Round1(BenefitSum(decisions) / |decisions| as real))
    ensures impact.affectedSegmentsCount == |AffectedSegments(decisions)|
  {
    var totalDelayReduction := DelaySum(decisions);
    var totalBenefitScore: Option<real> :=
      if |decisions| == 0 then None else Some(BenefitSum(decisions) / |decisions| as real);
    var affectedSegments: set<string> := {};
    for i := 0 to |decisions|
      invariant affectedSegments == AffectedSegments(decisions[..i])
    {
      assert decisions[..i + 1][..i] == decisions[..i];
      var d := decisions[i];
      for j := 0 to |d.affectedSegments|
        invariant affectedSegments == AffectedSegments(decisions[..i]) + Elements(d.affectedSegments[..j])
      {
        assert d.affectedSegments[..j + 1] == d.affectedSegments[..j] + [d.affectedSegments[j]];
        affectedSegments := affectedSegments + {d.affectedSegments[j]};
      }
      assert d.affectedSegments[..|d.affectedSegments|] == d.affectedSegments;
    }
    assert decisions[..|decisions|] == decisions;
    impact := TotalImpact(Round1(totalDelayReduction),
                          match totalBenefitScore case Some(b) => Some(Round1(b)) case None => None,
                          |affectedSegments|);
  }
}
