/**
 Calibration: the evaluator re-derives accept and reject from a stored result with tests of
 its own, sweeps thresholds, and recommends a pair whose precision is statistically safe.
 */
module Calibration {
  import opened Wrappers
  import opened Decision
  import Wilson

  // ----- the evaluator's own tests -----

  predicate HasRuleDisposition(r: FilterResult, dispositions: set<RuleDisposition>) {
    r.rule.Some? && (r.rule.value.disposition in dispositions
                     || exists i | 0 <= i < |r.rule.value.hits| :: r.rule.value.hits[i].disposition in dispositions)
  }

  predicate AcceptEligible(r: FilterResult, cfg: Config) {
    && r.visual.Some? && r.predictedClass in ACCEPTED_ROUTES
    && cfg.PolicyAccepts(r.predictedClass)
    && r.confidence >= cfg.minimumConfidence
    && r.visual.value.margin >= cfg.minimumMargin
    && !HasRuleDisposition(r, {ForceReject, ForceReview})
  }

  predicate WouldAccept(r: FilterResult, cfg: Config, threshold: real) {
    AcceptEligible(r, cfg) && r.finalScore >= threshold
  }

  predicate WouldReject(r: FilterResult, cfg: Config, threshold: real) {
    if HasRuleDisposition(r, {ForceReject}) then true
    else if HasRuleDisposition(r, {ForceReview}) then false
    else if r.predictedClass in REJECTED_CLASSES then true
    else if r.predictedClass in ROUTING_ROUTES then false
    else if r.visual == None then false
    else if !cfg.PolicyAccepts(r.predictedClass) then false
    else if r.confidence < cfg.minimumConfidence then false
    else if r.visual.value.margin < cfg.minimumMargin then false
    else r.finalScore <= threshold
  }

  // ----- the evaluator replays the engine -----

  /** The engine compares the raw score, the evaluator the clamped one; a valid pair cannot tell. */
  lemma ClampIsInvisible(x: real, cfg: Config)
    requires cfg.Valid()
    ensures Clamp(x) >= cfg.acceptScore <==> x >= cfg.acceptScore
    ensures Clamp(x) <= cfg.rejectScore <==> x <= cfg.rejectScore
  {
  }

  /** A stored disposition and its hits give the evaluator the same answer. */
  lemma DispositionFromHits(r: FilterResult)
    requires r.rule.Some? && r.rule.value.disposition == AggregateDisposition(r.rule.value.hits)
    ensures HasRuleDisposition(r, {ForceReject}) <==> r.rule.value.disposition == ForceReject
    ensures HasRuleDisposition(r, {ForceReject, ForceReview})
       <==> r.rule.value.disposition in {ForceReject, ForceReview}
    ensures HasRuleDisposition(r, {ForceReview}) && r.rule.value.disposition != ForceReject
       <==> r.rule.value.disposition == ForceReview
  {
    var hits := r.rule.value.hits;
    assert HasHit(hits, ForceReject) <==> r.rule.value.disposition == ForceReject;
    assert forall i | 0 <= i < |hits| && hits[i].disposition == ForceReview :: HasHit(hits, ForceReview);
  }

  /**
   For every input, the evaluator at the configured thresholds says reject exactly when the
   engine rejected, and accept exactly when the engine accepted, provided automatic accept
   is on; with it off the engine accepts nothing.
   */
  lemma CalibrationReplaysTheEngine(rule: RuleResult, visual: Option<VisualScores>, net: Signed, cfg: Config)
    requires cfg.Valid() && rule.disposition == AggregateDisposition(rule.hits)
    ensures var r := Decide(rule, visual, net, cfg);
            && (r.decision.Accept? <==> cfg.automaticAccept && WouldAccept(r, cfg, cfg.acceptScore))
            && (r.decision.Reject? <==> WouldReject(r, cfg, cfg.rejectScore))
            && (r.decision.Accept? ==> r.predictedClass in ACCEPTED_ROUTES
                                       && r.route == ACCEPTED_ROUTES[r.predictedClass])
  {
    var r := Decide(rule, visual, net, cfg);
    DispositionFromHits(r);
    if visual.Some? {
      ClampIsInvisible(FinalScore(visual.value, net, cfg), cfg);
    }
  }

  const LENIENT := MediaConfig(1, 1, 1, 100.0, true, false, 0.0, false)

  /** Comics are accepted from a score of 0.5, but automatic accept is off. */
  const MANUAL := Config(false, {Comic}, 0.5, 0.1, 0.0, 0.0, 1.0, 0.0, 0.0, LENIENT)

  /** A perfect comic. */
  const COMIC_SCORES := VisualScores([ClassScore(Comic, 1.0)], 1.0, 1.0)

  /** With automatic accept off the evaluator can report an accept that the engine did not make. */
  lemma AcceptOnlyOnPaper()
    ensures MANUAL.Valid()
    ensures var r := Decide(RuleResult(Continue, []), Some(COMIC_SCORES), 0.0, MANUAL);
            WouldAccept(r, MANUAL, MANUAL.acceptScore) && r.decision.Review?
  {
    ComicIsReviewed();
    hide Decide;
  }

  lemma ComicIsReviewed()
    ensures Decide(RuleResult(Continue, []), Some(COMIC_SCORES), 0.0, MANUAL)
         == FilterResult(Review, Comic, ToReview, 1.0, 1.0, Some(COMIC_SCORES), Some(RuleResult(Continue, [])))
  {
    hide FinalScore, Weighted, PredictedClass, TopConfidence, VisualDecision;
    PerfectScore(COMIC_SCORES);
    OnlyClass(COMIC_SCORES);
    PerfectIsReviewed();
  }

  lemma PerfectIsReviewed()
    ensures VisualDecision(Comic, 1.0, 1.0, 1.0, MANUAL) == (Review, ToReview)
  {
  }

  lemma OnlyClass(scores: VisualScores)
    requires scores.classScores == [ClassScore(Comic, 1.0)]
    ensures PredictedClass(Some(scores)) == Comic && TopConfidence(scores) == 1.0
  {
  }

  lemma PerfectScore(scores: VisualScores)
    requires scores.artUtility == 1.0
    ensures FinalScore(scores, 0.0, MANUAL) == 1.0
  {
    hide Weighted;
    UnitWeights(1.0);
    UnitWeights(TextComponent(0.0));
  }

  lemma UnitWeights(x: real)
    ensures Weighted(1.0, x) == x && Weighted(0.0, x) == 0.0
  {
  }

  /** The rules always hand the engine such a result. */
  lemma RulesAggregate(p: Provenance, image: LoadedImage, m: MediaConfig)
    requires image.width > 0 && image.height > 0
    ensures var rule := EvaluateRules(p, image, m);
            && rule.disposition == AggregateDisposition(rule.hits)
            && (rule.disposition == ForceReject <==>
                  image.width < m.minWidth || image.height < m.minHeight
                  || image.width * image.height < m.minArea || (image.isAnimated && !m.allowAnimated))
            && (rule.disposition == ForceReview <==> rule.disposition != ForceReject && NeedsReview(p, image, m))
            && rule.disposition != ForceAccept
  {
    RejectRulesHit(p, image, m);
  }

  /** Far from square, nearly of one colour, a repost or a quote. */
  predicate NeedsReview(p: Provenance, image: LoadedImage, m: MediaConfig)
    requires image.width > 0 && image.height > 0
  {
    || image.width as real / image.height as real > m.maxAspectRatio
    || image.height as real / image.width as real > m.maxAspectRatio
    || (m.reviewLowVariance && image.largestDeviation < m.lowVarianceThreshold)
    || (m.reviewReposts && (p.isRepost || p.isQuotePost))
  }

  lemma RejectRulesHit(p: Provenance, image: LoadedImage, m: MediaConfig)
    requires image.width > 0 && image.height > 0
    ensures var hits := EvaluateRules(p, image, m).hits;
            && (HasHit(hits, ForceReject) <==>
                  image.width < m.minWidth || image.height < m.minHeight
                  || image.width * image.height < m.minArea || (image.isAnimated && !m.allowAnimated))
            && (HasHit(hits, ForceReview) <==> NeedsReview(p, image, m))
            && !HasHit(hits, ForceAccept)
  {
    var small := !(image.width >= m.minWidth && image.height >= m.minHeight);
    var tiny := image.width * image.height < m.minArea;
    var ratio := MaxReal(image.width as real / image.height as real, image.height as real / image.width as real);
    var extreme := ratio > m.maxAspectRatio;
    var moving := image.isAnimated && !m.allowAnimated;
    var flat := m.reviewLowVariance && image.largestDeviation < m.lowVarianceThreshold;
    HitsOfSeven(small, tiny, extreme, moving, flat, p.isRepost && m.reviewReposts, p.isQuotePost && m.reviewReposts);
  }

  lemma HitsOfSeven(small: bool, tiny: bool, extreme: bool, moving: bool, flat: bool, repost: bool, quote: bool)
    ensures var hits :=
              HitIf(small, "media.minimum_dimensions", ForceReject)
              + HitIf(tiny, "media.minimum_area", ForceReject)
              + HitIf(extreme, "media.extreme_aspect_ratio", ForceReview)
              + HitIf(moving, "media.animation", ForceReject)
              + HitIf(flat, "media.low_variance", ForceReview)
              + HitIf(repost, "provenance.repost", ForceReview)
              + HitIf(quote, "provenance.quote_post", ForceReview);
            && (HasHit(hits, ForceReject) <==> small || tiny || moving)
            && (HasHit(hits, ForceReview) <==> extreme || flat || repost || quote)
            && !HasHit(hits, ForceAccept)
  {
    var a := HitIf(small, "media.minimum_dimensions", ForceReject);
    var b := HitIf(tiny, "media.minimum_area", ForceReject);
    var c := HitIf(extreme, "media.extreme_aspect_ratio", ForceReview);
    var d := HitIf(moving, "media.animation", ForceReject);
    var e := HitIf(flat, "media.low_variance", ForceReview);
    var f := HitIf(repost, "provenance.repost", ForceReview);
    var g := HitIf(quote, "provenance.quote_post", ForceReview);
    HitIfHits(small, "media.minimum_dimensions", ForceReject);
    HitIfHits(tiny, "media.minimum_area", ForceReject);
    HitIfHits(extreme, "media.extreme_aspect_ratio", ForceReview);
    HitIfHits(moving, "media.animation", ForceReject);
    HitIfHits(flat, "media.low_variance", ForceReview);
    HitIfHits(repost, "provenance.repost", ForceReview);
    HitIfHits(quote, "provenance.quote_post", ForceReview);
    HasHitConcat(a, b);
    HasHitConcat(a + b, c);
    HasHitConcat(a + b + c, d);
    HasHitConcat(a + b + c + d, e);
    HasHitConcat(a + b + c + d + e, f);
    HasHitConcat(a + b + c + d + e + f, g);
  }

  lemma HasHitConcat(a: seq<RuleHit>, b: seq<RuleHit>)
    ensures HasHit(a + b, ForceReject) <==> HasHit(a, ForceReject) || HasHit(b, ForceReject)
    ensures HasHit(a + b, ForceReview) <==> HasHit(a, ForceReview) || HasHit(b, ForceReview)
    ensures HasHit(a + b, ForceAccept) <==> HasHit(a, ForceAccept) || HasHit(b, ForceAccept)
  {
    assert forall i | 0 <= i < |a| :: (a + b)[i] == a[i];
    assert forall i | 0 <= i < |b| :: (a + b)[|a| + i] == b[i];
  }

  lemma HitIfHits(condition: bool, rule: string, d: RuleDisposition)
    ensures forall other :: HasHit(HitIf(condition, rule, d), other) <==> condition && other == d
  {
    assert condition ==> HitIf(condition, rule, d)[0].disposition == d;
  }

  // ----- samples and counts -----

  /** A labelled result; `truth` is `None` for the label `review`. */
  datatype Sample = Sample(result: FilterResult, truth: Option<bool>)

  /** The two sweeps ask the same questions about different decisions. */
  datatype Kind = Accepts | Rejects

  predicate Decides(kind: Kind, x: Sample, cfg: Config, threshold: real) {
    if kind.Accepts? then WouldAccept(x.result, cfg, threshold) else WouldReject(x.result, cfg, threshold)
  }

  function One(b: bool): nat {
    if b then 1 else 0
  }

  function Decided(kind: Kind, samples: seq<Sample>, cfg: Config, threshold: real): nat {
    if samples == [] then 0
    else One(Decides(kind, samples[0], cfg, threshold)) + Decided(kind, samples[1..], cfg, threshold)
  }

  function Correct(kind: Kind, samples: seq<Sample>, cfg: Config, threshold: real): (count: nat)
    ensures count <= Decided(kind, samples, cfg, threshold)
  {
    if samples == [] then 0
    else One(Decides(kind, samples[0], cfg, threshold) && samples[0].truth == Some(kind.Accepts?))
         + Correct(kind, samples[1..], cfg, threshold)
  }

  // ----- sweep rows -----

  datatype Row = Row(threshold: real, decisionCount: nat, correct: nat,
                     precision: Option<real>, precisionLow: Option<real>)

  function Rate(numerator: nat, denominator: nat): Option<real> {
    if denominator == 0 then None else Some(numerator as real / denominator as real)
  }

  /** Lower confidence bounds, as a function of the correct and the made decisions. */
  type Bound = (nat, nat) -> Option<real>

  /** The lower end of the Wilson interval; the source's `z` is `Wilson.Z95`. */
  function WilsonBound(z: real, sqrt: real -> real): Bound {
    (correct: nat, decided: nat) =>
      var interval := Wilson.Interval(z, sqrt, correct, decided);
      if interval == None then None else Some(interval.value.0)
  }

  /** What the recommendation needs of its bound: it never exceeds the observed precision. */
  ghost predicate IsLowerBound(bound: Bound) {
    forall correct: nat, decided: nat | correct <= decided ::
      bound(correct, decided).Some? ==>
        decided > 0 && bound(correct, decided).value <= correct as real / decided as real
  }

  lemma WilsonIsLowerBound(z: real, sqrt: real -> real)
    requires z > 0.0 && Wilson.IsSqrt(sqrt)
    ensures IsLowerBound(WilsonBound(z, sqrt))
  {
    forall correct: nat, decided: nat | correct <= decided && WilsonBound(z, sqrt)(correct, decided).Some?
      ensures decided > 0 && WilsonBound(z, sqrt)(correct, decided).value <= correct as real / decided as real
    {
      Wilson.IntervalEnds(z, sqrt, correct, decided);
    }
  }

  function SweepRow(bound: Bound, kind: Kind, samples: seq<Sample>, cfg: Config, threshold: real): Row {
    var decided, correct := Decided(kind, samples, cfg, threshold), Correct(kind, samples, cfg, threshold);
    Row(threshold, decided, correct, Rate(correct, decided), bound(correct, decided))
  }

  function Sweep(bound: Bound, kind: Kind, samples: seq<Sample>, cfg: Config, thresholds: seq<real>)
    : (rows: seq<Row>)
    ensures |rows| == |thresholds|
    ensures forall i | 0 <= i < |rows| :: rows[i] == SweepRow(bound, kind, samples, cfg, thresholds[i])
  {
    if thresholds == [] then []
    else [SweepRow(bound, kind, samples, cfg, thresholds[0])] + Sweep(bound, kind, samples, cfg, thresholds[1..])
  }

  // ----- recommendation -----

  predicate Qualifies(row: Row, target: real, minimum: nat) {
    row.decisionCount >= minimum && row.precisionLow.Some? && row.precisionLow.value >= target
  }

  /** The first qualifying row with the least threshold. */
  function RecommendAccept(sweep: seq<Row>, target: real, minimum: nat): (best: Option<Row>)
    ensures best.Some? ==> best.value in sweep && Qualifies(best.value, target, minimum)
    ensures forall row | row in sweep && Qualifies(row, target, minimum) ::
      best.Some? && best.value.threshold <= row.threshold
  {
    if sweep == [] then None
    else
      var rest := RecommendAccept(sweep[1..], target, minimum);
      if !Qualifies(sweep[0], target, minimum) then rest
      else if rest.Some? && rest.value.threshold < sweep[0].threshold then rest
      else Some(sweep[0])
  }

  /** The first qualifying row with the greatest threshold below `below`. */
  function RecommendReject(sweep: seq<Row>, target: real, minimum: nat, below: real): (best: Option<Row>)
    ensures best.Some? ==>
      best.value in sweep && Qualifies(best.value, target, minimum) && best.value.threshold < below
    ensures forall row | row in sweep && Qualifies(row, target, minimum) && row.threshold < below ::
      best.Some? && best.value.threshold >= row.threshold
  {
    if sweep == [] then None
    else
      var rest := RecommendReject(sweep[1..], target, minimum, below);
      if !(Qualifies(sweep[0], target, minimum) && sweep[0].threshold < below) then rest
      else if rest.Some? && rest.value.threshold > sweep[0].threshold then rest
      else Some(sweep[0])
  }

  datatype Calibrated = Calibrated(accept: Option<Row>, reject: Option<Row>)

  /** `thresholds` is the sorted sweep. */
  function Calibrate(
    bound: Bound, samples: seq<Sample>, cfg: Config,
    acceptTarget: real, rejectTarget: real, minimum: nat, thresholds: seq<real>): Calibrated
  {
    var accept := RecommendAccept(Sweep(bound, Accepts, samples, cfg, thresholds), acceptTarget, minimum);
    var below := if accept.Some? then accept.value.threshold else cfg.acceptScore;
    var reject := RecommendReject(Sweep(bound, Rejects, samples, cfg, thresholds), rejectTarget, minimum, below);
    Calibrated(accept, reject)
  }

  /** Statistically safe: enough decisions, and the observed precision meets the target. */
  ghost predicate Safe(row: Row, bound: Bound, kind: Kind, samples: seq<Sample>, cfg: Config,
                       thresholds: seq<real>, target: real, minimum: nat)
  {
    && row.threshold in thresholds && row == SweepRow(bound, kind, samples, cfg, row.threshold)
    && row.decisionCount == Decided(kind, samples, cfg, row.threshold) >= minimum
    && row.precision.Some? && row.precision.value >= target
    && row.decisionCount > 0
    && row.precision.value == Correct(kind, samples, cfg, row.threshold) as real / row.decisionCount as real
  }

  /** A row whose lower bound meets the target has an observed precision that does. */
  lemma QualifiedRowIsSafe(bound: Bound, kind: Kind, samples: seq<Sample>, cfg: Config,
                           thresholds: seq<real>, row: Row, target: real, minimum: nat)
    requires IsLowerBound(bound)
    requires row in Sweep(bound, kind, samples, cfg, thresholds) && Qualifies(row, target, minimum)
    ensures Safe(row, bound, kind, samples, cfg, thresholds, target, minimum)
  {
    hide Decided, Correct;
    assert bound(row.correct, row.decisionCount) == row.precisionLow;
  }

  /** Each recommended threshold is safe, the pair is ordered, and neither could be bolder. */
  lemma RecommendationIsSound(
    bound: Bound, samples: seq<Sample>, cfg: Config,
    acceptTarget: real, rejectTarget: real, minimum: nat, thresholds: seq<real>)
    requires IsLowerBound(bound)
    ensures var c := Calibrate(bound, samples, cfg, acceptTarget, rejectTarget, minimum, thresholds);
      && (c.accept.Some? ==> Safe(c.accept.value, bound, Accepts, samples, cfg, thresholds, acceptTarget, minimum))
      && (c.reject.Some? ==> Safe(c.reject.value, bound, Rejects, samples, cfg, thresholds, rejectTarget, minimum))
      && (c.accept.Some? && c.reject.Some? ==> c.reject.value.threshold < c.accept.value.threshold)
      && (c.accept == None && c.reject.Some? ==> c.reject.value.threshold < cfg.acceptScore)
      && (forall t | t in thresholds
                     && Qualifies(SweepRow(bound, Accepts, samples, cfg, t), acceptTarget, minimum) ::
            c.accept.Some? && c.accept.value.threshold <= t)
  {
    var c := Calibrate(bound, samples, cfg, acceptTarget, rejectTarget, minimum, thresholds);
    if c.accept.Some? {
      QualifiedRowIsSafe(bound, Accepts, samples, cfg, thresholds, c.accept.value, acceptTarget, minimum);
    }
    if c.reject.Some? {
      QualifiedRowIsSafe(bound, Rejects, samples, cfg, thresholds, c.reject.value, rejectTarget, minimum);
    }
    forall t | t in thresholds && Qualifies(SweepRow(bound, Accepts, samples, cfg, t), acceptTarget, minimum)
      ensures c.accept.Some? && c.accept.value.threshold <= t
    {
      var i :| 0 <= i < |thresholds| && thresholds[i] == t;
      assert Sweep(bound, Accepts, samples, cfg, thresholds)[i] == SweepRow(bound, Accepts, samples, cfg, t);
    }
  }

  /** A lower accept threshold, or a higher reject threshold, only adds decisions. */
  lemma {:induction false} BolderDecidesMore(samples: seq<Sample>, cfg: Config, low: real, high: real)
    requires low <= high
    ensures Decided(Accepts, samples, cfg, low) >= Decided(Accepts, samples, cfg, high)
    ensures Decided(Rejects, samples, cfg, low) <= Decided(Rejects, samples, cfg, high)
  {
    if samples != [] {
      BolderDecidesMore(samples[1..], cfg, low, high);
    }
  }

  /** Of all thresholds that qualify, the recommended ones decide the most samples. */
  lemma RecommendationCoversMost(
    bound: Bound, samples: seq<Sample>, cfg: Config,
    acceptTarget: real, rejectTarget: real, minimum: nat, thresholds: seq<real>, t: real)
    requires t in thresholds
    ensures var c := Calibrate(bound, samples, cfg, acceptTarget, rejectTarget, minimum, thresholds);
      var below := if c.accept.Some? then c.accept.value.threshold else cfg.acceptScore;
      && (Qualifies(SweepRow(bound, Accepts, samples, cfg, t), acceptTarget, minimum) ==>
            c.accept.Some? && c.accept.value.decisionCount >= Decided(Accepts, samples, cfg, t))
      && (t < below && Qualifies(SweepRow(bound, Rejects, samples, cfg, t), rejectTarget, minimum) ==>
            c.reject.Some? && c.reject.value.decisionCount >= Decided(Rejects, samples, cfg, t))
  {
    var c := Calibrate(bound, samples, cfg, acceptTarget, rejectTarget, minimum, thresholds);
    var i :| 0 <= i < |thresholds| && thresholds[i] == t;
    assert Sweep(bound, Accepts, samples, cfg, thresholds)[i] == SweepRow(bound, Accepts, samples, cfg, t);
    assert Sweep(bound, Rejects, samples, cfg, thresholds)[i] == SweepRow(bound, Rejects, samples, cfg, t);
    if c.accept.Some? && c.accept.value.threshold <= t {
      BolderDecidesMore(samples, cfg, c.accept.value.threshold, t);
    }
    if c.reject.Some? && t <= c.reject.value.threshold {
      BolderDecidesMore(samples, cfg, t, c.reject.value.threshold);
    }
  }

  /** The recommendation as the source makes it, with the Wilson interval. */
  lemma WilsonRecommendationIsSound(
    z: real, sqrt: real -> real, samples: seq<Sample>, cfg: Config,
    acceptTarget: real, rejectTarget: real, minimum: nat, thresholds: seq<real>)
    requires z > 0.0 && Wilson.IsSqrt(sqrt)
    ensures var bound := WilsonBound(z, sqrt);
      var c := Calibrate(bound, samples, cfg, acceptTarget, rejectTarget, minimum, thresholds);
      && (c.accept.Some? ==> Safe(c.accept.value, bound, Accepts, samples, cfg, thresholds, acceptTarget, minimum))
      && (c.reject.Some? ==> Safe(c.reject.value, bound, Rejects, samples, cfg, thresholds, rejectTarget, minimum))
      && (c.accept.Some? && c.reject.Some? ==> c.reject.value.threshold < c.accept.value.threshold)
  {
    WilsonIsLowerBound(z, sqrt);
    RecommendationIsSound(WilsonBound(z, sqrt), samples, cfg, acceptTarget, rejectTarget, minimum, thresholds);
    hide Calibrate, Safe, IsLowerBound, WilsonBound;
  }

  // ----- projecting a policy -----

  /** The samples accepted or rejected by the pair, each counted once. */
  function DecidedEither(samples: seq<Sample>, cfg: Config, acceptScore: real, rejectScore: real): nat {
    if samples == [] then 0
    else One(Decides(Accepts, samples[0], cfg, acceptScore) || Decides(Rejects, samples[0], cfg, rejectScore))
         + DecidedEither(samples[1..], cfg, acceptScore, rejectScore)
  }

  function ReviewCount(samples: seq<Sample>, cfg: Config, acceptScore: real, rejectScore: real): int {
    |samples| - DecidedEither(samples, cfg, acceptScore, rejectScore)
  }

  /** With ordered thresholds no sample is both accepted and rejected. */
  lemma DecisionsExclude(r: FilterResult, cfg: Config, acceptScore: real, rejectScore: real)
    requires rejectScore < acceptScore
    ensures !(WouldAccept(r, cfg, acceptScore) && WouldReject(r, cfg, rejectScore))
  {
  }

  /** The projected accept, reject and review counts partition the samples. */
  lemma {:induction false} ProjectionPartitions(
    samples: seq<Sample>, cfg: Config, acceptScore: real, rejectScore: real)
    requires rejectScore < acceptScore
    ensures Decided(Accepts, samples, cfg, acceptScore) + Decided(Rejects, samples, cfg, rejectScore)
            + ReviewCount(samples, cfg, acceptScore, rejectScore) == |samples|
    ensures ReviewCount(samples, cfg, acceptScore, rejectScore) >= 0
  {
    if samples != [] {
      DecisionsExclude(samples[0].result, cfg, acceptScore, rejectScore);
      ProjectionPartitions(samples[1..], cfg, acceptScore, rejectScore);
    }
  }

  /** A stored result: made by the engine under `cfg`, or an error. */
  ghost predicate FromEngine(r: FilterResult, cfg: Config) {
    || r == ErrorResult()
    || (r.rule.Some? && r.rule.value.disposition == AggregateDisposition(r.rule.value.hits)
        && exists net: Signed :: r == Decide(r.rule.value, r.visual, net, cfg))
  }

  function Made(samples: seq<Sample>, decision: FilterDecision): nat {
    if samples == [] then 0 else One(samples[0].result.decision == decision) + Made(samples[1..], decision)
  }

  lemma ReplayStored(r: FilterResult, cfg: Config)
    requires cfg.Valid() && FromEngine(r, cfg)
    ensures r.decision.Accept? <==> cfg.automaticAccept && WouldAccept(r, cfg, cfg.acceptScore)
    ensures r.decision.Reject? <==> WouldReject(r, cfg, cfg.rejectScore)
  {
    if r != ErrorResult() {
      var net: Signed :| r == Decide(r.rule.value, r.visual, net, cfg);
      CalibrationReplaysTheEngine(r.rule.value, r.visual, net, cfg);
    }
  }

  /**
   Projecting the current thresholds counts exactly the rejects that were made, and as many
   accepts and reviews together as there were accepts, reviews and errors. With automatic
   accept off, which is the default, no accept was made.
   */
  lemma {:induction false} ProjectionReplaysDecisions(samples: seq<Sample>, cfg: Config)
    requires cfg.Valid()
    requires forall x | x in samples :: FromEngine(x.result, cfg)
    ensures Decided(Rejects, samples, cfg, cfg.rejectScore) == Made(samples, Reject)
    ensures Decided(Accepts, samples, cfg, cfg.acceptScore)
            + ReviewCount(samples, cfg, cfg.acceptScore, cfg.rejectScore)
         == Made(samples, Accept) + Made(samples, Review) + Made(samples, Error)
    ensures Made(samples, Accept)
         == if cfg.automaticAccept then Decided(Accepts, samples, cfg, cfg.acceptScore) else 0
  {
    if samples != [] {
      ReplayStored(samples[0].result, cfg);
      DecisionsExclude(samples[0].result, cfg, cfg.acceptScore, cfg.rejectScore);
      ProjectionReplaysDecisions(samples[1..], cfg);
    }
  }

  /** The projected accepts are those made if and only if automatic accept is on or nothing would be accepted. */
  lemma ProjectedAcceptsAreMadeIff(samples: seq<Sample>, cfg: Config)
    requires cfg.Valid()
    requires forall x | x in samples :: FromEngine(x.result, cfg)
    ensures Decided(Accepts, samples, cfg, cfg.acceptScore) == Made(samples, Accept)
       <==> cfg.automaticAccept || forall x | x in samples :: !WouldAccept(x.result, cfg, cfg.acceptScore)
  {
    ProjectionReplaysDecisions(samples, cfg);
    NoneDecidedIff(Accepts, samples, cfg, cfg.acceptScore);
  }

  lemma {:induction false} NoneDecidedIff(kind: Kind, samples: seq<Sample>, cfg: Config, threshold: real)
    ensures Decided(kind, samples, cfg, threshold) == 0
       <==> forall x | x in samples :: !Decides(kind, x, cfg, threshold)
  {
    if samples != [] {
      NoneDecidedIff(kind, samples[1..], cfg, threshold);
      assert forall x :: x in samples <==> x == samples[0] || x in samples[1..];
    }
  }
}
