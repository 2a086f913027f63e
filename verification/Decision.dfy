/**
 The artwork filter's rules and decision engine, over exact reals. Reason codes, timings and
 identifiers of a result are not part of the model.
 */
module Decision {
  import opened Wrappers

  type Unit = r: real | 0.0 <= r <= 1.0

  datatype FilterDecision = Accept | Review | Reject | Error

  datatype ContentClass =
    | FinishedIllustration | TraditionalArt | Comic | CharacterSheet | SketchOrWip | ThreeDRender
    | CommissionSheet | AdoptableSheet | ArtMerchPhoto | PhotoOfArt
    | CasualPhoto | Selfie | FoodPhoto | PetPhoto | Screenshot | Meme | TextAnnouncement | Other
    | Unknown

  datatype RuleDisposition = Continue | ForceAccept | ForceReview | ForceReject

  datatype Route =
    | MainArt | Comics | ReferenceSheets | Sketches | CommissionMaterial | ArtPhotos
    | ToReview | Rejected | ErrorRoute

  const ACCEPTED_ROUTES: map<ContentClass, Route> :=
    map[FinishedIllustration := MainArt, TraditionalArt := MainArt, Comic := Comics,
        CharacterSheet := ReferenceSheets, SketchOrWip := Sketches, ThreeDRender := MainArt]

  const ROUTING_ROUTES: map<ContentClass, Route> :=
    map[CommissionSheet := CommissionMaterial, AdoptableSheet := CommissionMaterial,
        ArtMerchPhoto := ArtPhotos, PhotoOfArt := ArtPhotos]

  const REJECTED_CLASSES: set<ContentClass> :=
    {CasualPhoto, Selfie, FoodPhoto, PetPhoto, Screenshot, Meme, TextAnnouncement, Other}

  /** The classes that have an accept switch in the policy. */
  const POLICY_CLASSES: set<ContentClass> :=
    {FinishedIllustration, TraditionalArt, Comic, CharacterSheet, SketchOrWip, ThreeDRender,
     PhotoOfArt, ArtMerchPhoto, CommissionSheet, AdoptableSheet}

  datatype Config = Config(
    automaticAccept: bool, accepts: set<ContentClass>,
    acceptScore: Unit, rejectScore: Unit, minimumMargin: Unit, minimumConfidence: Unit,
    visualWeight: Unit, textWeight: Unit, ruleWeight: Unit, media: MediaConfig)
  {
    /** What the configuration validators demand. */
    ghost predicate Valid() {
      && rejectScore < acceptScore && accepts <= POLICY_CLASSES
      && -0.0001 <= visualWeight + textWeight + ruleWeight - 1.0 <= 0.0001
    }

    /** A class without a switch is not accepted. */
    predicate PolicyAccepts(c: ContentClass) {
      c in POLICY_CLASSES && c in accepts
    }
  }

  // ----- rules -----

  datatype MediaConfig = MediaConfig(
    minWidth: nat, minHeight: nat, minArea: nat, maxAspectRatio: real, allowAnimated: bool,
    reviewLowVariance: bool, lowVarianceThreshold: real, reviewReposts: bool)

  datatype LoadedImage = LoadedImage(width: nat, height: nat, isAnimated: bool, largestDeviation: real)

  datatype Provenance = Provenance(isRepost: bool, isQuotePost: bool)

  datatype RuleHit = RuleHit(rule: string, disposition: RuleDisposition)

  datatype RuleResult = RuleResult(disposition: RuleDisposition, hits: seq<RuleHit>)

  predicate HasHit(hits: seq<RuleHit>, d: RuleDisposition) {
    exists i | 0 <= i < |hits| :: hits[i].disposition == d
  }

  function AggregateDisposition(hits: seq<RuleHit>): RuleDisposition {
    if HasHit(hits, ForceReject) then ForceReject
    else if HasHit(hits, ForceReview) then ForceReview
    else if HasHit(hits, ForceAccept) then ForceAccept
    else Continue
  }

  function HitIf(condition: bool, rule: string, d: RuleDisposition): seq<RuleHit> {
    if condition then [RuleHit(rule, d)] else []
  }

  function MaxReal(a: real, b: real): real {
    if a >= b then a else b
  }

  function EvaluateRules(p: Provenance, image: LoadedImage, m: MediaConfig): RuleResult
    requires image.width > 0 && image.height > 0
  {
    var ratio := MaxReal(image.width as real / image.height as real, image.height as real / image.width as real);
    var hits :=
      HitIf(!(image.width >= m.minWidth && image.height >= m.minHeight), "media.minimum_dimensions", ForceReject)
      + HitIf(image.width * image.height < m.minArea, "media.minimum_area", ForceReject)
      + HitIf(ratio > m.maxAspectRatio, "media.extreme_aspect_ratio", ForceReview)
      + HitIf(image.isAnimated && !m.allowAnimated, "media.animation", ForceReject)
      + HitIf(m.reviewLowVariance && image.largestDeviation < m.lowVarianceThreshold,
              "media.low_variance", ForceReview)
      + HitIf(p.isRepost && m.reviewReposts, "provenance.repost", ForceReview)
      + HitIf(p.isQuotePost && m.reviewReposts, "provenance.quote_post", ForceReview);
    RuleResult(AggregateDisposition(hits), hits)
  }

  // ----- scores -----

  datatype ClassScore = ClassScore(contentClass: ContentClass, score: Unit)

  datatype VisualScores = VisualScores(classScores: seq<ClassScore>, artUtility: Unit, margin: Unit)

  type Signed = r: real | -1.0 <= r <= 1.0

  function Clamp(x: real): Unit {
    if x < 0.0 then 0.0 else if x > 1.0 then 1.0 else x
  }

  /** The first of the highest scores. */
  function Top(scores: seq<ClassScore>): (top: ClassScore)
    requires scores != []
    ensures forall i | 0 <= i < |scores| :: scores[i].score <= top.score
    ensures exists k | 0 <= k < |scores| :: scores[k] == top && forall i | 0 <= i < k :: scores[i].score < top.score
  {
    if |scores| == 1 then scores[0]
    else
      var rest := Top(scores[1..]);
      if scores[0].score >= rest.score then scores[0] else rest
  }

  function PredictedClass(visual: Option<VisualScores>): ContentClass {
    if visual == None || visual.value.classScores == [] then Unknown
    else Top(visual.value.classScores).contentClass
  }

  function TopConfidence(visual: VisualScores): Unit {
    if visual.classScores == [] then 0.0 else Clamp(Top(visual.classScores).score)
  }

  function TextComponent(netScore: Signed): Unit {
    Clamp(0.5 + 0.5 * netScore)
  }

  /** Not clamped: the weights may sum to slightly more than one. */
  function FinalScore(visual: VisualScores, netScore: Signed, cfg: Config): real {
    Weighted(cfg.visualWeight, visual.artUtility) + Weighted(cfg.textWeight, TextComponent(netScore))
    + cfg.ruleWeight * 0.5
  }

  function Weighted(weight: real, component: real): real {
    weight * component
  }

  // ----- decisions -----

  datatype FilterResult = FilterResult(
    decision: FilterDecision, predictedClass: ContentClass, route: Route,
    finalScore: Unit, confidence: Unit, visual: Option<VisualScores>, rule: Option<RuleResult>)

  /** An accepted class always has an accepted route, so the table lookup cannot fail. */
  lemma AcceptedClassHasRoute(c: ContentClass, cfg: Config)
    requires c !in REJECTED_CLASSES && c !in ROUTING_ROUTES && cfg.PolicyAccepts(c)
    ensures c in ACCEPTED_ROUTES
  {
  }

  function VisualDecision(c: ContentClass, score: real, confidence: Unit, margin: Unit, cfg: Config)
    : (FilterDecision, Route)
  {
    if c in REJECTED_CLASSES then (Reject, Rejected)
    else if c in ROUTING_ROUTES then (Review, ROUTING_ROUTES[c])
    else if !cfg.PolicyAccepts(c) then (Review, ToReview)
    else if confidence < cfg.minimumConfidence then (Review, ToReview)
    else if margin < cfg.minimumMargin then (Review, ToReview)
    else if score >= cfg.acceptScore then
      AcceptedClassHasRoute(c, cfg);
      if cfg.automaticAccept then (Accept, ACCEPTED_ROUTES[c]) else (Review, ToReview)
    else if score <= cfg.rejectScore then (Reject, Rejected)
    else (Review, ToReview)
  }

  function Decide(rule: RuleResult, visual: Option<VisualScores>, netScore: Signed, cfg: Config): FilterResult {
    if rule.disposition.ForceReject? then
      FilterResult(Reject, Unknown, Rejected, Clamp(0.0), Clamp(1.0), visual, Some(rule))
    else
      var c := PredictedClass(visual);
      var score := if visual == None then TextComponent(netScore) else FinalScore(visual.value, netScore, cfg);
      var confidence := if visual == None then 0.0 else TopConfidence(visual.value);
      var judged := if visual == None then (Review, ToReview)
                    else VisualDecision(c, score, confidence, visual.value.margin, cfg);
      var final := if rule.disposition.ForceReview? then (Review, ToReview) else judged;
      FilterResult(final.0, c, final.1, Clamp(score), Clamp(confidence), visual, Some(rule))
  }

  // ----- what the score of a decision is -----

  lemma WeightedGap(w: real, a: real, b: real)
    ensures Weighted(w, b) - Weighted(w, a) == w * (b - a)
  {
  }

  lemma WeightedSign(w: real, a: real)
    requires w >= 0.0 && a >= 0.0
    ensures Weighted(w, a) >= 0.0 && (a == 0.0 ==> Weighted(w, a) == 0.0)
  {
  }

  lemma WeightedOrder(w: real, a: real, b: real)
    requires w >= 0.0 && a <= b
    ensures Weighted(w, a) <= Weighted(w, b)
  {
    WeightedGap(w, a, b);
    WeightedSign(w, b - a);
  }

  /** The weighted sum is never negative, so only its upper end is clamped. */
  lemma ScoreIsSum(rule: RuleResult, visual: VisualScores, net: Signed, cfg: Config)
    requires !rule.disposition.ForceReject?
    ensures FinalScore(visual, net, cfg) >= 0.0
    ensures var r := Decide(rule, Some(visual), net, cfg);
            r.finalScore == if FinalScore(visual, net, cfg) > 1.0 then 1.0 else FinalScore(visual, net, cfg)
  {
    WeightedSign(cfg.visualWeight, visual.artUtility);
    WeightedSign(cfg.textWeight, TextComponent(net));
    hide Weighted;
    assert FinalScore(visual, net, cfg) >= 0.0;
  }

  /** Raising the art utility raises the score by its weight, whatever else the model says. */
  lemma UtilityRaisesScore(rule: RuleResult, a: VisualScores, b: VisualScores, net: Signed, cfg: Config)
    requires !rule.disposition.ForceReject?
    requires Decide(rule, Some(a), net, cfg).finalScore < 1.0 && Decide(rule, Some(b), net, cfg).finalScore < 1.0
    ensures Decide(rule, Some(b), net, cfg).finalScore - Decide(rule, Some(a), net, cfg).finalScore
         == cfg.visualWeight * (b.artUtility - a.artUtility)
  {
    hide Decide, Weighted;
    ScoreIsSum(rule, a, net, cfg);
    ScoreIsSum(rule, b, net, cfg);
    WeightedGap(cfg.visualWeight, a.artUtility, b.artUtility);
  }

  /** Raising the net text score raises the score by half of the text weight. */
  lemma TextRaisesScore(rule: RuleResult, visual: VisualScores, net: Signed, other: Signed, cfg: Config)
    requires !rule.disposition.ForceReject?
    requires Decide(rule, Some(visual), net, cfg).finalScore < 1.0
          && Decide(rule, Some(visual), other, cfg).finalScore < 1.0
    ensures Decide(rule, Some(visual), other, cfg).finalScore - Decide(rule, Some(visual), net, cfg).finalScore
         == cfg.textWeight * (0.5 * (other - net))
  {
    hide Decide, Weighted;
    ScoreIsSum(rule, visual, net, cfg);
    ScoreIsSum(rule, visual, other, cfg);
    WeightedGap(cfg.textWeight, TextComponent(net), TextComponent(other));
    assert TextComponent(other) - TextComponent(net) == 0.5 * (other - net);
  }

  /** The two ends of the scale: the least inputs give half of the rule weight; without a model the text decides. */
  lemma ScoreAtTheEnds(rule: RuleResult, visual: VisualScores, net: Signed, cfg: Config)
    requires !rule.disposition.ForceReject?
    ensures visual.artUtility == 0.0 ==> Decide(rule, Some(visual), -1.0, cfg).finalScore == cfg.ruleWeight / 2.0
    ensures Decide(rule, None, net, cfg).finalScore == (1.0 + net) / 2.0
    ensures Decide(rule, None, net, cfg).decision.Review? && Decide(rule, None, net, cfg).confidence == 0.0
  {
    ScoreIsSum(rule, visual, -1.0, cfg);
    WeightedSign(cfg.visualWeight, visual.artUtility);
    WeightedSign(cfg.textWeight, TextComponent(-1.0));
    hide Weighted;
    assert TextComponent(-1.0) == 0.0;
  }

  /** A better utility never turns an accept into anything else, and a worse one never a reject. */
  lemma UtilityHelps(rule: RuleResult, a: VisualScores, b: VisualScores, net: Signed, cfg: Config)
    requires a.classScores == b.classScores && a.margin == b.margin && a.artUtility <= b.artUtility
    ensures Decide(rule, Some(a), net, cfg).decision.Accept? ==> Decide(rule, Some(b), net, cfg).decision.Accept?
    ensures cfg.Valid() && Decide(rule, Some(b), net, cfg).decision.Reject? ==>
      Decide(rule, Some(a), net, cfg).decision.Reject?
  {
    hide Weighted;
    WeightedOrder(cfg.visualWeight, a.artUtility, b.artUtility);
    assert FinalScore(a, net, cfg) <= FinalScore(b, net, cfg);
    hide FinalScore;
  }

  /** Where a decision is filed, and how sure it is said to be. */
  lemma DecisionIsFiled(rule: RuleResult, visual: VisualScores, net: Signed, cfg: Config)
    ensures var r := Decide(rule, Some(visual), net, cfg);
      && (r.decision.Reject? ==> r.route == Rejected)
      && (r.decision.Review? ==>
            r.route == (if r.predictedClass in ROUTING_ROUTES && !rule.disposition.ForceReview?
                        then ROUTING_ROUTES[r.predictedClass] else ToReview))
      && (rule.disposition.ForceReject? ==>
            r.decision.Reject? && r.predictedClass == Unknown && r.finalScore == 0.0 && r.confidence == 1.0)
      && (rule.disposition.ForceReview? ==> r.decision.Review?)
      && (!rule.disposition.ForceReject? && visual.classScores != [] ==>
            exists k | 0 <= k < |visual.classScores| ::
              r.predictedClass == visual.classScores[k].contentClass && r.confidence == visual.classScores[k].score
              && forall i | 0 <= i < |visual.classScores| :: visual.classScores[i].score <= r.confidence)
  {
    hide FinalScore;
  }

  function ErrorResult(): FilterResult {
    FilterResult(Error, Unknown, ErrorRoute, 0.0, 0.0, None, None)
  }
}
