/** The policy engine (backend/src/policy/policyEngine.js): a risk score, then a first-match
    ladder of eight rules. */
module Policy {
  import opened Common
  import opened Types
  import opened Classifier

  /** The arguments of `buildDecision`; the defaults of the source are the callers' to pass. */
  datatype PolicyInput = PolicyInput(
    anomalyScore: int,
    classification: Classification,
    features: Features,
    trustScore: real,
    globalAttackMode: bool,
    verified: bool,
    challengeFailures: nat)

  /** A policy decision. `rateLimitRps` is `None` where the source returns `null`. */
  datatype Decision = Decision(
    action: Action,
    throttleMs: int,
    rateLimitRps: Option<int>,
    reason: string,
    confidence: real,
    topFeatures: seq<string>,
    riskScore: real)

  /** The three feature names reported with every decision. */
  function TopFeatures(f: Features): (r: seq<string>)
    ensures |r| == 3 && r[0] == "rps"
  {
    ["rps",
     if f.endpointConcentration > 0.4 then "endpointConcentration" else "headerEntropy",
     if f.headerEntropy < 1.5 then "headerEntropy" else "payloadVariance"]
  }

  /** The weight a traffic class adds to the risk. */
  function ClassWeight(c: TrafficClass): real
  {
    match c
    case Flood => 0.35
    case Bot => 0.2
    case FlashCrowd => 0.1
    case Legit => 0.0
  }

  /** The risk before verification and failures are taken into account. */
  function BaseRisk(anomaly: int, c: TrafficClass, trust: real, confidence: real): (r: real)
    ensures r <= 1.0
  {
    var trustPenalty := MaxReal(0.0, 0.5 - trust) * 0.5;
    MinReal(1.0, anomaly as real / 100.0 * 0.6 + ClassWeight(c) + trustPenalty + confidence * 0.25)
  }

  /** A verified caller's risk is lowered by 0.35, but not below 0. */
  function VerifiedRisk(risk: real, verified: bool): real
  {
    if verified then MaxReal(0.0, risk - 0.35) else risk
  }

  /** Challenge failures add 0.08 each, at most 0.2 in all, and the risk stays at most 1. */
  function FailureRisk(risk: real, failures: nat): real
  {
    if failures > 0 then MinReal(1.0, risk + MinReal(0.2, failures as real * 0.08)) else risk
  }

  /** The `riskScore` of a decision. */
  function RiskScore(p: PolicyInput): real
  {
    var base := BaseRisk(p.anomalyScore, p.classification.trafficClass, p.trustScore, p.classification.confidence);
    FailureRisk(VerifiedRisk(base, p.verified), p.challengeFailures)
  }

  /** The unverified-suspicion rule: a bot-like class, a high anomaly, a high risk or a very
      low trust. */
  predicate Suspicious(p: PolicyInput, risk: real)
  {
    !p.verified
    && (IsBotLike(p.classification.trafficClass) || p.anomalyScore >= 75 || risk >= 0.8 || p.trustScore < 0.15)
  }

  /** The hard-block rule that follows the two allow rules. */
  predicate SustainedAttack(p: PolicyInput, risk: real)
  {
    IsBotLike(p.classification.trafficClass) && risk >= 0.97 && p.anomalyScore > 92 && p.trustScore < 0.2
  }

  /** The rate-limit rule. */
  predicate Elevated(p: PolicyInput, risk: real)
  {
    risk >= 0.85 && (IsBotLike(p.classification.trafficClass) || p.anomalyScore > 80)
  }

  /** The eight rules of the ladder, in the order they are tried. */
  datatype Rule =
    | FailureBlock | AttackChallenge | SuspicionChallenge | LowRateAllow
    | BaselineAllow | SustainedBlock | ElevatedRateLimit | DefaultAllow

  /** The first rule of the ladder that applies, given the computed risk. */
  function FirstRule(p: PolicyInput, risk: real): Rule
  {
    if p.challengeFailures >= 3 then FailureBlock
    else if p.globalAttackMode && !p.verified then AttackChallenge
    else if Suspicious(p, risk) then SuspicionChallenge
    else if p.features.rps < 2.0 && p.trustScore > 0.2 then LowRateAllow
    else if (p.classification.trafficClass == Legit || p.classification.trafficClass == FlashCrowd)
            && p.anomalyScore < 70 && p.trustScore > 0.3 then BaselineAllow
    else if SustainedAttack(p, risk) then SustainedBlock
    else if Elevated(p, risk) then ElevatedRateLimit
    else DefaultAllow
  }

  function ActionOf(r: Rule): Action
  {
    match r
    case FailureBlock => Block
    case AttackChallenge => Challenge
    case SuspicionChallenge => Challenge
    case LowRateAllow => Allow
    case BaselineAllow => Allow
    case SustainedBlock => Block
    case ElevatedRateLimit => RateLimit
    case DefaultAllow => Allow
  }

  /** The `rateLimitRps` each rule reports. */
  function RateLimitOf(r: Rule): Option<int>
  {
    match r
    case FailureBlock => Some(0)
    case SustainedBlock => Some(0)
    case ElevatedRateLimit => Some(30)
    case _ => None
  }

  function ReasonOf(r: Rule, className: string): string
  {
    match r
    case FailureBlock => "Repeated CAPTCHA failures detected. Blocking temporarily."
    case AttackChallenge => "Attack mode active. Step-up verification required."
    case SuspicionChallenge => "Suspicious signals detected. Step-up verification required."
    case LowRateAllow => "Low request rate; allow to avoid false positives."
    case BaselineAllow => "Traffic within expected baseline. Monitoring only."
    case SustainedBlock =>
      "Temporary block applied due to sustained " + className + " signals, high anomaly score, and low trust."
    case ElevatedRateLimit =>
      "Rate limiting applied due to " + className + " signals, elevated anomaly score, and declining trust."
    case DefaultAllow => "Traffic allowed with continued monitoring."
  }

  /** The two early allow rules report at least 0.4 confidence; the others the classifier's. */
  function ConfidenceOf(r: Rule, confidence: real): real
  {
    if r == LowRateAllow || r == BaselineAllow then MaxReal(0.4, confidence) else confidence
  }

  /** `buildDecision(input)`. */
  function BuildDecision(p: PolicyInput): (d: Decision)
  {
    var risk := RiskScore(p);
    var rule := FirstRule(p, risk);
    Decision(ActionOf(rule), 0, RateLimitOf(rule), ReasonOf(rule, ClassName(p.classification.trafficClass)),
             ConfidenceOf(rule, p.classification.confidence), TopFeatures(p.features), risk)
  }

  /** Every decision reports the computed risk, no throttle, and three top features
      starting with `rps`. */
  lemma DecisionShape(p: PolicyInput)
    ensures var d := BuildDecision(p);
            && d.riskScore == RiskScore(p) && d.throttleMs == 0
            && |d.topFeatures| == 3 && d.topFeatures[0] == "rps"
  {
  }

  /** The risk score lies in [0, 1] when the anomaly score is a percentage and the trust and
      the confidence are in [0, 1]; it is never above 1 whatever the inputs. */
  lemma RiskInRange(p: PolicyInput)
    ensures RiskScore(p) <= 1.0
    ensures (0 <= p.anomalyScore <= 100 && 0.0 <= p.trustScore <= 1.0
             && 0.0 <= p.classification.confidence <= 1.0) ==> 0.0 <= RiskScore(p)
  {
  }

  /** Verification lowers the risk by exactly 0.35, floored at 0, and failures raise it by
      `min(0.2, 0.08·n)`, capped at 1. */
  lemma RiskAdjustments(p: PolicyInput)
    ensures var base := BaseRisk(p.anomalyScore, p.classification.trafficClass, p.trustScore, p.classification.confidence);
            var v := if p.verified then MaxReal(0.0, base - 0.35) else base;
            && (p.challengeFailures == 0 ==> RiskScore(p) == v)
            && (p.challengeFailures > 0 ==> RiskScore(p) == MinReal(1.0, v + MinReal(0.2, p.challengeFailures as real * 0.08)))
  {
  }

  /** Being verified never raises the risk, and more failures never lower it (for a
      non-negative anomaly score and confidence, which keep the base risk non-negative). */
  lemma RiskMonotone(p: PolicyInput, n: nat)
    requires p.anomalyScore >= 0 && p.classification.confidence >= 0.0
    requires n >= p.challengeFailures
    ensures RiskScore(p.(verified := true)) <= RiskScore(p.(verified := false))
    ensures RiskScore(p) <= RiskScore(p.(challengeFailures := n))
  {
    var base := BaseRisk(p.anomalyScore, p.classification.trafficClass, p.trustScore, p.classification.confidence);
    FailureRiskMonotone(VerifiedRisk(base, true), VerifiedRisk(base, false), p.challengeFailures, p.challengeFailures);
    FailureRiskMonotone(VerifiedRisk(base, p.verified), VerifiedRisk(base, p.verified), p.challengeFailures, n);
  }

  /** `FailureRisk` is monotone in both the risk and the failure count. */
  lemma FailureRiskMonotone(r1: real, r2: real, m: nat, n: nat)
    requires r1 <= r2 <= 1.0 && m <= n
    ensures FailureRisk(r1, m) <= FailureRisk(r2, n)
  {
    assert m as real <= n as real;
    assert m as real * 0.08 <= n as real * 0.08;
  }

  /** Three or more challenge failures always block, with a rate limit of 0. */
  lemma FailuresBlock(p: PolicyInput)
    requires p.challengeFailures >= 3
    ensures BuildDecision(p).action == Block && BuildDecision(p).rateLimitRps == Some(0)
  {
  }

  /** In attack mode an unverified caller with fewer than three failures is challenged. */
  lemma AttackModeChallenges(p: PolicyInput)
    requires p.globalAttackMode && !p.verified && p.challengeFailures < 3
    ensures BuildDecision(p).action == Challenge
  {
  }

  /** Only an unverified caller is challenged, and only with fewer than three failures. */
  lemma ChallengeOnlyUnverified(p: PolicyInput)
    ensures BuildDecision(p).action == Challenge ==> !p.verified && p.challengeFailures < 3
  {
  }

  /** An unverified caller with fewer than three failures is challenged exactly when attack
      mode is on or the suspicion rule holds. */
  lemma ChallengeExactly(p: PolicyInput)
    requires !p.verified && p.challengeFailures < 3
    ensures BuildDecision(p).action == Challenge
            <==> p.globalAttackMode || Suspicious(p, RiskScore(p))
  {
  }

  /** The low-rate rule, once reached, allows with a confidence of at least 0.4. */
  lemma LowRateAllows(p: PolicyInput)
    requires p.challengeFailures < 3 && !(p.globalAttackMode && !p.verified) && !Suspicious(p, RiskScore(p))
    requires p.features.rps < 2.0 && p.trustScore > 0.2
    ensures BuildDecision(p).action == Allow
    ensures BuildDecision(p).confidence == MaxReal(0.4, p.classification.confidence)
  {
  }

  /** A rate-limit decision always carries 30 requests per second, a block always 0, and
      the other actions none. */
  lemma RateLimitValues(p: PolicyInput)
    ensures var d := BuildDecision(p);
            && (d.action == RateLimit ==> d.rateLimitRps == Some(30))
            && (d.action == Block ==> d.rateLimitRps == Some(0))
            && (d.action == Allow || d.action == Challenge ==> d.rateLimitRps.None?)
  {
  }

  /** A block comes only from repeated failures or from a sustained bot-like attack with a
      very high risk, a very high anomaly score and a low trust. */
  lemma BlockReasons(p: PolicyInput)
    ensures BuildDecision(p).action == Block
            ==> p.challengeFailures >= 3 || SustainedAttack(p, RiskScore(p))
  {
  }

  /** A verified caller with fewer than three failures and a non-bot-like class is never
      blocked or rate limited unless the anomaly score is above 80. */
  lemma VerifiedLegitNotThrottled(p: PolicyInput)
    requires p.verified && p.challengeFailures < 3
    requires !IsBotLike(p.classification.trafficClass) && p.anomalyScore <= 80
    ensures BuildDecision(p).action == Allow
  {
  }
}
