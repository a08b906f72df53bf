/** The gateway middleware (backend/src/index.js): routing to a registered target, the
    challenge verification flow, the decision sequence around the policy engine, the final
    action after enforcement, and the attack-alert cooldown. */
module Gateway {
  import opened Common
  import opened Types
  import opened JsStrings
  import opened Classifier
  import opened Policy
  import AttackModes
  import Challenges
  import Limiter
  import Registry
  import MetricsState
  import TrustScore
  import Config

  /* ---------------------------------------------------------------- routing */

  const GatewayRoot := "/gateway/"
  const NotSpecifiedMessage := "Target not specified."
  const NotRegisteredMessage := "Target not registered."

  /** The target segment of `/^\/gateway\/([^/]+)(\/|$)/`: the non-empty run of characters
      other than "/" right after "/gateway/". */
  function MatchTarget(path: string): (r: Option<string>)
  {
    if StartsWith(path, GatewayRoot) then
      var id := BeforeFirst(path[|GatewayRoot|..], '/');
      if id == "" then None else Some(id)
    else None
  }

  /** A match is a non-empty segment without "/" that follows "/gateway/" and ends the path
      or is followed by "/". */
  lemma MatchTargetShape(path: string)
    ensures var r := MatchTarget(path);
            r.Some? ==> && r.value != "" && '/' !in r.value
                        && StartsWith(path, GatewayRoot + r.value)
                        && (|path| == |GatewayRoot| + |r.value| || path[|GatewayRoot| + |r.value|] == '/')
  {
    var r := MatchTarget(path);
    if r.Some? {
      var rest := path[|GatewayRoot|..];
      assert r.value == rest[..|r.value|];
      assert path[..|GatewayRoot| + |r.value|] == GatewayRoot + r.value;
      if |path| != |GatewayRoot| + |r.value| {
        assert path[|GatewayRoot| + |r.value|] == rest[|r.value|];
      }
    }
  }

  /** Conversely, every such path matches, with its segment as the target id. */
  lemma MatchTargetOf(id: string, suffix: string)
    requires id != "" && '/' !in id && (suffix == "" || suffix[0] == '/')
    ensures MatchTarget(GatewayRoot + id + suffix) == Some(id)
  {
    var path := GatewayRoot + id + suffix;
    assert path[..|GatewayRoot|] == GatewayRoot;
    assert path[|GatewayRoot|..] == id + suffix;
    if suffix == "" {
      assert id + suffix == id;
    } else {
      assert id + suffix == id + ['/'] + suffix[1..];
      BeforeSeparator(id, '/', suffix[1..]);
    }
  }

  datatype RouteOutcome =
    | NotSpecified
    | NotRegistered(targetId: string)
    | Routed(targetId: string, target: Registry.Target)

  /** Lines 130-144: the target a gateway path names, or why there is none (both answered
      with 404 before any detection runs). */
  function Route(reg: Registry.TargetRegistry, path: string): (r: RouteOutcome)
    reads reg
  {
    match MatchTarget(path)
    case None => NotSpecified
    case Some(id) =>
      match reg.GetTarget(Some(id))
      case None => NotRegistered(id)
      case Some(t) => Routed(id, t)
  }

  /** A request reaches detection only for a path that names a target, and only when that
      name, once normalised, is registered; the target is then the one stored. */
  lemma RouteCases(reg: Registry.TargetRegistry, path: string)
    ensures var r := Route(reg, path);
            && (r == NotSpecified <==> MatchTarget(path).None?)
            && (r.Routed? <==> MatchTarget(path).Some? && Registry.NormalizeTargetId(MatchTarget(path)).Some?
                               && Registry.NormalizeTargetId(MatchTarget(path)).value in reg.targets)
            && (r.Routed? ==> r.target == reg.targets[Registry.NormalizeTargetId(MatchTarget(path)).value])
  {
    if MatchTarget(path).Some? {
      Registry.GetTargetCases(reg, MatchTarget(path));
    }
  }

  /* ---------------------------------------------------- challenge verification */

  const AccessBlockedMessage := "Verification failed. Access blocked."

  datatype VerifyResponse =
    | AccessBlocked
    | RetryChallenge(token: string, originalUrl: string, error: string)
    | RedirectTo(location: string)

  function TargetHome(targetId: string): string
  {
    "/gateway/" + targetId
  }

  /** Lines 148-158, `GET /gateway/<id>/_challenge`: a new challenge for the decoded
      `originalUrl` query value (`None` when absent), or for the target's home when there is
      none. Returns the new tables and the URL the challenge page carries. */
  function ChallengeFlow(t: Challenges.Tables, signature: string, targetId: string, originalUrl: Option<string>,
                         token: string, now: int): (Challenges.Tables, string)
  {
    var url := OrString(originalUrl, TargetHome(targetId));
    (Challenges.CreateChallenge(t, signature, targetId, url, token, now), url)
  }

  /** Lines 160-184, `POST /gateway/<id>/_verify`: the challenge tables and the response.
      `originalUrl` is the decoded body field (`None` when absent), `retryToken` the random
      token of a new challenge; verification reads the clock at `sweptAt` and `now`, the later
      calls at `now`. */
  function VerifyFlow(t: Challenges.Tables, signature: string, targetId: string, token: string, human: bool,
                      originalUrl: Option<string>, retryToken: string, sweptAt: int, now: int)
    : (Challenges.Tables, VerifyResponse)
  {
    var (t1, outcome) := Challenges.VerifyChallenge(t, token, signature, human, sweptAt, now);
    match outcome
    case Failed(reason) =>
      var (t2, failures) := Challenges.RecordFailure(t1, signature, now);
      if failures >= Challenges.MaxFailures then (t2, AccessBlocked)
      else
        var url := OrString(originalUrl, TargetHome(targetId));
        (Challenges.CreateChallenge(t2, signature, targetId, url, retryToken, now), RetryChallenge(retryToken, url, reason))
    case Passed(url, _) =>
      (Challenges.ClearFailures(Challenges.MarkVerified(t1, signature, Challenges.VerifiedTtlMs, now), signature),
       RedirectTo(if url == "" then TargetHome(targetId) else url))
  }

  /** A failed verification adds a failure; at the third failure within the failure window
      access is refused and no new challenge is issued, before it a new challenge carrying the
      failure reason is issued. A passed verification leaves the signature verified for the
      next twenty minutes with no failures, and redirects to the challenged URL. */
  lemma VerifyFlowOutcomes(t: Challenges.Tables, signature: string, targetId: string, token: string, human: bool,
                           originalUrl: Option<string>, retryToken: string, sweptAt: int, now: int, later: int)
    requires now <= later < now + Challenges.VerifiedTtlMs
    ensures var (t1, outcome) := Challenges.VerifyChallenge(t, token, signature, human, sweptAt, now);
            var (t2, r) := VerifyFlow(t, signature, targetId, token, human, originalUrl, retryToken, sweptAt, now);
            var n := Challenges.FailureCount(t1, signature, now) + 1;
            && (outcome.Failed? && n >= Challenges.MaxFailures ==>
                  r == AccessBlocked && t2.challenges == Challenges.Cleaned(t1, now).challenges)
            && (outcome.Failed? && n < Challenges.MaxFailures ==>
                  var url := OrString(originalUrl, TargetHome(targetId));
                  && r == RetryChallenge(retryToken, url, outcome.reason)
                  && retryToken in t2.challenges
                  && t2.challenges[retryToken] == Challenges.ChallengeRecord(signature, targetId, url, now, now + Challenges.ChallengeTtlMs))
            && (outcome.Passed? ==>
                  && r == RedirectTo(if outcome.originalUrl == "" then TargetHome(targetId) else outcome.originalUrl)
                  && Challenges.IsVerified(t2, signature, later)
                  && Challenges.FailureCount(t2, signature, now) == 0)
  {
    var (t1, outcome) := Challenges.VerifyChallenge(t, token, signature, human, sweptAt, now);
    if outcome.Failed? {
      Challenges.RecordFailureCounts(t1, signature, now);
    } else {
      var m := Challenges.MarkVerified(t1, signature, Challenges.VerifiedTtlMs, now);
      Challenges.MarkThenVerified(t1, signature, Challenges.VerifiedTtlMs, now, later);
      Challenges.IsVerifiedIff(m, signature, later);
      Challenges.IsVerifiedIff(Challenges.ClearFailures(m, signature), signature, later);
      Challenges.ClearedCountIsZero(m, signature, now);
    }
  }

  /** The flow on the live challenge store. */
  method HandleVerify(store: Challenges.ChallengeStore, signature: string, targetId: string, token: string,
                      human: bool, originalUrl: Option<string>, retryToken: string, sweptAt: int, now: int)
    returns (r: VerifyResponse)
    modifies store
    ensures (store.State(), r)
            == VerifyFlow(old(store.State()), signature, targetId, token, human, originalUrl, retryToken, sweptAt, now)
  {
    var outcome := store.VerifyChallengeAt(token, signature, human, sweptAt, now);
    if outcome.Failed? {
      var failures := store.RecordFailureAt(signature, now);
      if failures >= Challenges.MaxFailures {
        return AccessBlocked;
      }
      var url := OrString(originalUrl, TargetHome(targetId));
      var issued := store.CreateChallengeAt(signature, targetId, url, retryToken, now);
      return RetryChallenge(issued, url, outcome.reason);
    }
    store.MarkVerifiedAt(signature, Challenges.VerifiedTtlMs, now);
    store.ClearFailuresOf(signature);
    r := RedirectTo(if outcome.originalUrl == "" then TargetHome(targetId) else outcome.originalUrl);
  }

  /** A challenge page answered by a human confirmation from the same signature before the
      challenge's five minutes run out redirects to the URL the page carried (the query's
      `originalUrl`, or the target's home) and leaves the signature verified. */
  lemma ChallengeThenVerify(t: Challenges.Tables, signature: string, targetId: string, originalUrl: Option<string>,
                            token: string, now: int, bodyUrl: Option<string>, retryToken: string,
                            sweptAt: int, later: int)
    requires now <= sweptAt <= later < now + Challenges.ChallengeTtlMs
    ensures var (t1, url) := ChallengeFlow(t, signature, targetId, originalUrl, token, now);
            var (t2, r) := VerifyFlow(t1, signature, targetId, token, true, bodyUrl, retryToken, sweptAt, later);
            && url == (if originalUrl.Some? && originalUrl.value != "" then originalUrl.value else TargetHome(targetId))
            && r == RedirectTo(url)
            && Challenges.IsVerified(t2, signature, later)
  {
    var (t1, url) := ChallengeFlow(t, signature, targetId, originalUrl, token, now);
    Challenges.CreateStores(t, signature, targetId, url, token, now);
    Challenges.CleanedLive(t1, sweptAt);
    var (t2, outcome) := Challenges.VerifyChallenge(t1, token, signature, true, sweptAt, later);
    assert outcome == Challenges.Passed(url, targetId);
    VerifyFlowOutcomes(t1, signature, targetId, token, true, bodyUrl, retryToken, sweptAt, later, later);
  }

  /** The challenge route on the live challenge store. */
  method HandleChallenge(store: Challenges.ChallengeStore, signature: string, targetId: string,
                         originalUrl: Option<string>, token: string, now: int)
    returns (url: string)
    modifies store
    ensures (store.State(), url) == ChallengeFlow(old(store.State()), signature, targetId, originalUrl, token, now)
  {
    url := OrString(originalUrl, TargetHome(targetId));
    var issued := store.CreateChallengeAt(signature, targetId, url, token, now);
  }

  /* --------------------------------------------------------- decision sequence */

  const VerifiedTrustBoost: real := 0.35
  const BypassSuffix := " Verified client bypass."

  /** Lines 218-221: a verified caller's trust is raised before the policy sees it. */
  function VerifiedTrust(trust: real, verified: bool): (r: real)
  {
    if verified then MinReal(1.0, trust + VerifiedTrustBoost) else trust
  }

  /** The boost never lowers trust and keeps it within [0, 1]. */
  lemma VerifiedTrustBounds(trust: real, verified: bool)
    requires 0.0 <= trust <= 1.0
    ensures var r := VerifiedTrust(trust, verified);
            && trust <= r <= 1.0
            && (!verified ==> r == trust)
            && (verified && trust <= 0.65 ==> r == trust + 0.35)
            && (verified && trust > 0.65 ==> r == 1.0)
  {
  }

  /** Lines 223-236: the attack mode the policy sees, the controller's answer or any of the
      three signals computed from the larger of the two anomaly scores. */
  function GlobalAttackMode(controller: bool, maxAnomaly: int, rps: real, c: TrafficClass): bool
  {
    controller || maxAnomaly >= 70 || rps >= 25.0 || (IsBotLike(c) && maxAnomaly >= 55)
  }

  /** The three extra signals are exactly the controller's own switch-on signal, so the result
      is the controller's answer to the same update. */
  lemma AttackModeOrAddsNothing(s: AttackModes.ModeState, maxAnomaly: int, rps: real, c: TrafficClass, now: int)
    ensures var controller := AttackModes.Step(s, maxAnomaly, rps, c, false, now).active;
            GlobalAttackMode(controller, maxAnomaly, rps, c) == controller
  {
    AttackModes.StepActive(s, maxAnomaly, rps, c, false, now);
  }

  /** Lines 249-255: a verified caller's decision other than a block becomes an allow, with a
      note added to its reason. */
  function Bypass(d: Decision, verified: bool): (r: Decision)
  {
    if verified && d.action != Block then d.(action := Allow, reason := d.reason + BypassSuffix) else d
  }

  /** The bypass touches only verified callers' non-block decisions, and only their action
      and reason; for them the action is always an allow. */
  lemma BypassCases(d: Decision, verified: bool)
    ensures var r := Bypass(d, verified);
            && r.rateLimitRps == d.rateLimitRps && r.riskScore == d.riskScore && r.confidence == d.confidence
            && (!verified || d.action == Block ==> r == d)
            && (verified ==> r.action in {Allow, Block})
            && (verified && d.action != Block ==> r.action == Allow && r.reason == d.reason + BypassSuffix)
  {
  }

  /** What the middleware knows when it calls the policy engine. */
  datatype DecisionContext = DecisionContext(
    anomalyScore: int, classification: Classification, features: Features, trust: real,
    verified: bool, controllerActive: bool, maxAnomaly: int, rps: real, failures: nat)

  function PolicyInputOf(x: DecisionContext): PolicyInput
  {
    PolicyInput(x.anomalyScore, x.classification, x.features, VerifiedTrust(x.trust, x.verified),
                GlobalAttackMode(x.controllerActive, x.maxAnomaly, x.rps, x.classification.trafficClass),
                x.verified, x.failures)
  }

  /** Lines 218-255: the decision after the trust boost, the attack-mode signals, the policy
      engine and the verified bypass. */
  function GatewayDecision(x: DecisionContext): (d: Decision)
  {
    Bypass(BuildDecision(PolicyInputOf(x)), x.verified)
  }

  /** Three failed challenges block even a verified caller; a verified caller with fewer is
      always allowed; an unverified caller gets the policy engine's decision unchanged, and a
      challenge whenever attack mode is on and it has fewer than three failures. */
  lemma GatewayDecisionCases(x: DecisionContext)
    ensures var d := GatewayDecision(x);
            && (x.failures >= Challenges.MaxFailures ==> d.action == Block && d.rateLimitRps == Some(0))
            && (x.verified && x.failures < Challenges.MaxFailures ==> d.action == Allow)
            && (!x.verified ==> d == BuildDecision(PolicyInputOf(x)))
            && (!x.verified && x.failures < Challenges.MaxFailures && x.controllerActive ==> d.action == Challenge)
  {
    var p := PolicyInputOf(x);
    if x.failures >= Challenges.MaxFailures {
      FailuresBlock(p);
    }
    if x.verified && x.failures < Challenges.MaxFailures {
      ChallengeOnlyUnverified(p);
      DecisionShape(p);
    }
    if !x.verified && x.failures < Challenges.MaxFailures && x.controllerActive {
      AttackModeChallenges(p);
    }
  }

  /** Lines 266-272: the action name the metrics record. */
  function MetricsActionOf(a: Action): (r: MetricsState.MetricsAction)
  {
    match a
    case Allow => MetricsState.Allowed
    case RateLimit => MetricsState.RateLimited
    case Challenge => MetricsState.Challenged
    case Block => MetricsState.Blocked
  }

  /** Distinct actions are recorded under distinct names, and never as throttled. */
  lemma MetricsActionDistinct(a: Action, b: Action)
    ensures a != b ==> MetricsActionOf(a) != MetricsActionOf(b)
    ensures MetricsActionOf(a) != MetricsState.Throttled
  {
  }

  /** Lines 213-247 on the live stores: update trust, check verification, update the attack
      mode (not blocked), count failures, then decide. `maxAnomaly` and `rps` are what the
      metrics report after the request and anomaly were recorded. */
  method DecideRequest(trust: TrustScore.TrustStore, challenges: Challenges.ChallengeStore, mode: AttackModes.AttackMode,
                       signature: string, anomalyScore: int, classification: Classification, features: Features,
                       maxAnomaly: int, rps: real, now: int)
    returns (d: Decision)
    requires trust.Valid()
    modifies trust, challenges, mode
    ensures trust.Valid()
    ensures trust.records == old(trust.records)[signature :=
              TrustScore.Updated(TrustScore.RecordOf(old(trust.records), signature, now), anomalyScore,
                                 classification.trafficClass, now)]
    ensures mode.State() == AttackModes.Step(old(mode.State()), maxAnomaly, rps, classification.trafficClass, false, now)
    ensures challenges.State() == Challenges.Cleaned(Challenges.Cleaned(old(challenges.State()), now), now)
    ensures d == GatewayDecision(DecisionContext(
              anomalyScore, classification, features, trust.records[signature].trust,
              Challenges.IsVerified(old(challenges.State()), signature, now), mode.active, maxAnomaly, rps,
              Challenges.FailureCount(Challenges.Cleaned(old(challenges.State()), now), signature, now)))
  {
    var trustScore := trust.UpdateTrust(signature, anomalyScore, classification.trafficClass, now);
    var verified := challenges.IsVerifiedAt(signature, now);
    var controller := mode.UpdateAttackMode(maxAnomaly, rps, classification.trafficClass, false, now);
    var failures := challenges.GetFailureCount(signature, now);
    d := GatewayDecision(DecisionContext(anomalyScore, classification, features, trustScore, verified, controller,
                                         maxAnomaly, rps, failures));
  }

  /* ------------------------------------------------------ after the decision */

  datatype NextStep = ShowChallenge | SendToDecoy | EnforceLimits

  /** Lines 315-339: a challenge decision shows the challenge page; otherwise, in attack mode,
      bot-like traffic from an unverified caller is challenged, or sent to the decoy after
      three failures; everything else goes to enforcement. */
  function AfterDecision(action: Action, attackMode: bool, c: TrafficClass, verified: bool, failures: nat): (r: NextStep)
  {
    if action == Challenge then ShowChallenge
    else if attackMode && IsBotLike(c) && !verified then
      if failures >= Challenges.MaxFailures then SendToDecoy else ShowChallenge
    else EnforceLimits
  }

  /** Only challenge decisions and bot-like traffic in attack mode avoid enforcement; a
      verified caller is never sent to the decoy. */
  lemma AfterDecisionCases(action: Action, attackMode: bool, c: TrafficClass, verified: bool, failures: nat)
    ensures var r := AfterDecision(action, attackMode, c, verified, failures);
            && (r == EnforceLimits <==> action != Challenge && !(attackMode && IsBotLike(c) && !verified))
            && (r == SendToDecoy ==> !verified && failures >= Challenges.MaxFailures && action != Challenge)
            && (verified ==> r != SendToDecoy)
  {
  }

  /** Lines 341-349: the action actually applied after `enforce`. */
  function FinalAction(action: Action, e: Limiter.Enforcement): (r: Action)
  {
    if action == Allow then (if e.allowed then Allow else if e.blocked then Block else RateLimit)
    else if action == RateLimit then RateLimit
    else Block
  }

  /** An allow survives only when enforcement allows it, and turns into a block for a blocked
      signature and a rate limit otherwise; rate limits and blocks are kept whatever
      enforcement says. */
  lemma FinalActionCases(action: Action, e: Limiter.Enforcement)
    ensures var r := FinalAction(action, e);
            && (action == Allow ==> (r == Allow <==> e.allowed) && (r == Block <==> !e.allowed && e.blocked))
            && (action == RateLimit ==> r == RateLimit)
            && (action == Block ==> r == Block)
            && (r == Allow ==> action == Allow)
  {
  }

  /** An allow for a signature that is not on the block list is applied; one for a blocked
      signature becomes a block. */
  lemma AllowedUnlessBlocked(s: Limiter.LimiterState, signature: string, rateLimitRps: Option<int>,
                             config: Limiter.LimiterConfig, now: int)
    ensures var e := Limiter.Enforce(s, signature, Allow, rateLimitRps, config, now).1;
            && (!Limiter.BlockedAt(s, signature, now) ==> FinalAction(Allow, e) == Allow)
            && (Limiter.BlockedAt(s, signature, now) ==> FinalAction(Allow, e) == Block)
  {
    if !Limiter.BlockedAt(s, signature, now) {
      Limiter.AllowPassesThrough(s, signature, rateLimitRps, config, now);
    }
  }

  /** The token bucket never changes the applied action: two limiter states with the same
      block list give the same final action for every decision that reaches enforcement. */
  lemma BucketNeverDecides(s1: Limiter.LimiterState, s2: Limiter.LimiterState, signature: string, action: Action,
                           rateLimitRps: Option<int>, config: Limiter.LimiterConfig, now: int)
    requires s1.blockedSignatures == s2.blockedSignatures
    ensures FinalAction(action, Limiter.Enforce(s1, signature, action, rateLimitRps, config, now).1)
            == FinalAction(action, Limiter.Enforce(s2, signature, action, rateLimitRps, config, now).1)
  {
    assert Limiter.BlockedAt(s1, signature, now) == Limiter.BlockedAt(s2, signature, now);
  }

  /* ------------------------------------------------------------ attack alerts */

  /** `lastAttackState` and `lastTelegramSentAt`. */
  datatype AlertMemo = AlertMemo(lastAttackState: bool, lastSentAt: int)

  const InitialAlert := AlertMemo(false, 0)

  predicate Configured(cfg: Config.TelegramConfig)
  {
    cfg.enabled && cfg.botToken != "" && cfg.chatId != ""
  }

  /** Whether an alert is due: the mode is on and it was off at the last call, or the last
      delivered alert is older than the cooldown. */
  predicate ShouldSend(m: AlertMemo, attackActive: bool, now: int, cooldownMs: int)
  {
    attackActive && (!m.lastAttackState || now - m.lastSentAt > cooldownMs)
  }

  /** `maybeSendAttackAlert` at `now`: the new memo and whether an alert was attempted;
      `delivered` says whether the send succeeded. */
  function AlertStep(m: AlertMemo, cfg: Config.TelegramConfig, attackActive: bool, now: int, delivered: bool)
    : (AlertMemo, bool)
  {
    if !Configured(cfg) then (m, false)
    else if !ShouldSend(m, attackActive, now, cfg.cooldownMs) then (m.(lastAttackState := attackActive), false)
    else (AlertMemo(attackActive, if delivered then now else m.lastSentAt), true)
  }

  /** Alerts go out only when configured and in attack mode, always on the switch from off to
      on; every configured call remembers the current mode. */
  lemma AlertCases(m: AlertMemo, cfg: Config.TelegramConfig, attackActive: bool, now: int, delivered: bool)
    ensures var (m2, attempted) := AlertStep(m, cfg, attackActive, now, delivered);
            && (attempted ==> Configured(cfg) && attackActive)
            && (Configured(cfg) && attackActive && !m.lastAttackState ==> attempted)
            && (Configured(cfg) ==> m2.lastAttackState == attackActive)
            && (!Configured(cfg) ==> m2 == m)
            && (m2.lastSentAt != m.lastSentAt ==> attempted && delivered && m2.lastSentAt == now)
  {
  }

  /** While the mode stays on, a delivered alert is followed by another only after the
      cooldown has passed. */
  lemma AlertCooldown(m: AlertMemo, cfg: Config.TelegramConfig, t1: int, t2: int, delivered2: bool)
    requires AlertStep(m, cfg, true, t1, true).1
    requires AlertStep(AlertStep(m, cfg, true, t1, true).0, cfg, true, t2, delivered2).1
    ensures t2 - t1 > cfg.cooldownMs
  {
  }

  /** The two module variables of the alert rule. */
  class AlertState {
    var lastAttackState: bool
    var lastSentAt: int

    function Memo(): AlertMemo
      reads this
    {
      AlertMemo(lastAttackState, lastSentAt)
    }

    constructor ()
      ensures Memo() == InitialAlert
    {
      lastAttackState := false;
      lastSentAt := 0;
    }

    /** `maybeSendAttackAlert({attackActive, ...})` at `now`; the message itself and its
        delivery are outside the model, `delivered` is the delivery's result. */
    method MaybeSendAttackAlert(cfg: Config.TelegramConfig, attackActive: bool, now: int, delivered: bool)
      returns (attempted: bool)
      modifies this
      ensures (Memo(), attempted) == AlertStep(old(Memo()), cfg, attackActive, now, delivered)
    {
      if !cfg.enabled || cfg.botToken == "" || cfg.chatId == "" {
        return false;
      }
      var shouldSend := attackActive && (!lastAttackState || now - lastSentAt > cfg.cooldownMs);
      if !shouldSend {
        lastAttackState := attackActive;
        return false;
      }
      if delivered {
        lastSentAt := now;
      }
      lastAttackState := attackActive;
      attempted := true;
    }
  }
}
