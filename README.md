# A verified model of the VIT DDoS gateway's detection and decision pipeline

The gateway sits in front of registered HTTPS targets. For every request under
`/gateway/<targetId>/…` it:

- finds the target;
- extracts a request record: path, header fingerprint, byte count and protocol;
- adds the record to the target's sliding windows and computes seven window features;
- scores the features against the target's learned baseline;
- classifies the traffic as legit, flash crowd, bot or flood;
- updates the caller's trust and the global attack-mode flag;
- asks the policy engine for a decision (allow, rate limit, challenge or block);
- then applies the verified-client bypass, the challenge and verification routes, the per-signature
  token bucket and block list, and the final-action mapping.

Challenges, verified signatures, failure counters and secure path tokens live in tables
whose entries expire. A Telegram alert is sent under a cooldown rule.

The model has one Dafny module per source file:

| module | source file | form |
|---|---|---|
| `RollingWindows` | backend/src/utils/rollingWindow.js | class over a `map` of per-second buckets |
| `MetricsState` | backend/src/metrics/state.js | class `TargetState` with the counters and windows as fields; the features are pure functions of the window |
| `Anomaly` | backend/src/detection/anomaly.js | pure scoring functions, and class `AnomalyDetector` holding the baseline |
| `Classifier` | backend/src/detection/classifier.js | pure |
| `Policy` | backend/src/policy/policyEngine.js | pure |
| `TrustScore` | backend/src/intelligence/trustScore.js | class `TrustStore` over the trust map |
| `AttackModes` | backend/src/security/attackMode.js | class `AttackMode` for the `STATE` singleton, with a step function |
| `Challenges` | backend/src/security/challenge.js | class `ChallengeStore` over the three maps, with step functions |
| `SecureGateway` | backend/src/security/secureGateway.js | class `TokenStore` |
| `Limiter` | backend/src/enforcement/limiter.js | class `RateLimiter`; `getSignature` is pure |
| `Registry` | backend/src/gateway/registry.js | pure validation, and class `TargetRegistry` over the target map |
| `Extractor` | backend/src/features/extractor.js | pure |
| `ReverseProxy` | backend/src/proxy/reverseProxy.js | pure |
| `Config` | backend/config/default.js | pure |
| `Gateway` | backend/src/index.js | pure decision mappings; methods that sequence the stores; class `AlertState` |

`Common`, `JsStrings`, `MapFolds` and `Types` hold the shared pieces:

- `Option` and `Result`;
- JavaScript's `trim`, `startsWith`, `toLowerCase`, `join`, `Math.round` and `x || d`;
- sums and maxima over maps;
- the traffic classes, actions and feature vector.

Conventions:

- Time is an `int` number of milliseconds, passed in as `now`.
- Random tokens are inputs.
- Decimal thresholds are exact `real`s.
- `Math.log2` and `Math.sqrt` are function parameters.

Each stateful method is specified by a step function on the old state. The properties are
proved about those functions.

Three observations about the code are proved as properties of the model rather than reported as defects:

- `Gateway.BucketNeverDecides`: the token bucket never changes the applied action. An
  `ALLOW` decision bypasses the bucket in `enforce`, and a `RATE_LIMIT` decision is applied
  whatever `enforce` answers. Only the block list matters.
- `Gateway.AttackModeOrAddsNothing`: the three extra attack signals OR-ed into the
  controller's answer are the controller's own switch-on signal, so the OR never changes it.
- `Challenges.SingleInstantNoLateExpiry` shows that the "expired after the sweep" branch of
  `verifyChallenge` can only be reached because the sweep and the expiry test read the clock
  separately. The model therefore takes two instants, `sweptAt` and `now`.

## Model

| member | source | states |
|---|---|---|
| `Common.Round` | backend/src/detection/anomaly.js:35 | `Math.round`: the nearest integer, halves rounding up |
| `Common.CeilSeconds` | backend/src/enforcement/limiter.js:34 | `Math.ceil(ms / 1000)` for positive ms: the least whole number of seconds covering `ms` |
| `RollingWindows.RollingWindow.constructor` | backend/src/utils/rollingWindow.js:2-5 | a window of the given length with no buckets |
| `RollingWindows.RollingWindow.Add` | backend/src/utils/rollingWindow.js:7-12 | the buckets become `Added(old, timestamp, value, windowSeconds)` |
| `RollingWindows.AddedBuckets` | backend/src/utils/rollingWindow.js:7-21 | after an add, the second's bucket is its old value (0 if absent) plus `value`; no key below `second - windowSeconds` remains; every other bucket in the window is unchanged |
| `RollingWindows.RollingWindow.Prune` | backend/src/utils/rollingWindow.js:14-21 | deletes exactly the keys below `currentSecond - windowSeconds` and keeps the rest unchanged |
| `RollingWindows.RollingWindow.Sum` | backend/src/utils/rollingWindow.js:23-29 | the total of all retained buckets; the buckets are not changed (no prune) |
| `RollingWindows.RollingWindow.Series` | backend/src/utils/rollingWindow.js:31-39 | exactly `windowSeconds` values, oldest first, ending at the current second, 0 for absent seconds |
| `RollingWindows.SumSpansOneMoreSecondThanSeries` | backend/src/utils/rollingWindow.js:16-37 | the kept cutoff second makes `sum` count a bucket that `series` no longer shows (concrete 60-second case) |
| `MetricsState.ActionCounts.Inc` | backend/src/metrics/state.js:155 | exactly the named action counter goes up by one, the others are unchanged, the total grows by one |
| `MetricsState.ClassCounts.Inc` | backend/src/metrics/state.js:156-158 | exactly the named class counter goes up by one |
| `MetricsState.ClassActions.Inc` | backend/src/metrics/state.js:160-163 | the action counter goes up in the bot group for bot and flood, in the human group otherwise |
| `MetricsState.StatusCounts.Record` | backend/src/metrics/state.js:197-203 | `serverError` for a status of 500 or more, `clientError` for 400-499, `success` otherwise, exactly one counter |
| `MetricsState.ProtocolCounts.Record` | backend/src/metrics/state.js:137-139 | a counter goes up if and only if the protocol is http1, http2 or websocket; otherwise nothing changes |
| `MetricsState.PushLog` | backend/src/metrics/state.js:172-184 | the new entry first, the older entries behind it in order, at most 50 entries |
| `MetricsState.DropBefore` | backend/src/metrics/state.js:52-57 | the leading entries older than the cutoff are shifted out: the first kept entry is not older than the cutoff |
| `MetricsState.DropBeforeSuffix` | backend/src/metrics/state.js:52-57 | pruning removes only a prefix: the result is a suffix of the window |
| `MetricsState.DropBeforeKeepsLast` | backend/src/metrics/state.js:129-141 | an entry appended at `now` survives the prune and ends the window |
| `MetricsState.DropBeforeSorted` | backend/src/metrics/state.js:52-57 | on a time-ordered window, an entry is kept if and only if it is not older than the cutoff |
| `MetricsState.PushPruneSorted` | backend/src/metrics/state.js:129-141 | appending the newest entry and pruning keeps the window in time order |
| `MetricsState.TallyRange` | backend/src/metrics/state.js:90-97 | every path of the window is tallied, with a count between 1 and the window length |
| `MetricsState.TallyConstant` | backend/src/metrics/state.js:61-64 | a list holding one value n times tallies as that value with count n |
| `MetricsState.ScanWindow` | backend/src/metrics/state.js:90-97 | the feature loop yields the per-path tally, the fingerprints and payload sizes in order, and the recent count |
| `MetricsState.RecentCount` | backend/src/metrics/state.js:94-96 | the recent count never exceeds the window length |
| `MetricsState.DistinctBounds` | backend/src/metrics/state.js:102 | the number of distinct fingerprints is at most the window length, and at least 1 for a non-empty window |
| `MetricsState.Rate` | backend/src/metrics/state.js:106-107 | the rate times the seconds is the count, and it is positive with the count |
| `MetricsState.ShareInRange` | backend/src/metrics/state.js:99-103 | a count out of a positive total is a share in [0, 1], positive with the count |
| `MetricsState.Entropy` | backend/src/metrics/state.js:59-72 | the loop computes the Shannon entropy `EntropyOf` of the values |
| `MetricsState.EntropyNonNegative` | backend/src/metrics/state.js:59-72 | the entropy is not negative when `log2` is not positive on (0, 1] |
| `MetricsState.EntropyOfUniform` | backend/src/metrics/state.js:59-72 | identical fingerprints have entropy 0 |
| `MetricsState.SquaredDeviations` | backend/src/metrics/state.js:77 | the sum of squared deviations is not negative |
| `MetricsState.Variance` | backend/src/metrics/state.js:74-79 | the variance is not negative, 0 for an empty list |
| `MetricsState.VarianceOfConstant` | backend/src/metrics/state.js:74-79 | equal values have mean equal to that value and variance 0 |
| `MetricsState.FeatureShares` | backend/src/metrics/state.js:99-103 | endpoint concentration and header uniqueness lie in [0, 1], positive for a non-empty window |
| `MetricsState.FeatureRates` | backend/src/metrics/state.js:82-107 | rps is positive, since an empty window counts as one request; recent rps times 5 is at most the window length |
| `MetricsState.FeatureSpread` | backend/src/metrics/state.js:104-108 | payload variance is at least 0, 0 when every payload is 0; burstiness is 0 for at most two samples |
| `MetricsState.CountDecisions` | backend/src/metrics/state.js:259-267 | the counting loop yields the class tally and the class-action tally of the window |
| `MetricsState.TallyClassesTotal` | backend/src/metrics/state.js:259-262 | every decision entry is counted once by class |
| `MetricsState.TallyClassActionsTotal` | backend/src/metrics/state.js:263-266 | every decision entry is counted once by group and action |
| `MetricsState.TallyClassesCounts` | backend/src/metrics/state.js:259-262 | each class count is the number of entries of that class |
| `MetricsState.ExplainExpiry` | backend/src/metrics/state.js:283-309 | a decision recorded at a non-zero instant `at` is explained at every instant up to `at + windowSeconds·1000` and at none after; one recorded at 0 (falsy) is never explained; with no decision the placeholder is shown |
| `MetricsState.AnomalyExpiry` | backend/src/metrics/state.js:311-330 | the last anomaly is shown at every instant up to `windowSeconds` after the last request (a non-zero instant), whenever the anomaly was recorded, and at none after; with no request or no anomaly the placeholder is shown |
| `MetricsState.Percent` | backend/src/metrics/state.js:227-230 | a percentage is at least 0, and at most 100 for a count within the total |
| `MetricsState.PercentAdd` | backend/src/metrics/state.js:227-230 | percentages of one total add like their counts |
| `MetricsState.SharesOf` | backend/src/metrics/state.js:219-230 | the four action shares are non-negative, sum to at most 100, and to exactly 100 when nothing was challenged |
| `MetricsState.ProtocolSharesOf` | backend/src/metrics/state.js:222-238 | the protocol shares sum to 100 once anything was counted, and are all 0 before |
| `MetricsState.TargetState.constructor` | backend/src/metrics/state.js:5-50 | `createState`: empty windows and logs, zero counters, nothing recorded |
| `MetricsState.TargetState.PruneWindow` | backend/src/metrics/state.js:52-57 | the request window loses exactly its leading entries older than `now - windowSeconds*1000` |
| `MetricsState.TargetState.ComputeWindowFeatures` | backend/src/metrics/state.js:81-119 | the features are `WindowFeatures` of the request window at `now` |
| `MetricsState.TargetState.CountRequest` | backend/src/metrics/state.js:121-139 | one more request, `bytes` more bytes, the rps and bytes buckets added, last seen at `now`, protocol recorded |
| `MetricsState.TargetState.AppendRequest` | backend/src/metrics/state.js:129-141 | the record is appended and the window pruned; the window ends with the new record |
| `MetricsState.TargetState.RecordRequest` | backend/src/metrics/state.js:121-143 | the whole new state after a request, and the returned features are those of the new window; from now on `getAnomalyMetrics` shows the last anomaly until `windowSeconds` have passed and the placeholder after (always the placeholder for a request at instant 0) |
| `MetricsState.TargetState.PruneDecisionWindow` | backend/src/metrics/state.js:145-150 | the decision window loses exactly its entries older than the window |
| `MetricsState.TargetState.RecordDecision` | backend/src/metrics/state.js:152-185 | last decision and instant set; action, class and class-action counters incremented; window appended and pruned; log entry pushed; `getExplainabilityMetrics` reports this decision's fields at every instant up to `windowSeconds` after `now` and the placeholder after (always the placeholder for a decision at instant 0) |
| `MetricsState.TargetState.RecordResponse` | backend/src/metrics/state.js:187-204 | only positive byte counts are added to bytes and totals, a latency is added when present, exactly one status counter goes up |
| `MetricsState.TargetState.RecordAnomaly` | backend/src/metrics/state.js:206-214 | the last anomaly becomes the given record stamped `now`; `getAnomalyMetrics` shows its fields up to `windowSeconds` after the last request and the placeholder after or when no request was seen |
| `MetricsState.TargetState.GetTrafficMetrics` | backend/src/metrics/state.js:216-244 | rps and bandwidth from the bucket sums, the action and protocol shares, latency, counters and histories; nothing changes |
| `MetricsState.TargetState.GetMitigationMetrics` | backend/src/metrics/state.js:246-281 | prunes the decision window, reports the last decision only while fresh, and tallies the pruned window |
| `Anomaly.Rank` | backend/src/detection/anomaly.js:4-10 | the position of a feature in the baseline key order: `BaselineKeys[Rank(k)] == k` |
| `Anomaly.RankInjective` | backend/src/detection/anomaly.js:4-10 | distinct features have distinct positions |
| `Anomaly.FeatureVector.With` | backend/src/detection/anomaly.js:15 | setting one baseline key changes that key only |
| `Anomaly.VectorsAgree` | backend/src/detection/anomaly.js:4-10 | two baselines agreeing on every key are equal |
| `Anomaly.BlendBetween` | backend/src/detection/anomaly.js:15 | with a weight in [0, 1] the smoothed value lies between the old and the observed value |
| `Anomaly.SmoothedBetween` | backend/src/detection/anomaly.js:12-17 | every baseline key moves to between its old value and the observation |
| `Anomaly.ScoreFeature` | backend/src/detection/anomaly.js:19-24 | a feature score lies in [0, 1] and is 0 against a baseline of 0 |
| `Anomaly.ScoreFeatureEnds` | backend/src/detection/anomaly.js:19-24 | 0 at or below the baseline, 1 from five times the baseline on |
| `Anomaly.ScoreFeatureMonotone` | backend/src/detection/anomaly.js:19-24 | a risky-when-high score never falls as the value grows |
| `Anomaly.CompositeInRange` | backend/src/detection/anomaly.js:34 | the weights sum to 1: scores in [0, 1] give a composite in [0, 1] |
| `Anomaly.RpsFloor` | backend/src/detection/anomaly.js:38-44 | ratios of 2.5, 5, 10 and 20 floor the score at 25, 40, 60 and 75; below 2.5 there is no floor |
| `Anomaly.ApplyFloorsBounds` | backend/src/detection/anomaly.js:43-51 | the floored score is at least the score and each applicable floor, and is one of those candidates |
| `Anomaly.ApplyFloorsMonotone` | backend/src/detection/anomaly.js:43-51 | a larger score, a larger ratio or the bot heuristic firing never lower the floored score |
| `Anomaly.ScoreInRange` | backend/src/detection/anomaly.js:34-51 | the anomaly score is always in [0, 100] |
| `Anomaly.ScoreFloors` | backend/src/detection/anomaly.js:37-51 | the rps-ratio floors; 45 when effective rps > 10 and the bot heuristic (uniqueness, missing as 1, below 0.3 and concentration above 0.4) holds; 70 for concentration score > 0.65 with entropy score > 0.55 |
| `Anomaly.ScoreMonotoneInRps` | backend/src/detection/anomaly.js:27-47 | with the baseline and the other features fixed, more rps never lowers the score |
| `Anomaly.RpsChangesOnlyRpsScore` | backend/src/detection/anomaly.js:27-38 | changing only the rps changes only the rps score, upward, and raises the ratio |
| `Anomaly.SortPermutes` | backend/src/detection/anomaly.js:60 | the contributor sort only reorders the list |
| `Anomaly.SortOrdered` | backend/src/detection/anomaly.js:60 | the sort is stable: weights descend, ties in list order |
| `Anomaly.SortEqualWeights` | backend/src/detection/anomaly.js:60 | equal weights leave the list unchanged |
| `Anomaly.ContributorsOf` | backend/src/detection/anomaly.js:53-59 | five contributors, one per feature, in baseline order |
| `Anomaly.SortedContributors` | backend/src/detection/anomaly.js:53-62 | the sorted list is ordered and holds each feature's own contributor |
| `Anomaly.TopContributorsShape` | backend/src/detection/anomaly.js:53-62 | three distinct feature names with non-increasing weights, none left out weighing more than the third |
| `Anomaly.TiesKeepListOrder` | backend/src/detection/anomaly.js:53-62 | with all scores equal the contributors are rps, endpointConcentration, headerEntropy |
| `Anomaly.AnomalyDetector.constructor` | backend/src/detection/anomaly.js:4-10 | the detector starts from the initial baseline |
| `Anomaly.AnomalyDetector.UpdateBaseline` | backend/src/detection/anomaly.js:12-17 | each key becomes `b*(1-a) + f*a` with `a = 0.08*factor` |
| `Anomaly.AnomalyDetector.AnomalyScore` | backend/src/detection/anomaly.js:25-74 | the score and contributors are computed against the old baseline, which then learns the observation with max(rps, recentRps) at 0.016 on a spike, 0.08 otherwise |
| `Classifier.BestIndex` | backend/src/detection/classifier.js:40-45 | the first rule of the highest confidence, as a stable sort puts it first |
| `Classifier.ClassifyFlood` | backend/src/detection/classifier.js:8-45 | the flood rule holding gives flood at 0.9, even when the bot rule holds |
| `Classifier.ClassifyBot` | backend/src/detection/classifier.js:16-45 | the bot rule without the flood rule gives bot at 0.82 |
| `Classifier.ClassifyFlash` | backend/src/detection/classifier.js:24-45 | flash crowd at 0.7 if and only if its rule holds and neither flood nor bot does |
| `Classifier.ClassifyLegit` | backend/src/detection/classifier.js:32-45 | legit at 0.4 if and only if no rule matches |
| `Classifier.ClassifyConfidence` | backend/src/detection/classifier.js:8-45 | the class and confidence pairs that can be reported |
| `Classifier.FloodExcludesFlash` | backend/src/detection/classifier.js:8-30 | the flood and flash-crowd rules never hold together |
| `Classifier.FloodExample` | backend/src/detection/classifier.js:8-14 | 30 rps, uniqueness 0.1, concentration 0.6, anomaly 80 is a flood at 0.9 |
| `Policy.TopFeatures` | backend/src/policy/policyEngine.js:3-7 | three feature names, the first `rps` |
| `Policy.BaseRisk` | backend/src/policy/policyEngine.js:17-20 | the base risk is at most 1 |
| `Policy.DecisionShape` | backend/src/policy/policyEngine.js:30-128 | every decision carries the computed risk, no throttle and three top features |
| `Policy.RiskInRange` | backend/src/policy/policyEngine.js:17-28 | risk is in [0, 1] for an anomaly in [0, 100] and trust and confidence in [0, 1]; never above 1 |
| `Policy.RiskAdjustments` | backend/src/policy/policyEngine.js:22-28 | verification subtracts 0.35 floored at 0; failures add min(0.2, 0.08n) capped at 1 |
| `Policy.RiskMonotone` | backend/src/policy/policyEngine.js:17-28 | verification never raises the risk; more failures never lower it |
| `Policy.FailureRiskMonotone` | backend/src/policy/policyEngine.js:26-28 | the failure adjustment is monotone in the risk and the count |
| `Policy.FailuresBlock` | backend/src/policy/policyEngine.js:30-40 | three or more failures give BLOCK with a rate limit of 0 |
| `Policy.AttackModeChallenges` | backend/src/policy/policyEngine.js:42-52 | attack mode, unverified and under three failures gives CHALLENGE |
| `Policy.ChallengeOnlyUnverified` | backend/src/policy/policyEngine.js:42-69 | a verified caller, or one with three failures, is never challenged |
| `Policy.ChallengeExactly` | backend/src/policy/policyEngine.js:42-69 | unverified under three failures: CHALLENGE if and only if attack mode or the suspicion rule |
| `Policy.LowRateAllows` | backend/src/policy/policyEngine.js:71-81 | the low-rate rule, once reached, gives ALLOW with confidence max(0.4, conf) |
| `Policy.RateLimitValues` | backend/src/policy/policyEngine.js:95-128 | RATE_LIMIT carries 30, BLOCK carries 0, the others none |
| `Policy.BlockReasons` | backend/src/policy/policyEngine.js:30-105 | a BLOCK comes only from three failures or the sustained-attack rule |
| `Policy.VerifiedLegitNotThrottled` | backend/src/policy/policyEngine.js:22-93 | a verified, non-bot-like caller under three failures and anomaly up to 80 is allowed |
| `TrustScore.Clamp` | backend/src/intelligence/trustScore.js:8-10 | the nearest point of [0, 1] |
| `TrustScore.ElapsedSeconds` | backend/src/intelligence/trustScore.js:25 | elapsed time is at least 1 s |
| `TrustScore.DeltaCases` | backend/src/intelligence/trustScore.js:29-42 | -0.18 when highly suspicious, -0.08 when only suspicious, otherwise +0.01 to +0.04 (exactly 0.01 within 5 s) |
| `TrustScore.HighlyImpliesSuspicious` | backend/src/intelligence/trustScore.js:29-30 | a highly suspicious update is suspicious, so it gets no recovery bonus |
| `TrustScore.UpdateBounds` | backend/src/intelligence/trustScore.js:22-46 | trust stays in [0, 1], `lastUpdated` becomes `now`, the delta is applied exactly while inside [0, 1] |
| `TrustScore.HardDecaysValue` | backend/src/intelligence/trustScore.js:33-45 | n highly suspicious updates give max(0, trust - 0.18n) |
| `TrustScore.HardDecaysReachZero` | backend/src/intelligence/trustScore.js:33-45 | six such updates reach 0, and further ones keep it there |
| `TrustScore.HardDecayStep` | backend/src/intelligence/trustScore.js:29-45 | one highly suspicious `updateTrust` is one step of `HardDecays`, whatever time has elapsed |
| `TrustScore.UpdatedAtIsHardDecays` | backend/src/intelligence/trustScore.js:22-46 | highly suspicious updates at any sequence of instants leave the trust `HardDecays` gives for that many steps |
| `TrustScore.HardUpdatesReachZero` | backend/src/intelligence/trustScore.js:22-46 | six or more highly suspicious updates in a row bring any trust in [0, 1] to 0 |
| `TrustScore.TrustStore.constructor` | backend/src/intelligence/trustScore.js:1 | an empty trust map |
| `TrustScore.TrustStore.GetTrustRecord` | backend/src/intelligence/trustScore.js:12-20 | the stored record, or a new one with trust 0.7 stored at first access |
| `TrustScore.TrustStore.UpdateTrust` | backend/src/intelligence/trustScore.js:22-46 | the record is replaced by its update and the returned trust is in [0, 1]; a highly suspicious update returns one step of `HardDecays` from the old trust |
| `TrustScore.TrustStore.GetTrust` | backend/src/intelligence/trustScore.js:48-50 | an existing record's trust with nothing changed, 0.7 for a new record |
| `AttackModes.CountedBlocksCases` | backend/src/security/attackMode.js:15-18 | a block adds 1; otherwise the counter drops by one, never below 0, only after more than 3000 ms |
| `AttackModes.StepActive` | backend/src/security/attackMode.js:10-31 | on after an update if and only if there is a signal, five counted blocks, or the mode was on and not expired |
| `AttackModes.StepActivates` | backend/src/security/attackMode.js:12-23 | a signal or five blocks set the mode on with `lastAttackAt = now` |
| `AttackModes.StepWithoutSignal` | backend/src/security/attackMode.js:24-27 | without a signal an expired mode turns off and resets the counter; otherwise flag and attack instant are kept |
| `AttackModes.StepStamps` | backend/src/security/attackMode.js:29-30 | every update sets `lastUpdated` to `now` |
| `AttackModes.ExpireOnlyTurnsOff` | backend/src/security/attackMode.js:33-40 | `getAttackMode` can turn the mode off, never on, and leaves `lastUpdated` alone |
| `AttackModes.FiveBlocksActivate` | backend/src/security/attackMode.js:15-23 | four spaced blocks leave the mode off and a fifth turns it on |
| `AttackModes.AttackMode.constructor` | backend/src/security/attackMode.js:1-6 | the initial state: off, all instants and the counter 0 |
| `AttackModes.AttackMode.UpdateAttackMode` | backend/src/security/attackMode.js:10-31 | the new state is the step of the old one; the result is the new flag |
| `AttackModes.AttackMode.GetAttackMode` | backend/src/security/attackMode.js:33-40 | the new state is the expiry check of the old one; the result is the new flag |
| `Challenges.CleanedLive` | backend/src/security/challenge.js:12-29 | the sweep keeps exactly the live entries, unchanged, and a second sweep changes nothing |
| `Challenges.IsVerifiedIff` | backend/src/security/challenge.js:31-35 | verified if and only if a record exists with `expiresAt > now` |
| `Challenges.MarkThenVerified` | backend/src/security/challenge.js:37-41 | a signature marked with ttl is verified until `now + ttl` and not from then on |
| `Challenges.RecordFailureCounts` | backend/src/security/challenge.js:49-57 | a failure returns the previous count plus one, or 1 after ten quiet minutes |
| `Challenges.ClearedCountIsZero` | backend/src/security/challenge.js:43-61 | after clearing, the failure count is 0 |
| `Challenges.CreateStores` | backend/src/security/challenge.js:63-74 | a challenge stores signature, target and URL and expires five minutes later |
| `Challenges.VerifyOutcomes` | backend/src/security/challenge.js:76-94 | unknown or expired fails as expired; mismatch fails and keeps the challenge; no human flag fails and keeps it; success consumes it and returns URL and target |
| `Challenges.SingleInstantNoLateExpiry` | backend/src/security/challenge.js:77-88 | with one clock reading, a challenge never fails on the late expiry check |
| `Challenges.VerifyOnce` | backend/src/security/challenge.js:78-93 | a passed challenge fails as expired on a second attempt |
| `Challenges.ChallengeStore.constructor` | backend/src/security/challenge.js:3-5 | three empty tables |
| `Challenges.ChallengeStore.CleanupExpired` | backend/src/security/challenge.js:12-29 | the tables become their sweep |
| `Challenges.ChallengeStore.IsVerifiedAt` | backend/src/security/challenge.js:31-35 | sweeps, then answers whether the signature is verified |
| `Challenges.ChallengeStore.MarkVerifiedAt` | backend/src/security/challenge.js:37-41 | the signature's verification expires at `now + ttl` |
| `Challenges.ChallengeStore.GetFailureCount` | backend/src/security/challenge.js:43-47 | sweeps, then returns the live failure count |
| `Challenges.ChallengeStore.RecordFailureAt` | backend/src/security/challenge.js:49-57 | the tables and count after one more failure |
| `Challenges.ChallengeStore.ClearFailuresOf` | backend/src/security/challenge.js:59-61 | the signature's failure record is deleted |
| `Challenges.ChallengeStore.CreateChallengeAt` | backend/src/security/challenge.js:63-74 | the challenge is stored under the given token, which is returned |
| `Challenges.ChallengeStore.VerifyChallengeAt` | backend/src/security/challenge.js:76-94 | tables and outcome follow `VerifyChallenge` |
| `SecureGateway.SweptExactly` | backend/src/security/secureGateway.js:6-13 | the sweep removes exactly the tokens with `expiresAt <= now` |
| `SecureGateway.CreateStores` | backend/src/security/secureGateway.js:15-24 | a token stores signature and target and expires eight minutes later |
| `SecureGateway.VerifyOutcomes` | backend/src/security/secureGateway.js:26-38 | unknown fails; expired fails and is deleted; wrong signature fails and is kept; success returns the target and keeps the token |
| `SecureGateway.Reusable` | backend/src/security/secureGateway.js:26-38 | a passed token passes again with the same target until it expires |
| `SecureGateway.TokenStore.constructor` | backend/src/security/secureGateway.js:3 | an empty token map |
| `SecureGateway.TokenStore.CleanupExpired` | backend/src/security/secureGateway.js:6-13 | the map becomes its sweep |
| `SecureGateway.TokenStore.CreateSecureToken` | backend/src/security/secureGateway.js:15-24 | the token is stored and returned |
| `SecureGateway.TokenStore.VerifySecureToken` | backend/src/security/secureGateway.js:26-38 | map and answer follow `Verify` |
| `Limiter.SignatureShape` | backend/src/enforcement/limiter.js:5-9 | the trimmed first forwarded address, `|`, and the user agent as sent |
| `Limiter.SignatureSeparatesAgents` | backend/src/enforcement/limiter.js:5-9 | different user agents, including ones differing only in case, give different signatures |
| `Limiter.BlockedFirst` | backend/src/enforcement/limiter.js:32-35 | a blocked signature is refused first with the remaining seconds rounded up, nothing changed |
| `Limiter.BlockDecisionBlocks` | backend/src/enforcement/limiter.js:37-40 | BLOCK blocks for 60 s, asks for a retry in 60 s and leaves the buckets alone |
| `Limiter.AllowPassesThrough` | backend/src/enforcement/limiter.js:42-44 | ALLOW for an unblocked signature passes with no bucket created or changed |
| `Limiter.NewBucketFull` | backend/src/enforcement/limiter.js:11-26 | a new bucket starts with `burst` tokens |
| `Limiter.BucketStep` | backend/src/enforcement/limiter.js:46-59 | one token spent and allowed when at least one is there, else refused with retry 1 and tokens kept; the rate is the decision's if non-zero, else the base rate |
| `Limiter.RefillBounded` | backend/src/enforcement/limiter.js:19-25 | a refill keeps tokens within [0, burst] |
| `Limiter.EnforceKeepsBucketsBounded` | backend/src/enforcement/limiter.js:28-60 | enforcement keeps every bucket within [0, burst] |
| `Limiter.RateLimiter.constructor` | backend/src/enforcement/limiter.js:1-2 | empty bucket and block maps |
| `Limiter.RateLimiter.GetBucket` | backend/src/enforcement/limiter.js:11-26 | the bucket is refilled and stored, the block list untouched |
| `Limiter.RateLimiter.EnforceAt` | backend/src/enforcement/limiter.js:28-60 | state and answer follow `Enforce` |
| `Registry.NormalizeIdempotent` | backend/src/gateway/registry.js:7-13 | an accepted id is a run of id characters and normalises to itself |
| `Registry.NormalizeAccepts` | backend/src/gateway/registry.js:7-13 | accepted if and only if the trimmed id is a non-empty run of `[A-Za-z0-9_-]` |
| `Registry.StripOneSlash` | backend/src/gateway/registry.js:31 | exactly one trailing slash is removed |
| `Registry.ValidateOutcomes` | backend/src/gateway/registry.js:15-32 | accepted if and only if parsed, HTTPS, with a hostname and without credentials; each refusal has its message |
| `Registry.RegistrationOutcomes` | backend/src/gateway/registry.js:34-52 | succeeds if and only if id and URL are accepted; the first error otherwise; label defaults to the id |
| `Registry.TargetRegistry.constructor` | backend/src/gateway/registry.js:5 | an empty registry |
| `Registry.TargetRegistry.RegisterTarget` | backend/src/gateway/registry.js:34-56 | errors change nothing; success stores a target with fresh state and detector, replacing any old entry |
| `Registry.TargetRegistry.Store` | backend/src/gateway/registry.js:54 | the map gains or replaces the id, in insertion order |
| `Registry.TargetRegistry.ListTargets` | backend/src/gateway/registry.js:64-71 | id, label, url and createdAt of every target, in insertion order |
| `Registry.GetTargetCases` | backend/src/gateway/registry.js:58-62 | nothing for an invalid or unknown id, otherwise the stored target |
| `Extractor.NormalizeHeaderCases` | backend/src/features/extractor.js:1-5 | missing or empty gives `unknown`; a string is cut to 64 characters; a list is joined with commas |
| `Extractor.ListNotTruncated` | backend/src/features/extractor.js:3 | a list header is not truncated |
| `Extractor.FingerprintParts` | backend/src/features/extractor.js:7-15 | user agent, language and encoding joined by `|`, in order, and split back when free of `|` |
| `Extractor.EmptyFingerprint` | backend/src/features/extractor.js:7-15 | no headers give `unknown|unknown|unknown` |
| `Extractor.ProtocolCases` | backend/src/features/extractor.js:20-22 | websocket if and only if the upgrade is websocket in any case; otherwise http2 if and only if the version starts with 2; the version defaults to 1.1 |
| `Extractor.ExtractedCounted` | backend/src/features/extractor.js:17-31 | the path defaults to `/`, bytes to 0, and the protocol is always one the metrics count |
| `ReverseProxy.PathRewriteCases` | backend/src/proxy/reverseProxy.js:14-25 | the original URL minus its prefix, else the path minus the proxy prefix, else the path; an empty rest becomes `/` |
| `ReverseProxy.PathRewriteExamples` | backend/src/proxy/reverseProxy.js:14-25 | concrete rewrites of a prefixed URL and of the bare prefix |
| `ReverseProxy.ResponseDefaults` | backend/src/proxy/reverseProxy.js:26-37 | the status defaults to 200, counted as success; bytes to 0; latency to 0 without a start |
| `Config.NormalizeEnvCases` | backend/config/default.js:3-12 | a non-string gives `""`; no surrounding whitespace; one matching quote pair removed, nothing else changed |
| `Config.QuotesStripped` | backend/config/default.js:8-10 | a quoted value loses one character at each end; a lone quote becomes `""` |
| `Config.OneLayerOnly` | backend/config/default.js:8-10 | only one layer of quotes is removed |
| `Config.TelegramTokenCases` | backend/config/default.js:14-20 | a leading `bot` in any case is removed and the rest trimmed; other tokens are their normalised value |
| `Config.TelegramConfigDefaults` | backend/config/default.js:31-36 | alerts on unless `false`; the cooldown falls back from the first to the second setting to 60000 |
| `Gateway.MatchTargetShape` | backend/src/index.js:135 | a matched id is a non-empty segment without `/` after `/gateway/`, ending the path or followed by `/` |
| `Gateway.MatchTargetOf` | backend/src/index.js:135 | every such path matches with its segment |
| `Gateway.RouteCases` | backend/src/index.js:130-144 | detection runs only for a path that names a registered target, which is the stored one |
| `Gateway.VerifyFlowOutcomes` | backend/src/index.js:160-184 | failure is counted; the third blocks, earlier ones re-challenge with the reason; success leaves the caller verified, without failures, redirected |
| `Gateway.HandleVerify` | backend/src/index.js:160-184 | the store and the response follow `VerifyFlow` |
| `Gateway.HandleChallenge` | backend/src/index.js:148-158 | the store gains a challenge for the query's `originalUrl`, or for `/gateway/<id>` when it is absent or empty, and that URL is returned for the page |
| `Gateway.ChallengeThenVerify` | backend/src/index.js:148-184 | a challenge page answered with a human confirmation from the same signature before five minutes pass redirects to the URL the page carried and leaves the caller verified |
| `Gateway.VerifiedTrustBounds` | backend/src/index.js:218-221 | the verified boost is `min(1, trust + 0.35)` and never lowers trust |
| `Gateway.AttackModeOrAddsNothing` | backend/src/index.js:223-236 | the OR of the three signals with the controller's answer equals that answer |
| `Gateway.BypassCases` | backend/src/index.js:249-255 | a verified caller's non-BLOCK decision becomes ALLOW with the bypass note; nothing else changes |
| `Gateway.GatewayDecisionCases` | backend/src/index.js:213-255 | three failures block; verified with fewer is allowed; unverified gets the policy's decision, a challenge in attack mode |
| `Gateway.MetricsActionDistinct` | backend/src/index.js:266-272 | distinct actions get distinct metric names, never throttled |
| `Gateway.DecideRequest` | backend/src/index.js:213-247 | trust, attack mode and challenge tables change as their calls say; the decision is `GatewayDecision` of their results |
| `Gateway.AfterDecisionCases` | backend/src/index.js:315-339 | only a challenge decision or bot-like traffic in attack mode escapes enforcement; a verified caller never gets the decoy |
| `Gateway.FinalActionCases` | backend/src/index.js:341-349 | ALLOW stays if allowed, else BLOCK if blocked, else RATE_LIMIT; RATE_LIMIT and BLOCK are kept |
| `Gateway.AllowedUnlessBlocked` | backend/src/index.js:341-349 | an ALLOW is applied unless the signature is blocked, then it is a BLOCK |
| `Gateway.BucketNeverDecides` | backend/src/index.js:341-349 | two limiter states with the same block list give the same final action |
| `Gateway.AlertCases` | backend/src/index.js:44-77 | alerts only when configured and in attack mode, always on the switch from off to on |
| `Gateway.AlertCooldown` | backend/src/index.js:48-53 | while the mode stays on, a delivered alert is followed by another only after the cooldown |
| `Gateway.AlertState.MaybeSendAttackAlert` | backend/src/index.js:44-77 | the memo and the attempt follow `AlertStep` |

## Left out

- `Number(...)` parsing and NaN: numeric inputs (features, `content-length`, environment numbers) are integers or exact reals. A value that parses to NaN is not represented.
- JavaScript floating point: decimals are exact `real`s, so rounding of doubles at thresholds is not modelled.
- `String(value)` coercion of non-string header values and ids: a value is a string, a list of strings, or absent.
- `Math.log2` and `Math.sqrt` are uninterpreted function parameters. The entropy and burstiness features are stated in terms of them.
- `toLowerCase` is the ASCII mapping; Unicode case mapping is not modelled.
- The WHATWG `new URL` parser is abstracted to a parsed record of protocol, hostname, credentials and href (or `None` when it throws). `decodeURIComponent` on `originalUrl` is taken as already done.
- ISO timestamps of the mitigation log are the `int` instant they are made from.
- A `Features` value always carries all seven numbers, as the metrics state produces them. The classifier's and detector's `|| 0` defaults are therefore the number itself, except `headerUniqueness || 1` in the bot heuristic, which is modelled.
- `windowSeconds` is positive; a zero `WINDOW_SECONDS` (a division by zero in the source) is excluded, and the environment override of the 60-second default is not modelled.
- The `method` field of `extractRequestMetadata` is not carried; nothing in the modelled core reads it.
- Bucket objects that `getBucket` returns and `enforce` then mutates are modelled as map values written back; JavaScript aliasing is not modelled.
- Each call reads the clock once (`now`). The exceptions are `verifyChallenge` and `verifySecureToken`, which take the sweep instant and the expiry-test instant separately.
- The global metrics instance (`recordRequestGlobal`, `recordDecisionGlobal`, `recordAnomalyGlobal`) is a second `TargetState`; it is not modelled separately.
- The whole-handler order of index.js is not one method. Lines 193-211 (extract, record, score, classify, record anomaly) are modelled by their own members, and their results are inputs to `Gateway.DecideRequest`. The blocked `updateAttackMode` call after a final block (index.js:351-358) is `AttackModes.AttackMode.UpdateAttackMode` with `blocked` true, not sequenced.
- The exception path (index.js:304-309), a 403 default block when detection or policy throws: the modelled functions are total and cannot throw.
- The HTML that `renderChallengePage` builds for the `_challenge` and `_verify` routes is not modelled; the routes' table updates and the URL the page carries are.
- The decoy route (index.js:93-105) is left out: it answers after a delay with a fixed fake payload and changes no gateway state.
- The secure-path route (index.js:107-128) is left out. It verifies the path's secure token against the caller's signature and looks up the token's target, redirecting to `/gateway/decoy` when either fails, and otherwise proxies to that target. Its token check alone is `SecureGateway.TokenStore.VerifySecureToken`.
- The attack-mode redirect of a verified caller to a fresh secure token (index.js:373-377) is left out as a routing step. Its token creation alone is `SecureGateway.TokenStore.CreateSecureToken`.
- `Gateway.Route` models the target match of index.js:130-144 only. The `/gateway/decoy` and `/gateway/secure/` prefixes are tested before it, so in the source they shadow every request to a target whose id starts with `decoy` and every request below `/gateway/secure/` to a target named `secure`; the model does not capture that shadowing.
- The proxy data plane, WebSocket broadcast, timers and logging are I/O.
- `maybeSendAttackAlert` is asynchronous; its awaited send is the `delivered` input, and the interleaving of concurrent sends is not modelled. Telegram message formatting and delivery are I/O.
- `Policy.RiskMonotone`: stated for a non-negative anomaly score and confidence, which keep the base risk non-negative; with negative inputs the floor at 0 can break monotonicity.
- `Limiter.BlockDecisionBlocks`: stated for `now >= 0`. The block instant `now + 60000` is then truthy (non-zero), as the source's `blockedUntil &&` test needs.
