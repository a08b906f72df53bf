/** The rule-based traffic classifier (backend/src/detection/classifier.js). */
module Classifier {
  import opened Types

  /** What `classifyTraffic` returns. */
  datatype Classification = Classification(trafficClass: TrafficClass, confidence: real, reason: string)

  /** The flood rule: a high rate or anomaly, at least 3 rps, nearly identical headers and
      a concentrated endpoint. */
  predicate FloodRule(f: Features, anomaly: int)
  {
    (f.rps > 25.0 || anomaly > 75) && f.rps >= 3.0 && f.headerUniqueness < 0.15 && f.endpointConcentration > 0.55
  }

  /** The bot rule: an elevated rate or anomaly, at least 3 rps, uniform headers and an
      elevated endpoint concentration. */
  predicate BotRule(f: Features, anomaly: int)
  {
    (f.rps > 15.0 || anomaly > 65) && f.rps >= 3.0 && (f.headerEntropy < 1.2 || f.headerUniqueness < 0.25)
    && f.endpointConcentration > 0.5
  }

  /** The flash-crowd rule: a moderate rate or anomaly with diverse headers and spread endpoints. */
  predicate FlashRule(f: Features, anomaly: int)
  {
    (f.rps > 6.0 || anomaly > 40) && f.headerEntropy > 2.0 && f.endpointConcentration < 0.4
  }

  const FloodMatch := Classification(Flood, 0.9,
    "High request rate with highly uniform headers and concentrated endpoint targeting.")
  const BotMatch := Classification(Bot, 0.82,
    "Uniform headers with elevated endpoint concentration suggest automated clients.")
  const FlashMatch := Classification(FlashCrowd, 0.7,
    "Diverse headers with distributed endpoints indicate a flash crowd.")
  const LegitResult := Classification(Legit, 0.4, "Traffic matches baseline patterns.")

  /** The `rules` list: every matching rule, in the order the rules are tested. */
  function Matches(f: Features, anomaly: int): (r: seq<Classification>)
  {
    (if FloodRule(f, anomaly) then [FloodMatch] else [])
    + (if BotRule(f, anomaly) then [BotMatch] else [])
    + (if FlashRule(f, anomaly) then [FlashMatch] else [])
  }

  /** The position of `rules.sort((a, b) => b.confidence - a.confidence)[0]` in `rules`:
      the array sort is stable, so the head of the sorted list is the earliest rule of the
      highest confidence. */
  function BestIndex(rules: seq<Classification>): (i: nat)
    requires |rules| > 0
    ensures i < |rules|
    ensures forall j :: 0 <= j < |rules| ==> rules[j].confidence <= rules[i].confidence
    ensures forall j :: 0 <= j < i ==> rules[j].confidence < rules[i].confidence
  {
    if |rules| == 1 then 0
    else
      var k := BestIndex(rules[1..]) + 1;
      assert forall j :: 1 <= j < |rules| ==> rules[j] == rules[1..][j - 1];
      if rules[k].confidence > rules[0].confidence then k else 0
  }

  /** The head of the sorted rules. */
  function Best(rules: seq<Classification>): (r: Classification)
    requires |rules| > 0
  {
    rules[BestIndex(rules)]
  }

  /** `classifyTraffic(features, anomalyScore)`. The features are the numbers the metrics
      module computes, so every `x || 0` default is the number itself. */
  function Classify(f: Features, anomaly: int): (r: Classification)
  {
    var rules := Matches(f, anomaly);
    if |rules| == 0 then LegitResult else Best(rules)
  }

  /** The flood verdict wins whenever its rule holds, even when the bot rule also holds. */
  lemma ClassifyFlood(f: Features, anomaly: int)
    requires FloodRule(f, anomaly)
    ensures Classify(f, anomaly) == FloodMatch
  {
    var rules := Matches(f, anomaly);
    assert rules[0] == FloodMatch;
    assert forall x :: x in rules ==> x.confidence <= 0.9;
    assert forall x :: x in rules && x.confidence == 0.9 ==> x == FloodMatch;
  }

  /** With the flood rule failing, the bot rule decides. */
  lemma ClassifyBot(f: Features, anomaly: int)
    requires BotRule(f, anomaly) && !FloodRule(f, anomaly)
    ensures Classify(f, anomaly) == BotMatch
  {
    var rules := Matches(f, anomaly);
    assert rules[0] == BotMatch;
    assert forall x :: x in rules ==> x.confidence <= 0.82;
    assert forall x :: x in rules && x.confidence == 0.82 ==> x == BotMatch;
  }

  /** A flash crowd is reported exactly when its rule holds and neither other rule does. */
  lemma ClassifyFlash(f: Features, anomaly: int)
    ensures Classify(f, anomaly).trafficClass == FlashCrowd
            <==> FlashRule(f, anomaly) && !FloodRule(f, anomaly) && !BotRule(f, anomaly)
    ensures Classify(f, anomaly).trafficClass == FlashCrowd ==> Classify(f, anomaly) == FlashMatch
  {
    if FloodRule(f, anomaly) {
      ClassifyFlood(f, anomaly);
    } else if BotRule(f, anomaly) {
      ClassifyBot(f, anomaly);
    } else if FlashRule(f, anomaly) {
      assert Matches(f, anomaly) == [FlashMatch];
    } else {
      assert Matches(f, anomaly) == [];
    }
  }

  /** Legitimate traffic with confidence 0.4 is reported exactly when no rule matches. */
  lemma ClassifyLegit(f: Features, anomaly: int)
    ensures Classify(f, anomaly) == LegitResult
            <==> !FloodRule(f, anomaly) && !BotRule(f, anomaly) && !FlashRule(f, anomaly)
    ensures Classify(f, anomaly).trafficClass == Legit ==> Classify(f, anomaly) == LegitResult
  {
    var rules := Matches(f, anomaly);
    if |rules| > 0 {
      assert Classify(f, anomaly) in rules;
      assert forall x :: x in rules ==> x.trafficClass != Legit;
    }
  }

  /** The class and confidence pairs the classifier can report. */
  lemma ClassifyConfidence(f: Features, anomaly: int)
    ensures var r := Classify(f, anomaly);
            r in {FloodMatch, BotMatch, FlashMatch, LegitResult}
  {
    var rules := Matches(f, anomaly);
    if |rules| > 0 {
      assert Classify(f, anomaly) in rules;
    }
  }

  /** The flood and flash-crowd rules never hold together: one needs a concentration above
      0.55, the other below 0.4. */
  lemma FloodExcludesFlash(f: Features, anomaly: int)
    ensures !(FloodRule(f, anomaly) && FlashRule(f, anomaly))
  {
  }

  /** 30 rps of nearly identical headers on one endpoint at anomaly score 80 is a flood. */
  lemma FloodExample()
    ensures Classify(Features(30.0, 30.0, 0.6, 0.0, 0.1, 0.0, 0.0), 80) == FloodMatch
  {
    ClassifyFlood(Features(30.0, 30.0, 0.6, 0.0, 0.1, 0.0, 0.0), 80);
  }
}
