/** Per-signature trust (backend/src/intelligence/trustScore.js): a value in [0, 1] that
    drops on suspicious traffic and recovers slowly otherwise. */
module TrustScore {
  import opened Common
  import opened Types

  const DefaultTrust: real := 0.7
  const RecoveryRate: real := 0.01
  const DecayRate: real := 0.08
  const HardDecayRate: real := 0.18

  datatype TrustRecord = TrustRecord(trust: real, lastUpdated: int)

  /** `clamp(value)`: the nearest point of [0, 1]. */
  function Clamp(value: real): (r: real)
    ensures 0.0 <= r <= 1.0
    ensures 0.0 <= value <= 1.0 ==> r == value
    ensures value < 0.0 ==> r == 0.0
    ensures value > 1.0 ==> r == 1.0
  {
    MaxReal(0.0, MinReal(1.0, value))
  }

  /** The record `getTrustRecord` returns: the stored one, or a fresh one created at `now`. */
  function RecordOf(store: map<string, TrustRecord>, signature: string, now: int): TrustRecord
  {
    if signature in store then store[signature] else TrustRecord(DefaultTrust, now)
  }

  /** Seconds since the last update, at least 1. */
  function ElapsedSeconds(lastUpdated: int, now: int): (r: real)
    ensures r >= 1.0
  {
    MaxReal(1.0, (now - lastUpdated) as real / 1000.0)
  }

  predicate Suspicious(anomaly: int, c: TrafficClass) { anomaly > 60 || IsBotLike(c) }

  predicate HighlySuspicious(anomaly: int, c: TrafficClass) { anomaly > 75 || c == Flood }

  /** The change `updateTrust` applies before clamping. */
  function TrustDelta(anomaly: int, c: TrafficClass, elapsed: real): real
  {
    var delta :=
      if HighlySuspicious(anomaly, c) then -HardDecayRate
      else if Suspicious(anomaly, c) then -DecayRate
      else RecoveryRate;
    if elapsed > 5.0 && !Suspicious(anomaly, c) then delta + RecoveryRate * MinReal(elapsed / 5.0, 3.0)
    else delta
  }

  /** The record after `updateTrust(signature, {anomalyScore, trafficClass})` at `now`. */
  function Updated(rec: TrustRecord, anomaly: int, c: TrafficClass, now: int): TrustRecord
  {
    TrustRecord(Clamp(rec.trust + TrustDelta(anomaly, c, ElapsedSeconds(rec.lastUpdated, now))), now)
  }

  /** The three cases of the delta: a hard decay, a decay, or a recovery of 0.01 to 0.04. */
  lemma DeltaCases(anomaly: int, c: TrafficClass, elapsed: real)
    requires elapsed >= 1.0
    ensures HighlySuspicious(anomaly, c) ==> TrustDelta(anomaly, c, elapsed) == -0.18
    ensures Suspicious(anomaly, c) && !HighlySuspicious(anomaly, c) ==> TrustDelta(anomaly, c, elapsed) == -0.08
    ensures !Suspicious(anomaly, c) ==> 0.01 <= TrustDelta(anomaly, c, elapsed) <= 0.04
    ensures !Suspicious(anomaly, c) && elapsed <= 5.0 ==> TrustDelta(anomaly, c, elapsed) == 0.01
  {
  }

  /** A highly suspicious update is also a suspicious one, so it never earns the bonus. */
  lemma HighlyImpliesSuspicious(anomaly: int, c: TrafficClass)
    ensures HighlySuspicious(anomaly, c) ==> Suspicious(anomaly, c)
  {
  }

  /** An update keeps the trust in [0, 1], stamps the record with `now`, and moves the trust
      by exactly the delta whenever that stays inside [0, 1]. */
  lemma UpdateBounds(rec: TrustRecord, anomaly: int, c: TrafficClass, now: int)
    ensures var r := Updated(rec, anomaly, c, now);
            && 0.0 <= r.trust <= 1.0 && r.lastUpdated == now
            && (var v := rec.trust + TrustDelta(anomaly, c, ElapsedSeconds(rec.lastUpdated, now));
                0.0 <= v <= 1.0 ==> r.trust == v)
  {
  }

  /** Trust after `n` highly suspicious updates in a row. */
  function HardDecays(trust: real, n: nat): real
    decreases n
  {
    if n == 0 then trust else HardDecays(Clamp(trust - HardDecayRate), n - 1)
  }

  /** Each highly suspicious update removes 0.18 until the trust reaches 0. */
  lemma {:induction false} HardDecaysValue(trust: real, n: nat)
    requires 0.0 <= trust <= 1.0
    ensures HardDecays(trust, n) == MaxReal(0.0, trust - HardDecayRate * n as real)
    decreases n
  {
    if n > 0 {
      var next := Clamp(trust - HardDecayRate);
      HardDecaysValue(next, n - 1);
    }
  }

  /** Six highly suspicious updates bring any trust to 0, and further ones keep it there. */
  lemma HardDecaysReachZero(trust: real, n: nat)
    requires 0.0 <= trust <= 1.0 && n >= 6
    ensures HardDecays(trust, n) == 0.0
    ensures HardDecays(HardDecays(trust, n), 1) == 0.0
  {
    HardDecaysValue(trust, n);
    HardDecaysValue(0.0, 1);
  }

  /** The record after `updateTrust` with the same anomaly score and class at each of the
      instants `times`, in order. */
  function UpdatedAt(rec: TrustRecord, anomaly: int, c: TrafficClass, times: seq<int>): TrustRecord
    decreases |times|
  {
    if |times| == 0 then rec else UpdatedAt(Updated(rec, anomaly, c, times[0]), anomaly, c, times[1..])
  }

  /** One highly suspicious update is one step of `HardDecays`, whatever the elapsed time. */
  lemma HardDecayStep(rec: TrustRecord, anomaly: int, c: TrafficClass, now: int)
    requires HighlySuspicious(anomaly, c)
    ensures Updated(rec, anomaly, c, now).trust == HardDecays(rec.trust, 1)
  {
    DeltaCases(anomaly, c, ElapsedSeconds(rec.lastUpdated, now));
  }

  /** Highly suspicious updates at any instants leave the trust `HardDecays` gives. */
  lemma {:induction false} UpdatedAtIsHardDecays(rec: TrustRecord, anomaly: int, c: TrafficClass, times: seq<int>)
    requires HighlySuspicious(anomaly, c)
    ensures UpdatedAt(rec, anomaly, c, times).trust == HardDecays(rec.trust, |times|)
    decreases |times|
  {
    if |times| > 0 {
      var next := Updated(rec, anomaly, c, times[0]);
      HardDecayStep(rec, anomaly, c, times[0]);
      UpdatedAtIsHardDecays(next, anomaly, c, times[1..]);
    }
  }

  /** Six or more highly suspicious updates in a row bring any trust in [0, 1] to 0. */
  lemma HardUpdatesReachZero(rec: TrustRecord, anomaly: int, c: TrafficClass, times: seq<int>)
    requires HighlySuspicious(anomaly, c)
    requires 0.0 <= rec.trust <= 1.0 && |times| >= 6
    ensures UpdatedAt(rec, anomaly, c, times).trust == 0.0
  {
    UpdatedAtIsHardDecays(rec, anomaly, c, times);
    HardDecaysReachZero(rec.trust, |times|);
  }

  /** The `trustStore` map. */
  class TrustStore {
    var records: map<string, TrustRecord>

    ghost predicate Valid()
      reads this
    {
      forall s :: s in records ==> 0.0 <= records[s].trust <= 1.0
    }

    constructor ()
      ensures records == map[] && Valid()
    {
      records := map[];
    }

    /** `getTrustRecord(signature)` at `now`: creates the record on first access. */
    method GetTrustRecord(signature: string, now: int) returns (rec: TrustRecord)
      requires Valid()
      modifies this
      ensures Valid()
      ensures rec == RecordOf(old(records), signature, now)
      ensures records == old(records)[signature := rec]
    {
      if signature !in records {
        records := records[signature := TrustRecord(DefaultTrust, now)];
      }
      rec := records[signature];
    }

    /** `updateTrust(signature, {anomalyScore, trafficClass})` at `now`. */
    method UpdateTrust(signature: string, anomaly: int, c: TrafficClass, now: int) returns (trust: real)
      requires Valid()
      modifies this
      ensures Valid()
      ensures records == old(records)[signature := Updated(RecordOf(old(records), signature, now), anomaly, c, now)]
      ensures trust == records[signature].trust && 0.0 <= trust <= 1.0
      ensures HighlySuspicious(anomaly, c) ==> trust == HardDecays(RecordOf(old(records), signature, now).trust, 1)
    {
      var rec := GetTrustRecord(signature, now);
      if HighlySuspicious(anomaly, c) {
        HardDecayStep(rec, anomaly, c, now);
      }
      var elapsed := ElapsedSeconds(rec.lastUpdated, now);
      var delta := 0.0;
      if HighlySuspicious(anomaly, c) {
        delta := delta - HardDecayRate;
      } else if Suspicious(anomaly, c) {
        delta := delta - DecayRate;
      } else {
        delta := delta + RecoveryRate;
      }
      if elapsed > 5.0 && !Suspicious(anomaly, c) {
        delta := delta + RecoveryRate * MinReal(elapsed / 5.0, 3.0);
      }
      trust := Clamp(rec.trust + delta);
      records := records[signature := TrustRecord(trust, now)];
    }

    /** `getTrust(signature)` at `now`: the stored trust, or 0.7 for a record created now. */
    method GetTrust(signature: string, now: int) returns (trust: real)
      requires Valid()
      modifies this
      ensures Valid()
      ensures records == old(records)[signature := RecordOf(old(records), signature, now)]
      ensures signature in old(records) ==> records == old(records) && trust == old(records)[signature].trust
      ensures signature !in old(records) ==> trust == DefaultTrust
    {
      var rec := GetTrustRecord(signature, now);
      trust := rec.trust;
    }
  }
}
