/** Per-target traffic state: the sliding request window and the features computed from it,
    the counters, the decision history, and the read-only views the dashboard and the
    detectors consume (backend/src/metrics/state.js). */
module MetricsState {
  import opened Common
  import opened Types
  import opened MapFolds
  import opened RollingWindows

  /** The request metadata `recordRequest` receives from the extractor. */
  datatype RequestMeta = RequestMeta(path: string, headerFingerprint: string, bytes: int, protocol: string)

  /** One entry of the sliding request window. */
  datatype RequestEntry = RequestEntry(t: int, path: string, headerFingerprint: string, bytes: int, protocol: string)

  function EntryOf(meta: RequestMeta, now: int): RequestEntry
  {
    RequestEntry(now, meta.path, meta.headerFingerprint, meta.bytes, meta.protocol)
  }

  function RequestTime(e: RequestEntry): int { e.t }

  /** 1 for the counter being incremented, 0 for the others. */
  function Bump(hit: bool): nat { if hit then 1 else 0 }

  /** The five outcomes the metrics count. */
  datatype MetricsAction = Allowed | Throttled | RateLimited | Blocked | Challenged

  datatype ActionCounts = ActionCounts(allowed: nat, throttled: nat, rateLimited: nat, blocked: nat, challenged: nat)
  {
    function Get(a: MetricsAction): nat
    {
      match a
      case Allowed => allowed
      case Throttled => throttled
      case RateLimited => rateLimited
      case Blocked => blocked
      case Challenged => challenged
    }

    function Total(): nat { allowed + throttled + rateLimited + blocked + challenged }

    /** Exactly the counter of `a` goes up by one. */
    function Inc(a: MetricsAction): (r: ActionCounts)
      ensures r.Get(a) == Get(a) + 1
      ensures forall b :: b != a ==> r.Get(b) == Get(b)
      ensures r.Total() == Total() + 1
    {
      ActionCounts(allowed + Bump(a == Allowed), throttled + Bump(a == Throttled),
                   rateLimited + Bump(a == RateLimited), blocked + Bump(a == Blocked),
                   challenged + Bump(a == Challenged))
    }
  }

  const NoActions := ActionCounts(0, 0, 0, 0, 0)

  datatype ClassCounts = ClassCounts(legit: nat, flashCrowd: nat, bot: nat, flood: nat)
  {
    function Get(c: TrafficClass): nat
    {
      match c
      case Legit => legit
      case FlashCrowd => flashCrowd
      case Bot => bot
      case Flood => flood
    }

    function Total(): nat { legit + flashCrowd + bot + flood }

    /** Exactly the counter of `c` goes up by one. */
    function Inc(c: TrafficClass): (r: ClassCounts)
      ensures r.Get(c) == Get(c) + 1
      ensures forall d :: d != c ==> r.Get(d) == Get(d)
      ensures r.Total() == Total() + 1
    {
      ClassCounts(legit + Bump(c == Legit), flashCrowd + Bump(c == FlashCrowd),
                  bot + Bump(c == Bot), flood + Bump(c == Flood))
    }
  }

  const NoClasses := ClassCounts(0, 0, 0, 0)

  /** Action counts split by whether the class is bot-like (`bot`, `flood`) or human. */
  datatype ClassActions = ClassActions(bot: ActionCounts, human: ActionCounts)
  {
    function Total(): nat { bot.Total() + human.Total() }

    /** Exactly one counter, in the group of `c`, goes up. */
    function Inc(c: TrafficClass, a: MetricsAction): (r: ClassActions)
      ensures IsBotLike(c) ==> r.bot == bot.Inc(a) && r.human == human
      ensures !IsBotLike(c) ==> r.human == human.Inc(a) && r.bot == bot
      ensures r.Total() == Total() + 1
    {
      if IsBotLike(c) then this.(bot := bot.Inc(a)) else this.(human := human.Inc(a))
    }
  }

  const NoClassActions := ClassActions(NoActions, NoActions)

  datatype StatusCounts = StatusCounts(success: nat, clientError: nat, serverError: nat)
  {
    /** A 5xx is a server error, a 4xx a client error, anything else a success. */
    function Record(statusCode: int): (r: StatusCounts)
      ensures statusCode >= 500 ==> r == this.(serverError := serverError + 1)
      ensures 400 <= statusCode < 500 ==> r == this.(clientError := clientError + 1)
      ensures statusCode < 400 ==> r == this.(success := success + 1)
    {
      if statusCode >= 500 then this.(serverError := serverError + 1)
      else if statusCode >= 400 then this.(clientError := clientError + 1)
      else this.(success := success + 1)
    }
  }

  datatype ProtocolCounts = ProtocolCounts(http1: nat, http2: nat, websocket: nat)
  {
    function Total(): nat { http1 + http2 + websocket }

    /** Only the three known protocol names are counted; anything else changes nothing. */
    function Record(protocol: string): (r: ProtocolCounts)
      ensures protocol in {"http1", "http2", "websocket"} <==> r.Total() == Total() + 1
      ensures protocol !in {"http1", "http2", "websocket"} <==> r == this
    {
      if protocol == "http1" then this.(http1 := http1 + 1)
      else if protocol == "http2" then this.(http2 := http2 + 1)
      else if protocol == "websocket" then this.(websocket := websocket + 1)
      else this
    }
  }

  datatype Totals = Totals(requests: int, bytes: int)

  /** The decision `recordDecision` receives from the gateway. */
  datatype DecisionRecord = DecisionRecord(
    action: MetricsAction,
    reason: string,
    confidence: real,
    anomalyScore: int,
    trafficClass: TrafficClass,
    topFeatures: seq<string>,
    trustScore: real,
    riskScore: real)

  /** One entry of the sliding decision window. */
  datatype DecisionEntry = DecisionEntry(t: int, trafficClass: TrafficClass, action: MetricsAction)

  function DecisionTime(e: DecisionEntry): int { e.t }

  /** One line of the mitigation log; `time` stands for the ISO timestamp of the decision. */
  datatype LogEntry = LogEntry(
    time: int,
    action: MetricsAction,
    reason: string,
    confidence: real,
    trustScore: real,
    riskScore: real,
    anomalyScore: int,
    trafficClass: TrafficClass,
    features: seq<string>)

  function LogOf(d: DecisionRecord, now: int): LogEntry
  {
    LogEntry(now, d.action, d.reason, d.confidence, d.trustScore, d.riskScore, d.anomalyScore,
             d.trafficClass, d.topFeatures)
  }

  const MaxLogEntries: nat := 50

  /** `unshift` followed by `slice(0, 50)`: newest first, at most 50 entries, the older
      entries kept in order behind the new one. */
  function PushLog(log: seq<LogEntry>, e: LogEntry): (r: seq<LogEntry>)
    ensures |r| == MinInt(MaxLogEntries, |log| + 1)
    ensures r[0] == e && r[1..] == log[..|r| - 1]
  {
    ([e] + log)[..MinInt(MaxLogEntries, |log| + 1)]
  }

  datatype AnomalyRecord = AnomalyRecord(
    anomalyScore: int, trafficClass: TrafficClass, confidence: real, reason: string, updatedAt: int)

  /** What the proxy reports about an upstream response; `None` is a non-number. */
  datatype ResponseMeta = ResponseMeta(
    latencyMs: Option<int>, bytesOut: Option<int>, statusCode: int, timestamp: Option<int>)

  /** The window after the leading entries older than `cutoff` are shifted out. */
  function DropBefore<T>(w: seq<T>, at: T -> int, cutoff: int): (r: seq<T>)
    ensures |r| <= |w|
    ensures r == [] || at(r[0]) >= cutoff
    ensures forall k :: 0 <= k < |w| - |r| ==> at(w[k]) < cutoff
  {
    if |w| > 0 && at(w[0]) < cutoff then DropBefore(w[1..], at, cutoff) else w
  }

  /** What is kept is the newest part of the window: a suffix, in the same order. */
  lemma {:induction false} DropBeforeSuffix<T>(w: seq<T>, at: T -> int, cutoff: int)
    ensures var r := DropBefore(w, at, cutoff); r == w[|w| - |r|..]
    decreases |w|
  {
    if |w| > 0 && at(w[0]) < cutoff {
      DropBeforeSuffix(w[1..], at, cutoff);
      assert w[1..][|w| - 1 - |DropBefore(w[1..], at, cutoff)|..] == w[|w| - |DropBefore(w, at, cutoff)|..];
    }
  }

  /** An entry not older than the cutoff is never shifted out from the end. */
  lemma DropBeforeKeepsLast<T>(w: seq<T>, at: T -> int, cutoff: int)
    requires |w| > 0 && at(w[|w| - 1]) >= cutoff
    ensures var r := DropBefore(w, at, cutoff); |r| > 0 && r[|r| - 1] == w[|w| - 1]
  {
    DropBeforeSuffix(w, at, cutoff);
  }

  predicate Sorted<T>(w: seq<T>, at: T -> int)
  {
    forall i, j :: 0 <= i < j < |w| ==> at(w[i]) <= at(w[j])
  }

  /** On a window in time order, pruning keeps an entry exactly when it is not older than
      the cutoff. */
  lemma DropBeforeSorted<T>(w: seq<T>, at: T -> int, cutoff: int)
    requires Sorted(w, at)
    ensures var r := DropBefore(w, at, cutoff);
            forall k :: 0 <= k < |w| ==> (k >= |w| - |r| <==> at(w[k]) >= cutoff)
  {
    var r := DropBefore(w, at, cutoff);
    var d := |w| - |r|;
    DropBeforeSuffix(w, at, cutoff);
    forall k | 0 <= k < |w|
      ensures k >= d <==> at(w[k]) >= cutoff
    {
      if k >= d {
        assert r[0] == w[d] && w[k] == r[k - d];
        assert at(w[d]) <= at(w[k]);
      }
    }
  }

  /** Appending an entry no older than any other keeps the window in time order, and so
      does pruning it. */
  lemma PushPruneSorted<T>(w: seq<T>, e: T, at: T -> int, cutoff: int)
    requires Sorted(w, at)
    requires forall k :: 0 <= k < |w| ==> at(w[k]) <= at(e)
    ensures Sorted(DropBefore(w + [e], at, cutoff), at)
  {
    var v := w + [e];
    assert Sorted(v, at) by {
      forall i, j | 0 <= i < j < |v|
        ensures at(v[i]) <= at(v[j])
      {
        if j == |w| {
          assert v[i] == w[i];
        } else {
          assert v[i] == w[i] && v[j] == w[j];
        }
      }
    }
    var r := DropBefore(v, at, cutoff);
    var d := |v| - |r|;
    DropBeforeSuffix(v, at, cutoff);
    forall i, j | 0 <= i < j < |r|
      ensures at(r[i]) <= at(r[j])
    {
      assert r[i] == v[d + i] && r[j] == v[d + j];
    }
  }

  // ---------------------------------------------------------------------------------
  // The window features, as functions of the request window.

  /** How often each value occurs (`counts.set(v, (counts.get(v) || 0) + 1)` over the list). */
  function Tally(xs: seq<string>): map<string, int>
  {
    if |xs| == 0 then map[]
    else
      var m := Tally(xs[..|xs| - 1]);
      var x := xs[|xs| - 1];
      m[x := (if x in m then m[x] else 0) + 1]
  }

  /** Every value of the list is tallied, and each count is between 1 and the list's length. */
  lemma {:induction false} TallyRange(xs: seq<string>)
    ensures forall k :: 0 <= k < |xs| ==> xs[k] in Tally(xs)
    ensures forall x :: x in Tally(xs) ==> 1 <= Tally(xs)[x] <= |xs|
    decreases |xs|
  {
    if |xs| > 0 {
      var init := xs[..|xs| - 1];
      TallyRange(init);
      assert forall k :: 0 <= k < |init| ==> xs[k] == init[k];
    }
  }

  /** A list holding one value `n` times is tallied as that one value with count `n`. */
  lemma {:induction false} TallyConstant(xs: seq<string>, x: string)
    requires |xs| > 0 && forall k :: 0 <= k < |xs| ==> xs[k] == x
    ensures Tally(xs) == map[x := |xs|]
    decreases |xs|
  {
    if |xs| > 1 {
      TallyConstant(xs[..|xs| - 1], x);
    }
  }

  function Paths(w: seq<RequestEntry>): (r: seq<string>)
    ensures |r| == |w| && forall k :: 0 <= k < |w| ==> r[k] == w[k].path
  {
    seq(|w|, k requires 0 <= k < |w| => w[k].path)
  }

  function Fingerprints(w: seq<RequestEntry>): (r: seq<string>)
    ensures |r| == |w| && forall k :: 0 <= k < |w| ==> r[k] == w[k].headerFingerprint
  {
    seq(|w|, k requires 0 <= k < |w| => w[k].headerFingerprint)
  }

  function PayloadSizes(w: seq<RequestEntry>): (r: seq<int>)
    ensures |r| == |w| && forall k :: 0 <= k < |w| ==> r[k] == w[k].bytes
  {
    seq(|w|, k requires 0 <= k < |w| => w[k].bytes)
  }

  /** One more request of the window, as the feature loop sees it. */
  lemma ScanStep(w: seq<RequestEntry>, i: nat, cutoff: int)
    requires i < |w|
    ensures var m := Tally(Paths(w[..i])); var x := w[i].path;
            Tally(Paths(w[..i + 1])) == m[x := (if x in m then m[x] else 0) + 1]
    ensures Fingerprints(w[..i + 1]) == Fingerprints(w[..i]) + [w[i].headerFingerprint]
    ensures PayloadSizes(w[..i + 1]) == PayloadSizes(w[..i]) + [w[i].bytes]
    ensures RecentCount(w[..i + 1], cutoff) == RecentCount(w[..i], cutoff) + (if w[i].t >= cutoff then 1 else 0)
  {
    assert w[..i + 1][..i] == w[..i];
    assert Paths(w[..i + 1])[..i] == Paths(w[..i]);
  }

  /** The single pass of `computeWindowFeatures` over the window: requests per path, the
      header fingerprints and payload sizes in order, and the requests at or after
      `recentCutoff`. */
  method ScanWindow(w: seq<RequestEntry>, recentCutoff: int)
    returns (byEndpoint: map<string, int>, headerFingerprints: seq<string>, payloadSizes: seq<int>, recentCount: nat)
    ensures byEndpoint == Tally(Paths(w))
    ensures headerFingerprints == Fingerprints(w) && payloadSizes == PayloadSizes(w)
    ensures recentCount == RecentCount(w, recentCutoff)
  {
    byEndpoint := map[];
    headerFingerprints := [];
    payloadSizes := [];
    recentCount := 0;
    var i := 0;
    while i < |w|
      invariant 0 <= i <= |w|
      invariant byEndpoint == Tally(Paths(w[..i]))
      invariant headerFingerprints == Fingerprints(w[..i])
      invariant payloadSizes == PayloadSizes(w[..i])
      invariant recentCount == RecentCount(w[..i], recentCutoff)
    {
      var req := w[i];
      ScanStep(w, i, recentCutoff);
      byEndpoint := byEndpoint[req.path := (if req.path in byEndpoint then byEndpoint[req.path] else 0) + 1];
      headerFingerprints := headerFingerprints + [req.headerFingerprint];
      payloadSizes := payloadSizes + [req.bytes];
      if req.t >= recentCutoff {
        recentCount := recentCount + 1;
      }
      i := i + 1;
    }
    assert w[..|w|] == w;
  }

  /** The number of entries at or after `cutoff`. */
  function RecentCount(w: seq<RequestEntry>, cutoff: int): (n: nat)
    ensures n <= |w|
  {
    if |w| == 0 then 0
    else RecentCount(w[..|w| - 1], cutoff) + (if w[|w| - 1].t >= cutoff then 1 else 0)
  }

  /** `new Set(xs).size`. */
  function Distinct(xs: seq<string>): nat
  {
    |set x | x in xs|
  }

  lemma {:induction false} DistinctBounds(xs: seq<string>)
    ensures Distinct(xs) <= |xs|
    ensures |xs| > 0 ==> Distinct(xs) >= 1
    decreases |xs|
  {
    if |xs| > 0 {
      var init := xs[..|xs| - 1];
      DistinctBounds(init);
      assert (set x | x in xs) == (set x | x in init) + {xs[|xs| - 1]};
      assert xs[0] in (set x | x in xs);
    }
  }

  /** `p * Math.log2(p)`. */
  function PLogP(p: real, log2: real -> real): real { p * log2(p) }

  /** The term of the share of a value seen `count` times among `total`. */
  function EntropyTerm(total: nat, log2: real -> real): int -> real
    requires total > 0
  {
    count => PLogP(count as real / total as real, log2)
  }

  /** Shannon entropy of the value distribution of `xs`, with `Math.log2` as `log2`. */
  ghost function EntropyOf(xs: seq<string>, log2: real -> real): real
  {
    if |xs| == 0 then 0.0
    else
      var counts := Tally(xs);
      0.0 - SumMapped(counts, counts.Keys, EntropyTerm(|xs|, log2))
  }

  /** `count / seconds`: so many events per second. */
  function Rate(count: nat, seconds: nat): (r: real)
    requires seconds > 0
    ensures r >= 0.0 && r * seconds as real == count as real
    ensures count > 0 ==> r > 0.0
  {
    count as real / seconds as real
  }

  /** A count out of a positive total is a share in [0, 1], positive with the count. */
  lemma ShareInRange(count: int, total: int)
    requires 0 <= count <= total && total > 0
    ensures 0.0 <= count as real / total as real <= 1.0
    ensures count > 0 ==> count as real / total as real > 0.0
    ensures count as real / total as real * total as real == count as real
  {
    var p := count as real / total as real;
    assert p * total as real == count as real;
  }

  lemma ShareOfWhole(total: int)
    requires total > 0
    ensures total as real / total as real == 1.0
  {
    var p := total as real / total as real;
    assert p * total as real == total as real;
  }

  /** The entropy is never negative when `log2` is not positive on (0, 1]. */
  lemma EntropyNonNegative(xs: seq<string>, log2: real -> real)
    requires forall p :: 0.0 < p <= 1.0 ==> log2(p) <= 0.0
    ensures EntropyOf(xs, log2) >= 0.0
  {
    if |xs| > 0 {
      var counts := Tally(xs);
      var f := EntropyTerm(|xs|, log2);
      TallyRange(xs);
      forall k | k in counts.Keys
        ensures f(counts[k]) <= 0.0
      {
        var p := counts[k] as real / |xs| as real;
        ShareInRange(counts[k], |xs|);
        var l := log2(p);
        assert l <= 0.0;
        assert PLogP(p, log2) == p * l <= 0.0;
      }
      SumMappedNonPositive(counts, counts.Keys, f);
    }
  }

  /** A window in which every request carries the same fingerprint has entropy 0. */
  lemma EntropyOfUniform(xs: seq<string>, log2: real -> real)
    requires |xs| > 0 && forall k :: 0 <= k < |xs| ==> xs[k] == xs[0]
    requires log2(1.0) == 0.0
    ensures EntropyOf(xs, log2) == 0.0
  {
    TallyConstant(xs, xs[0]);
    var counts := Tally(xs);
    var f := EntropyTerm(|xs|, log2);
    SumMappedRemove(counts, counts.Keys, xs[0], f);
    assert counts.Keys - {xs[0]} == {};
    ShareOfWhole(|xs|);
    assert f(counts[xs[0]]) == PLogP(1.0, log2) == 0.0;
  }

  /** The sum of squared deviations from `mean`. */
  function SquaredDeviations(xs: seq<int>, mean: real): (r: real)
    ensures r >= 0.0
  {
    if |xs| == 0 then 0.0
    else
      var d := xs[|xs| - 1] as real - mean;
      SquaredDeviations(xs[..|xs| - 1], mean) + d * d
  }

  function Mean(xs: seq<int>): real
    requires |xs| > 0
  {
    SeqSum(xs) as real / |xs| as real
  }

  /** The population variance; 0 for an empty list. */
  function Variance(xs: seq<int>): (r: real)
    ensures r >= 0.0
  {
    if |xs| == 0 then 0.0 else SquaredDeviations(xs, Mean(xs)) / |xs| as real
  }

  /** A list of equal values has variance 0. */
  lemma {:induction false} VarianceOfConstant(xs: seq<int>, x: int)
    requires forall k :: 0 <= k < |xs| ==> xs[k] == x
    ensures |xs| > 0 ==> Mean(xs) == x as real
    ensures Variance(xs) == 0.0
    decreases |xs|
  {
    if |xs| > 0 {
      SumOfConstant(xs, x);
      DeviationsOfConstant(xs, x);
    }
  }

  lemma {:induction false} SumOfConstant(xs: seq<int>, x: int)
    requires forall k :: 0 <= k < |xs| ==> xs[k] == x
    ensures SeqSum(xs) == |xs| * x
    decreases |xs|
  {
    if |xs| > 0 {
      SumOfConstant(xs[..|xs| - 1], x);
    }
  }

  lemma {:induction false} DeviationsOfConstant(xs: seq<int>, x: int)
    requires forall k :: 0 <= k < |xs| ==> xs[k] == x
    ensures SquaredDeviations(xs, x as real) == 0.0
    decreases |xs|
  {
    if |xs| > 0 {
      DeviationsOfConstant(xs[..|xs| - 1], x);
    }
  }

  /** The feature vector of a window of `windowSeconds` seconds at instant `now`;
      `Math.log2` and `Math.sqrt` are the parameters `log2` and `sqrt`. */
  ghost function WindowFeatures(w: seq<RequestEntry>, windowSeconds: nat, now: int,
                                log2: real -> real, sqrt: real -> real): Features
    requires windowSeconds > 0
  {
    var total := if |w| == 0 then 1 else |w|;
    var byEndpoint := Tally(Paths(w));
    var fingerprints := Fingerprints(w);
    var sizes := PayloadSizes(w);
    var variance := Variance(sizes);
    Features(
      rps := Rate(total, windowSeconds),
      recentRps := Rate(RecentCount(w, now - 5000), 5),
      endpointConcentration := MaxOver(byEndpoint, byEndpoint.Keys, 0) as real / total as real,
      headerEntropy := EntropyOf(fingerprints, log2),
      headerUniqueness := Distinct(fingerprints) as real / total as real,
      payloadVariance := variance,
      burstiness := if |sizes| > 2 then sqrt(variance) / MaxReal(1.0, Mean(sizes)) else 0.0)
  }

  /** Endpoint concentration and header uniqueness are shares in [0, 1], positive as soon as
      the window holds a request. */
  lemma FeatureShares(w: seq<RequestEntry>, windowSeconds: nat, now: int,
                      log2: real -> real, sqrt: real -> real)
    requires windowSeconds > 0
    ensures var f := WindowFeatures(w, windowSeconds, now, log2, sqrt);
            && 0.0 <= f.endpointConcentration <= 1.0
            && 0.0 <= f.headerUniqueness <= 1.0
            && (|w| > 0 ==> f.endpointConcentration > 0.0 && f.headerUniqueness > 0.0)
  {
    var total := if |w| == 0 then 1 else |w|;
    var byEndpoint := Tally(Paths(w));
    var maxEndpoint := MaxOver(byEndpoint, byEndpoint.Keys, 0);
    TallyRange(Paths(w));
    MaxOverBounds(byEndpoint, byEndpoint.Keys, 0, total);
    if |w| > 0 {
      assert Paths(w)[0] in byEndpoint;
    }
    ShareInRange(maxEndpoint, total);
    DistinctBounds(Fingerprints(w));
    ShareInRange(Distinct(Fingerprints(w)), total);
  }

  /** Because an empty window counts as one request, the rate is never 0; the recent rate
      counts at most the whole window over five seconds. */
  lemma FeatureRates(w: seq<RequestEntry>, windowSeconds: nat, now: int,
                     log2: real -> real, sqrt: real -> real)
    requires windowSeconds > 0
    ensures var f := WindowFeatures(w, windowSeconds, now, log2, sqrt);
            && f.rps > 0.0
            && 0.0 <= f.recentRps * 5.0 <= |w| as real
  {
  }

  /** The variance is not negative, and a window of at most two requests has no burstiness. */
  lemma FeatureSpread(w: seq<RequestEntry>, windowSeconds: nat, now: int,
                      log2: real -> real, sqrt: real -> real)
    requires windowSeconds > 0
    ensures var f := WindowFeatures(w, windowSeconds, now, log2, sqrt);
            && f.payloadVariance >= 0.0
            && (|w| <= 2 ==> f.burstiness == 0.0)
            && ((forall k :: 0 <= k < |w| ==> w[k].bytes == 0) ==> f.payloadVariance == 0.0)
  {
    if forall k :: 0 <= k < |w| ==> w[k].bytes == 0 {
      VarianceOfConstant(PayloadSizes(w), 0);
    }
  }

  // ---------------------------------------------------------------------------------
  // Decision-window tallies and the read-only views.

  function TallyClasses(dw: seq<DecisionEntry>): ClassCounts
  {
    if |dw| == 0 then NoClasses else TallyClasses(dw[..|dw| - 1]).Inc(dw[|dw| - 1].trafficClass)
  }

  function TallyClassActions(dw: seq<DecisionEntry>): ClassActions
  {
    if |dw| == 0 then NoClassActions
    else
      var e := dw[|dw| - 1];
      TallyClassActions(dw[..|dw| - 1]).Inc(e.trafficClass, e.action)
  }

  lemma TallyClassesStep(dw: seq<DecisionEntry>, i: nat)
    requires i < |dw|
    ensures TallyClasses(dw[..i + 1]) == TallyClasses(dw[..i]).Inc(dw[i].trafficClass)
  {
    assert dw[..i + 1][..i] == dw[..i];
  }

  lemma TallyClassActionsStep(dw: seq<DecisionEntry>, i: nat)
    requires i < |dw|
    ensures TallyClassActions(dw[..i + 1]) == TallyClassActions(dw[..i]).Inc(dw[i].trafficClass, dw[i].action)
  {
    assert dw[..i + 1][..i] == dw[..i];
  }

  /** The counting loop of `getMitigationMetrics` over the pruned decision window. */
  method CountDecisions(window: seq<DecisionEntry>) returns (classes: ClassCounts, classActions: ClassActions)
    ensures classes == TallyClasses(window) && classActions == TallyClassActions(window)
  {
    classes := NoClasses;
    classActions := NoClassActions;
    var i := 0;
    while i < |window|
      invariant 0 <= i <= |window|
      invariant classes == TallyClasses(window[..i])
      invariant classActions == TallyClassActions(window[..i])
    {
      TallyClassesStep(window, i);
      TallyClassActionsStep(window, i);
      classes := classes.Inc(window[i].trafficClass);
      classActions := classActions.Inc(window[i].trafficClass, window[i].action);
      i := i + 1;
    }
    assert window[..|window|] == window;
  }

  /** Every entry of the decision window is counted once by class and once by action. */
  lemma {:induction false} TallyClassesTotal(dw: seq<DecisionEntry>)
    ensures TallyClasses(dw).Total() == |dw|
    decreases |dw|
  {
    if |dw| > 0 {
      TallyClassesTotal(dw[..|dw| - 1]);
    }
  }

  lemma {:induction false} TallyClassActionsTotal(dw: seq<DecisionEntry>)
    ensures TallyClassActions(dw).Total() == |dw|
    decreases |dw|
  {
    if |dw| > 0 {
      TallyClassActionsTotal(dw[..|dw| - 1]);
    }
  }

  /** The traffic classes of the window's entries, in order. */
  function ClassesOf(dw: seq<DecisionEntry>): (r: seq<TrafficClass>)
    ensures |r| == |dw| && forall k :: 0 <= k < |dw| ==> r[k] == dw[k].trafficClass
  {
    seq(|dw|, k requires 0 <= k < |dw| => dw[k].trafficClass)
  }

  /** The class counts over a window count exactly the entries of each class. */
  lemma {:induction false} TallyClassesCounts(dw: seq<DecisionEntry>, c: TrafficClass)
    ensures TallyClasses(dw).Get(c) == multiset(ClassesOf(dw))[c]
    decreases |dw|
  {
    if |dw| > 0 {
      var n := |dw| - 1;
      TallyClassesCounts(dw[..n], c);
      assert ClassesOf(dw) == ClassesOf(dw[..n]) + [dw[n].trafficClass];
    }
  }

  /** `lastX && (now - lastX) <= staleWindowMs`: 0 counts as never. */
  predicate Fresh(at: Option<int>, now: int, windowSeconds: nat)
  {
    at.Some? && at.value != 0 && now - at.value <= windowSeconds * 1000
  }

  datatype Explanation = Explanation(
    reason: string,
    topFeatures: seq<string>,
    confidence: real,
    trustScore: real,
    anomalyScore: int,
    trafficClass: TrafficClass,
    riskScore: real)

  const NoExplanation := Explanation("No recent decision.", [], 0.0, 0.0, 0, Legit, 0.0)

  /** The fields of a decision that the explainability view reports. */
  function ExplanationOf(d: DecisionRecord): Explanation
  {
    Explanation(d.reason, d.topFeatures, d.confidence, d.trustScore, d.anomalyScore, d.trafficClass, d.riskScore)
  }

  /** The explainability view: the last decision while it is fresh, otherwise the
      placeholder. */
  function Explain(last: Option<DecisionRecord>, lastAt: Option<int>, now: int, windowSeconds: nat): Explanation
  {
    if last.Some? && Fresh(lastAt, now, windowSeconds) then ExplanationOf(last.value) else NoExplanation
  }

  /** A decision recorded at `at` is explained up to `windowSeconds` after `at`, and never
      later; one recorded at instant 0 is never explained, and without a decision there is
      nothing to explain. */
  lemma ExplainExpiry(d: DecisionRecord, at: int, windowSeconds: nat, t: int)
    ensures at != 0 && t <= at + windowSeconds * 1000 ==>
              Explain(Some(d), Some(at), t, windowSeconds) == ExplanationOf(d)
    ensures at == 0 || t > at + windowSeconds * 1000 ==>
              Explain(Some(d), Some(at), t, windowSeconds) == NoExplanation
    ensures Explain(None, Some(at), t, windowSeconds) == NoExplanation
  {
  }

  datatype AnomalyView = AnomalyView(anomalyScore: int, trafficClass: TrafficClass, confidence: real, reason: string)

  const NoAnomaly := AnomalyView(0, Legit, 0.0, "No recent anomaly.")

  /** The fields of an anomaly record that the anomaly view reports. */
  function AnomalyViewOf(a: AnomalyRecord): AnomalyView
  {
    AnomalyView(a.anomalyScore, a.trafficClass, a.confidence, a.reason)
  }

  /** The anomaly view: the last anomaly while the target has seen traffic recently. */
  function ViewAnomaly(last: Option<AnomalyRecord>, lastSeenAt: Option<int>, now: int, windowSeconds: nat): AnomalyView
  {
    if !Fresh(lastSeenAt, now, windowSeconds) || last.None? then NoAnomaly
    else AnomalyViewOf(last.value)
  }

  /** The last anomaly is shown up to `windowSeconds` after the target's last request,
      whenever the anomaly itself was recorded, and never later; with no request seen, or
      one seen at instant 0, or no anomaly, the placeholder is shown. */
  lemma AnomalyExpiry(a: AnomalyRecord, seenAt: int, windowSeconds: nat, t: int)
    ensures seenAt != 0 && t <= seenAt + windowSeconds * 1000 ==>
              ViewAnomaly(Some(a), Some(seenAt), t, windowSeconds) == AnomalyViewOf(a)
    ensures seenAt == 0 || t > seenAt + windowSeconds * 1000 ==>
              ViewAnomaly(Some(a), Some(seenAt), t, windowSeconds) == NoAnomaly
    ensures ViewAnomaly(Some(a), None, t, windowSeconds) == NoAnomaly
    ensures ViewAnomaly(None, Some(seenAt), t, windowSeconds) == NoAnomaly
  {
  }

  /** `count / total * 100`. */
  function Percent(count: nat, total: nat): (r: real)
    requires total > 0
    ensures r >= 0.0
    ensures count <= total ==> r <= 100.0
  {
    ShareOfWhole(total);
    assert count <= total ==> count as real / total as real <= total as real / total as real;
    count as real / total as real * 100.0
  }

  /** Percentages of one total add up like their counts. */
  lemma PercentAdd(x: nat, y: nat, total: nat)
    requires total > 0
    ensures Percent(x, total) + Percent(y, total) == Percent(x + y, total)
  {
    var t := total as real;
    assert x as real / t + y as real / t == (x + y) as real / t;
  }

  datatype ActionShares = ActionShares(clean: real, throttled: real, rateLimited: real, blocked: real)

  /** The action percentages of the traffic view, over all five actions (`|| 1` when none). */
  function SharesOf(a: ActionCounts): (r: ActionShares)
    ensures r.clean >= 0.0 && r.throttled >= 0.0 && r.rateLimited >= 0.0 && r.blocked >= 0.0
    ensures r.clean + r.throttled + r.rateLimited + r.blocked <= 100.0
    ensures a.challenged == 0 && a.Total() > 0 ==>
              r.clean + r.throttled + r.rateLimited + r.blocked == 100.0
  {
    var total := if a.Total() == 0 then 1 else a.Total();
    PercentAdd(a.allowed, a.throttled, total);
    PercentAdd(a.allowed + a.throttled, a.rateLimited, total);
    PercentAdd(a.allowed + a.throttled + a.rateLimited, a.blocked, total);
    ShareOfWhole(total);
    ActionShares(Percent(a.allowed, total), Percent(a.throttled, total),
                 Percent(a.rateLimited, total), Percent(a.blocked, total))
  }

  datatype ProtocolShares = ProtocolShares(http1: real, http2: real, websocket: real)

  /** The protocol distribution: shares summing to 100 once anything was counted, all 0 before. */
  function ProtocolSharesOf(p: ProtocolCounts): (r: ProtocolShares)
    ensures p.Total() > 0 ==> r.http1 + r.http2 + r.websocket == 100.0
    ensures p.Total() == 0 ==> r == ProtocolShares(0.0, 0.0, 0.0)
  {
    var total := if p.Total() == 0 then 1 else p.Total();
    PercentAdd(p.http1, p.http2, total);
    PercentAdd(p.http1 + p.http2, p.websocket, total);
    ShareOfWhole(total);
    ProtocolShares(Percent(p.http1, total), Percent(p.http2, total), Percent(p.websocket, total))
  }

  datatype TrafficView = TrafficView(
    rps: real,
    bandwidthGbps: real,
    shares: ActionShares,
    avgLatencyMs: real,
    statusCodes: StatusCounts,
    totals: Totals,
    protocolDistribution: ProtocolShares,
    rpsHistory: seq<int>,
    bandwidthHistory: seq<real>)

  /** Bytes per second-bucket as gigabits. */
  function Gigabits(bytes: int): real { (bytes * 8) as real / 1000000000.0 }

  datatype MitigationView = MitigationView(
    lastDecision: Option<DecisionRecord>,
    actions: ActionCounts,
    mitigationLog: seq<LogEntry>,
    trafficClasses: ClassCounts,
    classActions: ClassActions,
    recentClassCounts: ClassCounts,
    recentClassActions: ClassActions)

  // ---------------------------------------------------------------------------------
  // The state object.

  class TargetState {
    const windowSeconds: nat
    const startedAt: int
    const rpsWindow: RollingWindow
    const bytesWindow: RollingWindow
    const latencyWindow: RollingWindow
    var requestWindow: seq<RequestEntry>
    var totals: Totals
    var statusCodes: StatusCounts
    var protocolCounts: ProtocolCounts
    var trafficClasses: ClassCounts
    var classActions: ClassActions
    var actions: ActionCounts
    var lastDecision: Option<DecisionRecord>
    var lastDecisionAt: Option<int>
    var lastAnomaly: Option<AnomalyRecord>
    var lastSeenAt: Option<int>
    var decisionWindow: seq<DecisionEntry>
    var mitigationLog: seq<LogEntry>

    ghost function Repr(): set<object>
    {
      {this, rpsWindow, bytesWindow, latencyWindow}
    }

    ghost predicate Valid()
      reads this
    {
      && windowSeconds > 0
      && rpsWindow != bytesWindow && rpsWindow != latencyWindow && bytesWindow != latencyWindow
      && rpsWindow.windowSeconds == windowSeconds
      && bytesWindow.windowSeconds == windowSeconds
      && latencyWindow.windowSeconds == windowSeconds
      && |mitigationLog| <= MaxLogEntries
    }

    /** `createState(windowSeconds)`, started at `now`. */
    constructor (windowSeconds: nat, now: int)
      requires windowSeconds > 0
      ensures Valid() && fresh(Repr())
      ensures this.windowSeconds == windowSeconds && startedAt == now
      ensures rpsWindow.buckets == map[] && bytesWindow.buckets == map[] && latencyWindow.buckets == map[]
      ensures requestWindow == [] && totals == Totals(0, 0)
      ensures statusCodes == StatusCounts(0, 0, 0) && protocolCounts == ProtocolCounts(0, 0, 0)
      ensures trafficClasses == NoClasses && classActions == NoClassActions && actions == NoActions
      ensures lastDecision == None && lastDecisionAt == None && lastAnomaly == None && lastSeenAt == None
      ensures decisionWindow == [] && mitigationLog == []
    {
      this.windowSeconds := windowSeconds;
      startedAt := now;
      rpsWindow := new RollingWindow(windowSeconds);
      bytesWindow := new RollingWindow(windowSeconds);
      latencyWindow := new RollingWindow(windowSeconds);
      requestWindow := [];
      totals := Totals(0, 0);
      statusCodes := StatusCounts(0, 0, 0);
      protocolCounts := ProtocolCounts(0, 0, 0);
      trafficClasses := NoClasses;
      classActions := NoClassActions;
      actions := NoActions;
      lastDecision := None;
      lastDecisionAt := None;
      lastAnomaly := None;
      lastSeenAt := None;
      decisionWindow := [];
      mitigationLog := [];
    }

    /** `pruneWindow(now)`: shifts out the requests older than the window. */
    method PruneWindow(now: int)
      modifies this`requestWindow
      ensures requestWindow == DropBefore(old(requestWindow), RequestTime, now - windowSeconds * 1000)
    {
      var cutoff := now - windowSeconds * 1000;
      var w := requestWindow;
      while |w| > 0 && RequestTime(w[0]) < cutoff
        invariant DropBefore(w, RequestTime, cutoff) == DropBefore(requestWindow, RequestTime, cutoff)
        decreases |w|
      {
        w := w[1..];
      }
      requestWindow := w;
    }

    /** `computeWindowFeatures()` at instant `now`. */
    method ComputeWindowFeatures(now: int, log2: real -> real, sqrt: real -> real) returns (f: Features)
      requires Valid()
      ensures f == WindowFeatures(requestWindow, windowSeconds, now, log2, sqrt)
    {
      var w := requestWindow;
      var total := if |w| == 0 then 1 else |w|;
      var byEndpoint, headerFingerprints, payloadSizes, recentCount := ScanWindow(w, now - 5000);
      var maxEndpoint := MaxOfValues(byEndpoint, 0);
      var headerEntropy := Entropy(headerFingerprints, log2);
      var uniqueHeaders := |set x | x in headerFingerprints|;
      var payloadVariance := Variance(payloadSizes);
      var burstiness := if |payloadSizes| > 2
        then sqrt(payloadVariance) / MaxReal(1.0, SeqSum(payloadSizes) as real / |payloadSizes| as real)
        else 0.0;
      f := Features(
        rps := Rate(total, windowSeconds),
        recentRps := Rate(recentCount, 5),
        endpointConcentration := maxEndpoint as real / total as real,
        headerEntropy := headerEntropy,
        headerUniqueness := uniqueHeaders as real / total as real,
        payloadVariance := payloadVariance,
        burstiness := burstiness);
    }

    /** The counting half of `recordRequest(meta)`: totals, the rps and bytes windows,
        the last-seen instant and the protocol counter. */
    method CountRequest(meta: RequestMeta, now: int)
      requires Valid()
      modifies this`totals, this`protocolCounts, this`lastSeenAt, rpsWindow, bytesWindow
      ensures totals == Totals(old(totals).requests + 1, old(totals).bytes + meta.bytes)
      ensures rpsWindow.buckets == Added(old(rpsWindow.buckets), now, 1, windowSeconds)
      ensures bytesWindow.buckets == Added(old(bytesWindow.buckets), now, meta.bytes, windowSeconds)
      ensures lastSeenAt == Some(now)
      ensures protocolCounts == old(protocolCounts).Record(meta.protocol)
    {
      totals := Totals(totals.requests + 1, totals.bytes + meta.bytes);
      rpsWindow.Add(1, now);
      bytesWindow.Add(meta.bytes, now);
      lastSeenAt := Some(now);
      protocolCounts := protocolCounts.Record(meta.protocol);
    }

    /** The window half of `recordRequest(meta)`: pushes the request and prunes. */
    method AppendRequest(meta: RequestMeta, now: int)
      modifies this`requestWindow
      ensures requestWindow == DropBefore(old(requestWindow) + [EntryOf(meta, now)], RequestTime, now - windowSeconds * 1000)
      ensures |requestWindow| > 0 && requestWindow[|requestWindow| - 1] == EntryOf(meta, now)
    {
      requestWindow := requestWindow + [EntryOf(meta, now)];
      DropBeforeKeepsLast(requestWindow, RequestTime, now - windowSeconds * 1000);
      PruneWindow(now);
    }

    /** `recordRequest(meta)` at instant `now`: counts the request, appends it to the window,
        prunes, and returns the features of the window. */
    method RecordRequest(meta: RequestMeta, now: int, log2: real -> real, sqrt: real -> real) returns (f: Features)
      requires Valid()
      modifies this`totals, this`requestWindow, this`protocolCounts, this`lastSeenAt, rpsWindow, bytesWindow
      ensures Valid()
      ensures totals == Totals(old(totals).requests + 1, old(totals).bytes + meta.bytes)
      ensures rpsWindow.buckets == Added(old(rpsWindow.buckets), now, 1, windowSeconds)
      ensures bytesWindow.buckets == Added(old(bytesWindow.buckets), now, meta.bytes, windowSeconds)
      ensures lastSeenAt == Some(now)
      ensures requestWindow == DropBefore(old(requestWindow) + [EntryOf(meta, now)], RequestTime, now - windowSeconds * 1000)
      ensures |requestWindow| > 0 && requestWindow[|requestWindow| - 1] == EntryOf(meta, now)
      ensures protocolCounts == old(protocolCounts).Record(meta.protocol)
      ensures f == WindowFeatures(requestWindow, windowSeconds, now, log2, sqrt)
      ensures lastAnomaly.Some? && now != 0 ==>
                forall t :: t <= now + windowSeconds * 1000 ==> GetAnomalyMetrics(t) == AnomalyViewOf(lastAnomaly.value)
      ensures forall t :: now == 0 || t > now + windowSeconds * 1000 ==> GetAnomalyMetrics(t) == NoAnomaly
    {
      CountRequest(meta, now);
      AppendRequest(meta, now);
      f := ComputeWindowFeatures(now, log2, sqrt);
    }

    /** `pruneDecisionWindow(now)`. */
    method PruneDecisionWindow(now: int)
      modifies this`decisionWindow
      ensures decisionWindow == DropBefore(old(decisionWindow), DecisionTime, now - windowSeconds * 1000)
    {
      var cutoff := now - windowSeconds * 1000;
      while |decisionWindow| > 0 && DecisionTime(decisionWindow[0]) < cutoff
        invariant DropBefore(decisionWindow, DecisionTime, cutoff)
               == DropBefore(old(decisionWindow), DecisionTime, cutoff)
        decreases |decisionWindow|
      {
        decisionWindow := decisionWindow[1..];
      }
    }

    /** `recordDecision(d)` at instant `now`. */
    method RecordDecision(d: DecisionRecord, now: int)
      requires Valid()
      modifies this`lastDecision, this`lastDecisionAt, this`actions, this`trafficClasses,
               this`classActions, this`decisionWindow, this`mitigationLog
      ensures Valid()
      ensures lastDecision == Some(d) && lastDecisionAt == Some(now)
      ensures actions == old(actions).Inc(d.action)
      ensures trafficClasses == old(trafficClasses).Inc(d.trafficClass)
      ensures classActions == old(classActions).Inc(d.trafficClass, d.action)
      ensures decisionWindow == DropBefore(old(decisionWindow) + [DecisionEntry(now, d.trafficClass, d.action)],
                                           DecisionTime, now - windowSeconds * 1000)
      ensures mitigationLog == PushLog(old(mitigationLog), LogOf(d, now))
      ensures now != 0 ==> forall t :: t <= now + windowSeconds * 1000 ==> GetExplainabilityMetrics(t) == ExplanationOf(d)
      ensures forall t :: now == 0 || t > now + windowSeconds * 1000 ==> GetExplainabilityMetrics(t) == NoExplanation
    {
      lastDecision := Some(d);
      lastDecisionAt := Some(now);
      actions := actions.Inc(d.action);
      trafficClasses := trafficClasses.Inc(d.trafficClass);
      classActions := classActions.Inc(d.trafficClass, d.action);
      decisionWindow := decisionWindow + [DecisionEntry(now, d.trafficClass, d.action)];
      PruneDecisionWindow(now);
      mitigationLog := PushLog(mitigationLog, LogOf(d, now));
    }

    /** `recordResponse(meta)` at instant `now`: only positive byte counts and numeric
        latencies are added, at the response's own timestamp when it has one. */
    method RecordResponse(meta: ResponseMeta, now: int)
      requires Valid()
      modifies this`totals, this`statusCodes, bytesWindow, latencyWindow
      ensures Valid()
      ensures var at := OrInt(meta.timestamp, now);
              && (meta.bytesOut.Some? && meta.bytesOut.value > 0 ==>
                    bytesWindow.buckets == Added(old(bytesWindow.buckets), at, meta.bytesOut.value, windowSeconds)
                    && totals == old(totals).(bytes := old(totals).bytes + meta.bytesOut.value))
              && (!(meta.bytesOut.Some? && meta.bytesOut.value > 0) ==>
                    bytesWindow.buckets == old(bytesWindow.buckets) && totals == old(totals))
              && (meta.latencyMs.Some? ==>
                    latencyWindow.buckets == Added(old(latencyWindow.buckets), at, meta.latencyMs.value, windowSeconds))
              && (meta.latencyMs.None? ==> latencyWindow.buckets == old(latencyWindow.buckets))
      ensures statusCodes == old(statusCodes).Record(meta.statusCode)
    {
      if meta.bytesOut.Some? && meta.bytesOut.value > 0 {
        bytesWindow.Add(meta.bytesOut.value, OrInt(meta.timestamp, now));
        totals := totals.(bytes := totals.bytes + meta.bytesOut.value);
      }
      if meta.latencyMs.Some? {
        latencyWindow.Add(meta.latencyMs.value, OrInt(meta.timestamp, now));
      }
      statusCodes := statusCodes.Record(meta.statusCode);
    }

    /** `recordAnomaly(...)` at instant `now`. */
    method RecordAnomaly(anomalyScore: int, trafficClass: TrafficClass, confidence: real, reason: string, now: int)
      modifies this`lastAnomaly
      ensures lastAnomaly == Some(AnomalyRecord(anomalyScore, trafficClass, confidence, reason, now))
      ensures lastSeenAt.Some? && lastSeenAt.value != 0 ==>
                forall t :: t <= lastSeenAt.value + windowSeconds * 1000 ==>
                  GetAnomalyMetrics(t) == AnomalyView(anomalyScore, trafficClass, confidence, reason)
      ensures forall t :: lastSeenAt.None? || lastSeenAt.value == 0 || t > lastSeenAt.value + windowSeconds * 1000 ==>
                GetAnomalyMetrics(t) == NoAnomaly
    {
      lastAnomaly := Some(AnomalyRecord(anomalyScore, trafficClass, confidence, reason, now));
    }

    /** `getTrafficMetrics()` at instant `now`; it changes nothing. */
    method GetTrafficMetrics(now: int) returns (v: TrafficView)
      requires Valid()
      ensures v.rps == SumValues(rpsWindow.buckets) as real / windowSeconds as real
      ensures v.bandwidthGbps == (SumValues(bytesWindow.buckets) * 8) as real / (windowSeconds as real * 1000000000.0)
      ensures v.shares == SharesOf(actions)
      ensures v.avgLatencyMs == SeqSum(SeriesAt(latencyWindow.buckets, SecondOf(now), windowSeconds)) as real
                                / windowSeconds as real
      ensures v.statusCodes == statusCodes && v.totals == totals
      ensures v.protocolDistribution == ProtocolSharesOf(protocolCounts)
      ensures v.rpsHistory == SeriesAt(rpsWindow.buckets, SecondOf(now), windowSeconds)
      ensures var bytes := SeriesAt(bytesWindow.buckets, SecondOf(now), windowSeconds);
              |v.bandwidthHistory| == |bytes| &&
              forall k :: 0 <= k < |bytes| ==> v.bandwidthHistory[k] == Gigabits(bytes[k])
    {
      var requests := rpsWindow.Sum();
      var bytes := bytesWindow.Sum();
      var latencySamples := latencyWindow.Series(now);
      var rpsHistory := rpsWindow.Series(now);
      var bytesHistory := bytesWindow.Series(now);
      var avgLatencyMs := SeqSum(latencySamples) as real / MaxInt(1, |latencySamples|) as real;
      var bandwidthHistory := seq(|bytesHistory|, k requires 0 <= k < |bytesHistory| => Gigabits(bytesHistory[k]));
      v := TrafficView(
        requests as real / windowSeconds as real,
        (bytes * 8) as real / (windowSeconds as real * 1000000000.0),
        SharesOf(actions),
        avgLatencyMs,
        statusCodes,
        totals,
        ProtocolSharesOf(protocolCounts),
        rpsHistory,
        bandwidthHistory);
    }

    /** `getMitigationMetrics()` at instant `now`: prunes the decision window, then tallies it. */
    method GetMitigationMetrics(now: int) returns (v: MitigationView)
      modifies this`decisionWindow
      ensures decisionWindow == DropBefore(old(decisionWindow), DecisionTime, now - windowSeconds * 1000)
      ensures v.lastDecision == if Fresh(lastDecisionAt, now, windowSeconds) then lastDecision else None
      ensures v.actions == actions && v.mitigationLog == mitigationLog
      ensures v.trafficClasses == trafficClasses && v.classActions == classActions
      ensures v.recentClassCounts == TallyClasses(decisionWindow)
      ensures v.recentClassActions == TallyClassActions(decisionWindow)
    {
      var lastDecisionFresh := lastDecision.Some? && Fresh(lastDecisionAt, now, windowSeconds);
      PruneDecisionWindow(now);
      var recentClassCounts, recentClassActions := CountDecisions(decisionWindow);
      v := MitigationView(
        if lastDecisionFresh then lastDecision else None,
        actions, mitigationLog, trafficClasses, classActions, recentClassCounts, recentClassActions);
    }

    /** `getExplainabilityMetrics()` at instant `now`. */
    function GetExplainabilityMetrics(now: int): Explanation
      reads this
    {
      Explain(lastDecision, lastDecisionAt, now, windowSeconds)
    }

    /** `getAnomalyMetrics()` at instant `now`. */
    function GetAnomalyMetrics(now: int): AnomalyView
      reads this
    {
      ViewAnomaly(lastAnomaly, lastSeenAt, now, windowSeconds)
    }
  }

  /** `entropy(values)`: tallies the values, then sums `-p log2 p` over the counts. */
  method Entropy(values: seq<string>, log2: real -> real) returns (sum: real)
    ensures sum == EntropyOf(values, log2)
  {
    if |values| == 0 {
      return 0.0;
    }
    var counts: map<string, int> := map[];
    var i := 0;
    while i < |values|
      invariant 0 <= i <= |values|
      invariant counts == Tally(values[..i])
    {
      assert values[..i + 1][..i] == values[..i];
      counts := counts[values[i] := (if values[i] in counts then counts[values[i]] else 0) + 1];
      i := i + 1;
    }
    assert values[..|values|] == values;
    var total := |values|;
    ghost var term := EntropyTerm(total, log2);
    sum := 0.0;
    var pending := counts.Keys;
    while pending != {}
      invariant pending <= counts.Keys
      invariant sum - SumMapped(counts, pending, term) == 0.0 - SumMapped(counts, counts.Keys, term)
      decreases pending
    {
      var k := Pick(pending);
      SumMappedRemove(counts, pending, k, term);
      var p := counts[k] as real / total as real;
      assert term(counts[k]) == PLogP(p, log2);
      sum := sum - PLogP(p, log2);
      pending := pending - {k};
    }
  }
}
