/** Vocabulary shared by the detection, policy and metrics modules. */
module Types {

  /** The four traffic classes the classifier can report. */
  datatype TrafficClass = Legit | FlashCrowd | Bot | Flood

  /** The class names as the gateway spells them in reasons and metrics. */
  function ClassName(c: TrafficClass): string
  {
    match c
    case Legit => "legit"
    case FlashCrowd => "flash_crowd"
    case Bot => "bot"
    case Flood => "flood"
  }

  /** `['bot', 'flood'].includes(trafficClass)`. */
  predicate IsBotLike(c: TrafficClass) { c == Bot || c == Flood }

  /** The four actions a policy decision can carry. */
  datatype Action = Allow | RateLimit | Challenge | Block

  /** The seven window features recomputed on every request. */
  datatype Features = Features(
    rps: real,
    recentRps: real,
    endpointConcentration: real,
    headerEntropy: real,
    headerUniqueness: real,
    payloadVariance: real,
    burstiness: real)
}
