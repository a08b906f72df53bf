/** The target registry (backend/src/gateway/registry.js): validated ids and HTTPS URLs, and
    the map of registered targets with their own metrics state and anomaly detector. */
module Registry {
  import opened Common
  import opened JsStrings
  import MetricsState
  import Anomaly

  /** `WINDOW_SECONDS` at its default; the environment override is not modelled. */
  const WindowSeconds: nat := 60

  /** The characters of `[a-zA-Z0-9_-]`. */
  predicate IdChar(c: char)
  {
    ('a' <= c <= 'z') || ('A' <= c <= 'Z') || ('0' <= c <= '9') || c == '_' || c == '-'
  }

  predicate IsId(s: string)
  {
    |s| > 0 && forall i :: 0 <= i < |s| ==> IdChar(s[i])
  }

  /** `normalizeTargetId(targetId)` for a string or a missing value. */
  function NormalizeTargetId(targetId: Option<string>): (r: Option<string>)
  {
    var id := Trim(OrString(targetId, ""));
    if IsId(id) then Some(id) else None
  }

  /** A normalised id is a non-empty run of id characters, and normalising it again gives it
      back unchanged. */
  lemma NormalizeIdempotent(targetId: Option<string>)
    ensures var r := NormalizeTargetId(targetId);
            r.Some? ==> IsId(r.value) && NormalizeTargetId(Some(r.value)) == r
  {
    var r := NormalizeTargetId(targetId);
    if r.Some? {
      TrimOfTrimmed(r.value);
    }
  }

  /** An id is accepted exactly when its trimmed form is a non-empty run of id characters;
      a missing or blank id, or one with any other character, is refused. */
  lemma NormalizeAccepts(targetId: Option<string>)
    ensures NormalizeTargetId(targetId).Some?
            <==> IsId(Trim(OrString(targetId, "")))
    ensures NormalizeTargetId(None) == None && NormalizeTargetId(Some("")) == None
    ensures NormalizeTargetId(Some("a/b")) == None
  {
    TrimOfTrimmed("a/b");
    assert !IdChar("a/b"[1]);
  }

  /** The parts of a WHATWG URL the checks read; parsing itself is not modelled. */
  datatype ParsedUrl = ParsedUrl(protocol: string, hostname: string, username: string, password: string, href: string)

  const InvalidUrl := "Invalid URL."
  const NotHttps := "Target URL must use HTTPS."
  const NoHostname := "Target URL must include a hostname."
  const HasCredentials := "Target URL must not include credentials."
  const InvalidId := "targetId must be alphanumeric and may include - or _."

  /** `s.replace(/\/$/, '')`: one trailing slash removed, if there is one. */
  function StripTrailingSlash(s: string): (r: string)
  {
    if |s| > 0 && s[|s| - 1] == '/' then s[..|s| - 1] else s
  }

  /** Exactly one trailing slash is removed: the result plus that slash is the input. */
  lemma StripOneSlash(s: string)
    ensures EndsWith(s, "/") ==> StripTrailingSlash(s) + "/" == s
    ensures !EndsWith(s, "/") ==> StripTrailingSlash(s) == s
    ensures StripTrailingSlash("https://a.example//") == "https://a.example/"
  {
    if EndsWith(s, "/") {
      assert s[|s| - 1..] == "/";
    }
  }

  /** `validateHttpsUrl(url)` on the parse result (`None` when `new URL` throws). */
  function ValidateHttpsUrl(parsed: Option<ParsedUrl>): Result<string, string>
  {
    if parsed.None? then Err(InvalidUrl)
    else
      var u := parsed.value;
      if u.protocol != "https:" then Err(NotHttps)
      else if u.hostname == "" then Err(NoHostname)
      else if u.username != "" || u.password != "" then Err(HasCredentials)
      else Ok(StripTrailingSlash(u.href))
  }

  /** A URL is accepted exactly when it parsed, uses HTTPS, has a hostname and carries no
      credentials; each refusal carries its own message. */
  lemma ValidateOutcomes(parsed: Option<ParsedUrl>)
    ensures ValidateHttpsUrl(parsed).Ok?
            <==> parsed.Some? && parsed.value.protocol == "https:" && parsed.value.hostname != ""
                 && parsed.value.username == "" && parsed.value.password == ""
    ensures ValidateHttpsUrl(parsed).Ok? ==> ValidateHttpsUrl(parsed).value == StripTrailingSlash(parsed.value.href)
    ensures parsed.Some? && parsed.value.protocol != "https:" ==> ValidateHttpsUrl(parsed) == Err(NotHttps)
    ensures parsed.Some? && parsed.value.protocol == "https:" && parsed.value.hostname == ""
            ==> ValidateHttpsUrl(parsed) == Err(NoHostname)
  {
  }

  /** The id, label and URL a registration stores. */
  datatype TargetInfo = TargetInfo(id: string, targetLabel: string, url: string)

  /** The checks and defaults of `registerTarget`: the normalised id, the label (trimmed, or
      the id when absent or empty) and the validated URL, or the first error message. */
  function Registration(targetId: Option<string>, url: Option<ParsedUrl>, givenLabel: Option<string>)
    : Result<TargetInfo, string>
  {
    var id := NormalizeTargetId(targetId);
    if id.None? then Err(InvalidId)
    else
      var validation := ValidateHttpsUrl(url);
      if validation.Err? then Err(validation.error)
      else Ok(TargetInfo(id.value, if givenLabel.None? || givenLabel.value == "" then id.value else Trim(givenLabel.value),
                         validation.value))
  }

  /** A registration succeeds exactly when both the id and the URL are accepted; the label
      defaults to the id. */
  lemma RegistrationOutcomes(targetId: Option<string>, url: Option<ParsedUrl>, givenLabel: Option<string>)
    ensures var r := Registration(targetId, url, givenLabel);
            && (NormalizeTargetId(targetId).None? ==> r == Err(InvalidId))
            && (NormalizeTargetId(targetId).Some? && ValidateHttpsUrl(url).Err? ==> r == Err(ValidateHttpsUrl(url).error))
            && (r.Ok? <==> NormalizeTargetId(targetId).Some? && ValidateHttpsUrl(url).Ok?)
            && (r.Ok? ==> r.value.id == NormalizeTargetId(targetId).value && IsId(r.value.id)
                          && r.value.url == ValidateHttpsUrl(url).value)
            && (r.Ok? && (givenLabel.None? || givenLabel.value == "") ==> r.value.targetLabel == r.value.id)
  {
    NormalizeIdempotent(targetId);
  }

  /** A registered target; `state` and `detector` are its own mutable objects. */
  datatype Target = Target(id: string, targetLabel: string, url: string, createdAt: int,
                           state: MetricsState.TargetState, detector: Anomaly.AnomalyDetector)

  /** What `listTargets` exposes of a target. */
  datatype TargetSummary = TargetSummary(id: string, targetLabel: string, url: string, createdAt: int)

  function Summary(t: Target): TargetSummary
  {
    TargetSummary(t.id, t.targetLabel, t.url, t.createdAt)
  }

  datatype RegisterOutcome = Registered(target: Target) | Rejected(message: string)

  /** The `targets` map; `order` is its insertion order, which `Map` iteration follows. */
  class TargetRegistry {
    var targets: map<string, Target>
    var order: seq<string>

    ghost predicate Valid()
      reads this
    {
      && (forall i, j :: 0 <= i < j < |order| ==> order[i] != order[j])
      && (forall k :: k in targets <==> k in order)
      && (forall k :: k in targets ==> targets[k].id == k)
    }

    constructor ()
      ensures Valid() && targets == map[] && order == []
    {
      targets := map[];
      order := [];
    }

    /** `registerTarget({targetId, url, label})` at `now`. */
    method RegisterTarget(targetId: Option<string>, url: Option<ParsedUrl>, givenLabel: Option<string>, now: int)
      returns (r: RegisterOutcome)
      requires Valid()
      modifies this
      ensures Valid()
      ensures Registration(targetId, url, givenLabel).Err? ==>
                r == Rejected(Registration(targetId, url, givenLabel).error) && targets == old(targets) && order == old(order)
      ensures Registration(targetId, url, givenLabel).Ok? ==>
                var info := Registration(targetId, url, givenLabel).value;
                && r.Registered?
                && r.target.id == info.id && r.target.targetLabel == info.targetLabel && r.target.url == info.url
                && r.target.createdAt == now
                && fresh(r.target.state) && fresh(r.target.detector)
                && r.target.state.windowSeconds == WindowSeconds && r.target.state.requestWindow == []
                && r.target.state.totals == MetricsState.Totals(0, 0)
                && r.target.detector.baseline == Anomaly.InitialBaseline
                && targets == old(targets)[info.id := r.target]
                && order == if info.id in old(targets) then old(order) else old(order) + [info.id]
    {
      var id := NormalizeTargetId(targetId);
      if id.None? {
        return Rejected(InvalidId);
      }
      var validation := ValidateHttpsUrl(url);
      if validation.Err? {
        return Rejected(validation.error);
      }
      NormalizeIdempotent(targetId);
      var state := new MetricsState.TargetState(WindowSeconds, now);
      var detector := new Anomaly.AnomalyDetector();
      var target := Target(id.value, if givenLabel.None? || givenLabel.value == "" then id.value else Trim(givenLabel.value),
                           validation.value, now, state, detector);
      Store(target);
      r := Registered(target);
    }

    /** `targets.set(target.id, target)`: a new id goes to the end of the order, a known one
        keeps its place. */
    method Store(target: Target)
      requires Valid()
      modifies this`targets, this`order
      ensures Valid()
      ensures targets == old(targets)[target.id := target]
      ensures order == if target.id in old(targets) then old(order) else old(order) + [target.id]
    {
      if target.id !in targets {
        order := order + [target.id];
      }
      targets := targets[target.id := target];
    }

    /** `getTarget(targetId)`. */
    function GetTarget(targetId: Option<string>): (r: Option<Target>)
      reads this
    {
      var id := NormalizeTargetId(targetId);
      if id.None? || id.value !in targets then None else Some(targets[id.value])
    }

    /** `listTargets()`: the public fields of every target, in insertion order. */
    function ListTargets(): (r: seq<TargetSummary>)
      requires Valid()
      reads this
      ensures |r| == |order|
      ensures forall i :: 0 <= i < |r| ==> r[i] == Summary(targets[order[i]])
    {
      SummariesOf(order)
    }

    /** The summaries of the targets named by `ids`, in that order. */
    function SummariesOf(ids: seq<string>): (r: seq<TargetSummary>)
      requires forall k :: k in ids ==> k in targets
      reads this
      ensures |r| == |ids|
      ensures forall i :: 0 <= i < |r| ==> r[i] == Summary(targets[ids[i]])
    {
      if ids == [] then [] else [Summary(targets[ids[0]])] + SummariesOf(ids[1..])
    }
  }

  /** A lookup finds nothing for an invalid or unknown id, and otherwise the stored target. */
  lemma GetTargetCases(reg: TargetRegistry, targetId: Option<string>)
    ensures NormalizeTargetId(targetId).None? ==> reg.GetTarget(targetId).None?
    ensures NormalizeTargetId(targetId).Some? && NormalizeTargetId(targetId).value in reg.targets
            ==> reg.GetTarget(targetId) == Some(reg.targets[NormalizeTargetId(targetId).value])
    ensures NormalizeTargetId(targetId).Some? && NormalizeTargetId(targetId).value !in reg.targets
            ==> reg.GetTarget(targetId).None?
  {
  }
}
