/** Challenges, verified signatures and failure counters
    (backend/src/security/challenge.js): three tables whose entries expire. */
module Challenges {
  import opened MapFolds

  const ChallengeTtlMs: int := 5 * 60 * 1000
  const VerifiedTtlMs: int := 20 * 60 * 1000
  const FailureWindowMs: int := 10 * 60 * 1000
  const MaxFailures: nat := 3

  const ExpiredReason := "Challenge expired. Please retry."
  const MismatchReason := "Challenge mismatch. Please retry."
  const NotHumanReason := "Please confirm you are not a robot."

  datatype ChallengeRecord = ChallengeRecord(
    signature: string, targetId: string, originalUrl: string, createdAt: int, expiresAt: int)

  datatype FailureRecord = FailureRecord(count: nat, lastFailure: int)

  /** What `verifyChallenge` returns. */
  datatype VerifyOutcome =
    | Passed(originalUrl: string, targetId: string)
    | Failed(reason: string)

  /** The three tables together. */
  datatype Tables = Tables(
    challenges: map<string, ChallengeRecord>,
    verified: map<string, int>,
    failures: map<string, FailureRecord>)

  function ChallengeDead(now: int): (string, ChallengeRecord) -> bool
  {
    (k: string, v: ChallengeRecord) => v.expiresAt <= now
  }

  function VerifiedDead(now: int): (string, int) -> bool
  {
    (k: string, expiresAt: int) => expiresAt <= now
  }

  function FailureDead(now: int): (string, FailureRecord) -> bool
  {
    (k: string, v: FailureRecord) => v.lastFailure + FailureWindowMs <= now
  }

  /** The tables after `cleanupExpired()` at `now`. */
  function Cleaned(t: Tables, now: int): Tables
  {
    Tables(Keep(t.challenges, ChallengeDead(now)), Keep(t.verified, VerifiedDead(now)),
           Keep(t.failures, FailureDead(now)))
  }

  /** The sweep keeps exactly the live entries, unchanged, and sweeping again at the same
      instant changes nothing. */
  lemma CleanedLive(t: Tables, now: int)
    ensures var c := Cleaned(t, now);
            && (forall k :: k in c.challenges <==> k in t.challenges && t.challenges[k].expiresAt > now)
            && (forall k :: k in c.verified <==> k in t.verified && t.verified[k] > now)
            && (forall k :: k in c.failures <==> k in t.failures && t.failures[k].lastFailure + FailureWindowMs > now)
            && (forall k :: k in c.challenges ==> c.challenges[k] == t.challenges[k])
            && (forall k :: k in c.failures ==> c.failures[k] == t.failures[k])
            && Cleaned(c, now) == c
  {
  }

  /** `isVerified(signature)` at `now`. */
  predicate IsVerified(t: Tables, signature: string, now: int)
  {
    var c := Cleaned(t, now);
    signature in c.verified && c.verified[signature] > now
  }

  /** A signature counts as verified exactly when its record has not yet expired. */
  lemma IsVerifiedIff(t: Tables, signature: string, now: int)
    ensures IsVerified(t, signature, now) <==> signature in t.verified && t.verified[signature] > now
  {
    CleanedLive(t, now);
  }

  /** `markVerified(signature, ttlMs)` at `now`. */
  function MarkVerified(t: Tables, signature: string, ttl: int, now: int): Tables
  {
    t.(verified := t.verified[signature := now + ttl])
  }

  /** A signature just marked with a positive time-to-live is verified until it runs out. */
  lemma MarkThenVerified(t: Tables, signature: string, ttl: int, now: int, later: int)
    requires now <= later < now + ttl
    ensures IsVerified(MarkVerified(t, signature, ttl, now), signature, later)
    ensures !IsVerified(MarkVerified(t, signature, ttl, now), signature, now + ttl)
  {
    IsVerifiedIff(MarkVerified(t, signature, ttl, now), signature, later);
    IsVerifiedIff(MarkVerified(t, signature, ttl, now), signature, now + ttl);
  }

  /** `getFailureCount(signature)` at `now`, on the swept tables. */
  function FailureCount(t: Tables, signature: string, now: int): nat
  {
    var c := Cleaned(t, now);
    if signature in c.failures then c.failures[signature].count else 0
  }

  /** `recordFailure(signature)` at `now`: the new tables and the new count. */
  function RecordFailure(t: Tables, signature: string, now: int): (Tables, nat)
  {
    var c := Cleaned(t, now);
    var previous := if signature in c.failures then c.failures[signature] else FailureRecord(0, now);
    var count := previous.count + 1;
    (c.(failures := c.failures[signature := FailureRecord(count, now)]), count)
  }

  /** A failure adds one to the count of the last ten minutes, or starts again at 1 when the
      last failure is older; the count seen afterwards is the one returned. */
  lemma RecordFailureCounts(t: Tables, signature: string, now: int)
    ensures var (t2, n) := RecordFailure(t, signature, now);
            && n == FailureCount(t, signature, now) + 1
            && (signature in t.failures && t.failures[signature].lastFailure + FailureWindowMs > now
                ==> n == t.failures[signature].count + 1)
            && (signature !in t.failures || t.failures[signature].lastFailure + FailureWindowMs <= now ==> n == 1)
            && FailureCount(t2, signature, now) == n
  {
    CleanedLive(t, now);
    var (t2, n) := RecordFailure(t, signature, now);
    CleanedLive(t2, now);
  }

  /** `clearFailures(signature)`. */
  function ClearFailures(t: Tables, signature: string): Tables
  {
    t.(failures := t.failures - {signature})
  }

  /** After clearing, the failure count is 0. */
  lemma ClearedCountIsZero(t: Tables, signature: string, now: int)
    ensures FailureCount(ClearFailures(t, signature), signature, now) == 0
  {
    CleanedLive(ClearFailures(t, signature), now);
  }

  /** `createChallenge(signature, targetId, originalUrl)` at `now` with the random `token`. */
  function CreateChallenge(t: Tables, signature: string, targetId: string, originalUrl: string,
                           token: string, now: int): Tables
  {
    var c := Cleaned(t, now);
    c.(challenges := c.challenges[token := ChallengeRecord(signature, targetId, originalUrl, now, now + ChallengeTtlMs)])
  }

  /** `verifyChallenge({token, signature, human})`: the sweep reads the clock at `sweptAt`,
      the expiry check reads it again at `now`. Returns the new tables and the outcome. */
  function VerifyChallenge(t: Tables, token: string, signature: string, human: bool, sweptAt: int, now: int)
    : (Tables, VerifyOutcome)
  {
    var c := Cleaned(t, sweptAt);
    if token !in c.challenges then (c, Failed(ExpiredReason))
    else
      var record := c.challenges[token];
      if record.signature != signature then (c, Failed(MismatchReason))
      else if record.expiresAt <= now then (c.(challenges := c.challenges - {token}), Failed(ExpiredReason))
      else if !human then (c, Failed(NotHumanReason))
      else (c.(challenges := c.challenges - {token}), Passed(record.originalUrl, record.targetId))
  }

  /** The challenge a token names when it is still live at `now`. */
  predicate Live(t: Tables, token: string, now: int)
  {
    token in t.challenges && t.challenges[token].expiresAt > now
  }

  /** A fresh challenge holds the caller's signature, target and URL and lives five minutes. */
  lemma CreateStores(t: Tables, signature: string, targetId: string, originalUrl: string, token: string, now: int)
    ensures var t2 := CreateChallenge(t, signature, targetId, originalUrl, token, now);
            && token in t2.challenges
            && t2.challenges[token] == ChallengeRecord(signature, targetId, originalUrl, now, now + 300000)
            && Live(t2, token, now)
  {
  }

  /** The outcomes of verification:
      a token that is unknown or expired at the sweep fails as expired;
      a signature mismatch fails and leaves the challenge in place;
      a challenge that expired between the sweep and the check fails as expired and is deleted;
      a missing human confirmation fails and leaves the challenge in place;
      otherwise the challenge is consumed and its URL and target are returned. */
  lemma VerifyOutcomes(t: Tables, token: string, signature: string, human: bool, sweptAt: int, now: int)
    ensures var (t2, r) := VerifyChallenge(t, token, signature, human, sweptAt, now);
            && (!Live(t, token, sweptAt) ==> r == Failed(ExpiredReason) && token !in t2.challenges)
            && (Live(t, token, sweptAt) && t.challenges[token].signature != signature
                ==> r == Failed(MismatchReason) && t2.challenges[token] == t.challenges[token])
            && (Live(t, token, sweptAt) && t.challenges[token].signature == signature && !Live(t, token, now)
                ==> r == Failed(ExpiredReason) && token !in t2.challenges)
            && (Live(t, token, sweptAt) && t.challenges[token].signature == signature && Live(t, token, now) && !human
                ==> r == Failed(NotHumanReason) && t2.challenges[token] == t.challenges[token])
            && (r.Passed? <==> Live(t, token, sweptAt) && Live(t, token, now)
                               && t.challenges[token].signature == signature && human)
            && (r.Passed? ==> r == Passed(t.challenges[token].originalUrl, t.challenges[token].targetId)
                              && token !in t2.challenges)
  {
    CleanedLive(t, sweptAt);
  }

  /** With a single clock reading, a challenge is never found expired after the sweep: the
      sweep has already deleted it. */
  lemma SingleInstantNoLateExpiry(t: Tables, token: string, signature: string, human: bool, now: int)
    ensures VerifyChallenge(t, token, signature, human, now, now).1 == Failed(ExpiredReason)
            ==> !Live(t, token, now)
  {
    CleanedLive(t, now);
  }

  /** A passed challenge cannot be passed again: the second attempt fails as expired. */
  lemma VerifyOnce(t: Tables, token: string, signature: string, human: bool, sweptAt: int, now: int,
                   sweptAt2: int, now2: int)
    requires VerifyChallenge(t, token, signature, human, sweptAt, now).1.Passed?
    ensures VerifyChallenge(VerifyChallenge(t, token, signature, human, sweptAt, now).0, token, signature, human,
                            sweptAt2, now2).1 == Failed(ExpiredReason)
  {
    VerifyOutcomes(t, token, signature, human, sweptAt, now);
    var t2 := VerifyChallenge(t, token, signature, human, sweptAt, now).0;
    CleanedLive(t2, sweptAt2);
  }

  /** The three module-level maps. */
  class ChallengeStore {
    var challenges: map<string, ChallengeRecord>
    var verifiedSignatures: map<string, int>
    var failureCounts: map<string, FailureRecord>

    function State(): Tables
      reads this
    {
      Tables(challenges, verifiedSignatures, failureCounts)
    }

    constructor ()
      ensures State() == Tables(map[], map[], map[])
    {
      challenges := map[];
      verifiedSignatures := map[];
      failureCounts := map[];
    }

    /** `cleanupExpired()` at `now`: three sweeps that delete the expired entries. */
    method CleanupExpired(now: int)
      modifies this
      ensures State() == Cleaned(old(State()), now)
    {
      challenges := RemoveWhere(challenges, ChallengeDead(now));
      verifiedSignatures := RemoveWhere(verifiedSignatures, VerifiedDead(now));
      failureCounts := RemoveWhere(failureCounts, FailureDead(now));
    }

    /** `isVerified(signature)` at `now`. */
    method IsVerifiedAt(signature: string, now: int) returns (b: bool)
      modifies this
      ensures State() == Cleaned(old(State()), now)
      ensures b == IsVerified(old(State()), signature, now)
    {
      CleanupExpired(now);
      b := signature in verifiedSignatures && verifiedSignatures[signature] > now;
    }

    /** `markVerified(signature, ttlMs)` at `now`. */
    method MarkVerifiedAt(signature: string, ttl: int, now: int)
      modifies this
      ensures State() == MarkVerified(old(State()), signature, ttl, now)
    {
      verifiedSignatures := verifiedSignatures[signature := now + ttl];
    }

    /** `getFailureCount(signature)` at `now`. */
    method GetFailureCount(signature: string, now: int) returns (n: nat)
      modifies this
      ensures State() == Cleaned(old(State()), now)
      ensures n == FailureCount(old(State()), signature, now)
    {
      CleanupExpired(now);
      n := if signature in failureCounts then failureCounts[signature].count else 0;
    }

    /** `recordFailure(signature)` at `now`. */
    method RecordFailureAt(signature: string, now: int) returns (n: nat)
      modifies this
      ensures (State(), n) == RecordFailure(old(State()), signature, now)
    {
      CleanupExpired(now);
      var record := if signature in failureCounts then failureCounts[signature] else FailureRecord(0, now);
      record := FailureRecord(record.count + 1, now);
      failureCounts := failureCounts[signature := record];
      n := record.count;
    }

    /** `clearFailures(signature)`. */
    method ClearFailuresOf(signature: string)
      modifies this
      ensures State() == ClearFailures(old(State()), signature)
    {
      failureCounts := failureCounts - {signature};
    }

    /** `createChallenge(signature, targetId, originalUrl)` at `now`; `token` stands for the
        random hex string. */
    method CreateChallengeAt(signature: string, targetId: string, originalUrl: string, token: string, now: int)
      returns (issued: string)
      modifies this
      ensures State() == CreateChallenge(old(State()), signature, targetId, originalUrl, token, now)
      ensures issued == token
    {
      CleanupExpired(now);
      challenges := challenges[token := ChallengeRecord(signature, targetId, originalUrl, now, now + ChallengeTtlMs)];
      issued := token;
    }

    /** `verifyChallenge({token, signature, human})`, sweeping at `sweptAt` and checking the
        expiry at `now`. */
    method VerifyChallengeAt(token: string, signature: string, human: bool, sweptAt: int, now: int)
      returns (r: VerifyOutcome)
      modifies this
      ensures (State(), r) == VerifyChallenge(old(State()), token, signature, human, sweptAt, now)
    {
      CleanupExpired(sweptAt);
      if token !in challenges {
        return Failed(ExpiredReason);
      }
      var record := challenges[token];
      if record.signature != signature {
        return Failed(MismatchReason);
      }
      if record.expiresAt <= now {
        challenges := challenges - {token};
        return Failed(ExpiredReason);
      }
      if !human {
        return Failed(NotHumanReason);
      }
      challenges := challenges - {token};
      r := Passed(record.originalUrl, record.targetId);
    }
  }
}
