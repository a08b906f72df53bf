/** Secure path tokens (backend/src/security/secureGateway.js): reusable until they expire. */
module SecureGateway {
  import opened Common
  import opened MapFolds

  const TokenTtlMs: int := 8 * 60 * 1000

  datatype TokenRecord = TokenRecord(signature: string, targetId: string, expiresAt: int)

  function TokenDead(now: int): (string, TokenRecord) -> bool
  {
    (k: string, v: TokenRecord) => v.expiresAt <= now
  }

  /** The token table after `cleanupExpired()` at `now`. */
  function Swept(tokens: map<string, TokenRecord>, now: int): (r: map<string, TokenRecord>)
  {
    Keep(tokens, TokenDead(now))
  }

  /** The sweep removes exactly the tokens with `expiresAt <= now` and keeps the others as
      they were. */
  lemma SweptExactly(tokens: map<string, TokenRecord>, now: int)
    ensures forall k :: k in Swept(tokens, now) <==> k in tokens && tokens[k].expiresAt > now
    ensures forall k :: k in Swept(tokens, now) ==> Swept(tokens, now)[k] == tokens[k]
  {
  }

  /** `createSecureToken({signature, targetId})` at `now`; `token` stands for the random hex
      string. */
  function Create(tokens: map<string, TokenRecord>, signature: string, targetId: string, token: string, now: int)
    : map<string, TokenRecord>
  {
    Swept(tokens, now)[token := TokenRecord(signature, targetId, now + TokenTtlMs)]
  }

  /** `verifySecureToken({token, signature})`: the sweep reads the clock at `sweptAt`, the
      expiry check at `now`. The new table and the target id on success. */
  function Verify(tokens: map<string, TokenRecord>, token: string, signature: string, sweptAt: int, now: int)
    : (map<string, TokenRecord>, Option<string>)
  {
    var swept := Swept(tokens, sweptAt);
    if token !in swept then (swept, None)
    else
      var record := swept[token];
      if record.expiresAt <= now then (swept - {token}, None)
      else if record.signature != signature then (swept, None)
      else (swept, Some(record.targetId))
  }

  /** A new token carries the caller's signature and target and lives eight minutes. */
  lemma CreateStores(tokens: map<string, TokenRecord>, signature: string, targetId: string, token: string, now: int)
    ensures var r := Create(tokens, signature, targetId, token, now);
            token in r && r[token] == TokenRecord(signature, targetId, now + 480000)
  {
  }

  /** The outcomes of verification:
      an unknown token (or one expired at the sweep) fails;
      a token expired at the check fails and is deleted;
      a wrong signature fails and keeps the token;
      otherwise the stored target is returned and the token is kept. */
  lemma VerifyOutcomes(tokens: map<string, TokenRecord>, token: string, signature: string, sweptAt: int, now: int)
    ensures var (r, ok) := Verify(tokens, token, signature, sweptAt, now);
            && (token !in tokens || tokens[token].expiresAt <= sweptAt ==> ok.None? && token !in r)
            && ((token in tokens && tokens[token].expiresAt > sweptAt && tokens[token].expiresAt <= now)
                ==> ok.None? && token !in r)
            && ((token in tokens && tokens[token].expiresAt > sweptAt && tokens[token].expiresAt > now
                 && tokens[token].signature != signature)
                ==> ok.None? && token in r && r[token] == tokens[token])
            && (ok.Some? <==> token in tokens && tokens[token].expiresAt > sweptAt && tokens[token].expiresAt > now
                              && tokens[token].signature == signature)
            && (ok.Some? ==> ok.value == tokens[token].targetId && token in r && r[token] == tokens[token])
  {
    SweptExactly(tokens, sweptAt);
  }

  /** A token that passed can be used again, with the same answer, until it expires. */
  lemma Reusable(tokens: map<string, TokenRecord>, token: string, signature: string, sweptAt: int, now: int,
                 sweptAt2: int, now2: int)
    requires Verify(tokens, token, signature, sweptAt, now).1.Some?
    requires tokens[token].expiresAt > sweptAt2 && tokens[token].expiresAt > now2
    ensures Verify(Verify(tokens, token, signature, sweptAt, now).0, token, signature, sweptAt2, now2).1
            == Verify(tokens, token, signature, sweptAt, now).1
  {
    VerifyOutcomes(tokens, token, signature, sweptAt, now);
    var r := Verify(tokens, token, signature, sweptAt, now).0;
    VerifyOutcomes(r, token, signature, sweptAt2, now2);
  }

  /** The `tokens` map. */
  class TokenStore {
    var tokens: map<string, TokenRecord>

    constructor ()
      ensures tokens == map[]
    {
      tokens := map[];
    }

    /** `cleanupExpired()` at `now`. */
    method CleanupExpired(now: int)
      modifies this
      ensures tokens == Swept(old(tokens), now)
    {
      tokens := RemoveWhere(tokens, TokenDead(now));
    }

    /** `createSecureToken({signature, targetId})` at `now` with the random `token`. */
    method CreateSecureToken(signature: string, targetId: string, token: string, now: int) returns (issued: string)
      modifies this
      ensures tokens == Create(old(tokens), signature, targetId, token, now)
      ensures issued == token
    {
      CleanupExpired(now);
      tokens := tokens[token := TokenRecord(signature, targetId, now + TokenTtlMs)];
      issued := token;
    }

    /** `verifySecureToken({token, signature})`, sweeping at `sweptAt` and checking the expiry
        at `now`. */
    method VerifySecureToken(token: string, signature: string, sweptAt: int, now: int) returns (targetId: Option<string>)
      modifies this
      ensures (tokens, targetId) == Verify(old(tokens), token, signature, sweptAt, now)
    {
      CleanupExpired(sweptAt);
      if token !in tokens {
        return None;
      }
      var record := tokens[token];
      if record.expiresAt <= now {
        tokens := tokens - {token};
        return None;
      }
      if record.signature != signature {
        return None;
      }
      targetId := Some(record.targetId);
    }
  }
}
