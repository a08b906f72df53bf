/** Environment-value normalisation (backend/config/default.js). */
module Config {
  import opened Common
  import opened JsStrings

  /** `s.slice(1, -1)`: the string without its first and last character; empty when shorter
      than two. */
  function Inner(s: string): (r: string)
  {
    if |s| < 2 then "" else s[1..|s| - 1]
  }

  predicate QuotedWith(s: string, q: char)
  {
    StartsWith(s, [q]) && EndsWith(s, [q])
  }

  /** Whether a trimmed value is wrapped in a matching pair of double or single quotes (a lone
      quote character counts: it both starts and ends the string). */
  predicate Quoted(s: string)
  {
    QuotedWith(s, '"') || QuotedWith(s, '\'')
  }

  /** `normalizeEnvValue(value)`; `None` stands for any value that is not a string. */
  function NormalizeEnvValue(value: Option<string>): (r: string)
  {
    if value.None? then ""
    else
      var normalized := Trim(value.value);
      if Quoted(normalized) then Trim(Inner(normalized)) else normalized
  }

  /** A value that is not a string gives ""; the result never starts or ends with whitespace;
      one matching pair of quotes around the trimmed value is removed, and a value whose
      trimmed form is not so wrapped is only trimmed. */
  lemma NormalizeEnvCases(value: Option<string>)
    ensures var r := NormalizeEnvValue(value);
            && (value.None? ==> r == "")
            && (r == [] || (!IsSpace(r[0]) && !IsSpace(r[|r| - 1])))
            && (value.Some? && Quoted(Trim(value.value)) ==> r == Trim(Inner(Trim(value.value))))
            && (value.Some? && !Quoted(Trim(value.value)) ==> r == Trim(value.value))
  {
    if value.Some? {
      var normalized := Trim(value.value);
      TrimEnds(value.value);
      TrimEnds(Inner(normalized));
    }
  }

  /** A quoted value loses exactly one character at each end before the inner trim; a value
      that is a single quote character becomes "". */
  lemma QuotesStripped(s: string)
    requires s == [] || (!IsSpace(s[0]) && !IsSpace(s[|s| - 1]))
    ensures Quoted(s) && |s| >= 2 ==> NormalizeEnvValue(Some(s)) == Trim(s[1..|s| - 1])
    ensures s == "\"" || s == "'" ==> NormalizeEnvValue(Some(s)) == ""
    ensures !Quoted(s) ==> NormalizeEnvValue(Some(s)) == s
  {
    TrimOfTrimmed(s);
    if s == "\"" || s == "'" {
      assert Quoted(s);
      assert Inner(s) == "";
    }
  }

  /** Only one layer of quotes is removed: `"'x'"` normalises to `'x'`, quotes still on. */
  lemma OneLayerOnly()
    ensures NormalizeEnvValue(Some("\"'x'\"")) == "'x'"
  {
    var s := "\"'x'\"";
    TrimOfTrimmed(s);
    assert Quoted(s);
    assert Inner(s) == "'x'";
    TrimOfTrimmed("'x'");
  }

  /** `normalizeTelegramToken(value)`: a leading "bot" in any letter case is dropped. */
  function NormalizeTelegramToken(value: Option<string>): (r: string)
  {
    var token := NormalizeEnvValue(value);
    if StartsWith(ToLower(token), "bot") then Trim(token[3..]) else token
  }

  /** A token whose normalised value starts with "bot", "Bot", "BOT" and so on loses those
      three characters and is trimmed again; any other token is its normalised value. */
  lemma TelegramTokenCases(value: Option<string>)
    ensures var token := NormalizeEnvValue(value);
            var r := NormalizeTelegramToken(value);
            && (StartsWith(ToLower(token), "bot") <==>
                  |token| >= 3 && LowerChar(token[0]) == 'b' && LowerChar(token[1]) == 'o' && LowerChar(token[2]) == 't')
            && (StartsWith(ToLower(token), "bot") ==> r == Trim(token[3..]))
            && (!StartsWith(ToLower(token), "bot") ==> r == token)
            && (r == [] || (!IsSpace(r[0]) && !IsSpace(r[|r| - 1])))
  {
    var token := NormalizeEnvValue(value);
    NormalizeEnvCases(value);
    if |token| >= 3 {
      assert ToLower(token)[..3] == [LowerChar(token[0]), LowerChar(token[1]), LowerChar(token[2])];
      TrimEnds(token[3..]);
    }
  }

  /** The `telegram` block of the configuration. */
  datatype TelegramConfig = TelegramConfig(enabled: bool, botToken: string, chatId: string, cooldownMs: int)

  const DefaultCooldownMs: int := 60000

  /** The `telegram` block built from `TELEGRAM_ENABLED`, `TELEGRAM_BOT_TOKEN`,
      `TELEGRAM_CHAT_ID`, and the numeric values of `TELEGRAM_COOLDOWN_MS` and
      `TELEGRAM_ALERT_COOLDOWN_MS` (`None` when unset or empty). The fallback is taken on the
      strings, so a setting of "0" is kept. */
  function TelegramConfigOf(enabledEnv: Option<string>, tokenEnv: Option<string>, chatEnv: Option<string>,
                            cooldownEnv: Option<int>, alertCooldownEnv: Option<int>): (r: TelegramConfig)
  {
    TelegramConfig(
      enabledEnv != Some("false"),
      NormalizeTelegramToken(Some(OrString(tokenEnv, ""))),
      NormalizeEnvValue(Some(OrString(chatEnv, ""))),
      if cooldownEnv.Some? then cooldownEnv.value
      else if alertCooldownEnv.Some? then alertCooldownEnv.value
      else DefaultCooldownMs)
  }

  /** Alerts are on unless `TELEGRAM_ENABLED` is exactly "false"; the cooldown falls back from
      the first setting to the second to 60000 ms, and a first setting of 0 is kept; a token
      that is only "bot" in any case normalises to "". */
  lemma TelegramConfigDefaults(enabledEnv: Option<string>, tokenEnv: Option<string>, chatEnv: Option<string>,
                               cooldownEnv: Option<int>, alertCooldownEnv: Option<int>)
    ensures var r := TelegramConfigOf(enabledEnv, tokenEnv, chatEnv, cooldownEnv, alertCooldownEnv);
            && (r.enabled <==> enabledEnv != Some("false"))
            && (tokenEnv.None? ==> r.botToken == "")
            && (cooldownEnv.None? && alertCooldownEnv.None? ==> r.cooldownMs == DefaultCooldownMs)
            && (cooldownEnv.Some? ==> r.cooldownMs == cooldownEnv.value)
            && (cooldownEnv.None? && alertCooldownEnv.Some? ==> r.cooldownMs == alertCooldownEnv.value)
    ensures NormalizeTelegramToken(Some("BoT")) == ""
  {
    if tokenEnv.None? {
      TrimOfTrimmed("");
    }
    TrimOfTrimmed("BoT");
    assert !Quoted("BoT");
    assert ToLower("BoT") == "bot";
    assert "BoT"[3..] == "";
    TrimOfTrimmed("");
  }
}
