/** The global attack-mode flag (backend/src/security/attackMode.js): switched on by a traffic
    signal or by repeated blocks, and off again five minutes after the last signal. */
module AttackModes {
  import opened Types

  const AttackTtlMs: int := 5 * 60 * 1000
  const DecayIntervalMs: int := 3000
  const BlocksToActivate: nat := 5

  /** The fields of the `STATE` singleton. */
  datatype ModeState = ModeState(active: bool, lastUpdated: int, lastAttackAt: int, recentBlocks: nat)

  const InitialMode := ModeState(false, 0, 0, 0)

  /** An update's traffic signal: a spike in rate or anomaly, or bot-like traffic. */
  predicate Signal(anomaly: int, rps: real, c: TrafficClass)
  {
    (rps >= 25.0 || anomaly >= 70) || (IsBotLike(c) && anomaly >= 55)
  }

  /** The block counter after the block/decay step of an update. */
  function CountedBlocks(s: ModeState, blocked: bool, now: int): nat
  {
    if blocked then s.recentBlocks + 1
    else if s.recentBlocks > 0 && now - s.lastUpdated > DecayIntervalMs then s.recentBlocks - 1
    else s.recentBlocks
  }

  /** Whether the time-to-live of an active mode has run out at `now`. */
  predicate Expired(s: ModeState, now: int)
  {
    s.active && now - s.lastAttackAt > AttackTtlMs
  }

  /** The state after `updateAttackMode({anomalyScore, rps, trafficClass, blocked})` at `now`. */
  function Step(s: ModeState, anomaly: int, rps: real, c: TrafficClass, blocked: bool, now: int): ModeState
  {
    var blocks := CountedBlocks(s, blocked, now);
    if Signal(anomaly, rps, c) || blocks >= BlocksToActivate then
      ModeState(true, now, now, blocks)
    else if Expired(s, now) then
      ModeState(false, now, s.lastAttackAt, 0)
    else
      ModeState(s.active, now, s.lastAttackAt, blocks)
  }

  /** The state after `getAttackMode()` at `now`. */
  function Expire(s: ModeState, now: int): ModeState
  {
    if Expired(s, now) then s.(active := false, recentBlocks := 0) else s
  }

  /** A block adds one to the counter; otherwise the counter drops by one, never below 0,
      only when more than 3000 ms passed since the last update. */
  lemma CountedBlocksCases(s: ModeState, blocked: bool, now: int)
    ensures blocked ==> CountedBlocks(s, blocked, now) == s.recentBlocks + 1
    ensures !blocked ==> CountedBlocks(s, blocked, now) <= s.recentBlocks
    ensures !blocked && CountedBlocks(s, blocked, now) < s.recentBlocks
            ==> now - s.lastUpdated > DecayIntervalMs && CountedBlocks(s, blocked, now) == s.recentBlocks - 1
  {
  }

  /** The mode after an update is on exactly when there is a signal, the counted blocks
      reach 5, or the mode was on and its time-to-live has not run out. */
  lemma StepActive(s: ModeState, anomaly: int, rps: real, c: TrafficClass, blocked: bool, now: int)
    ensures var r := Step(s, anomaly, rps, c, blocked, now);
            r.active <==> Signal(anomaly, rps, c) || CountedBlocks(s, blocked, now) >= BlocksToActivate
                          || (s.active && now - s.lastAttackAt <= AttackTtlMs)
  {
  }

  /** A signal or five counted blocks turn the mode on and restart its time-to-live. */
  lemma StepActivates(s: ModeState, anomaly: int, rps: real, c: TrafficClass, blocked: bool, now: int)
    requires Signal(anomaly, rps, c) || CountedBlocks(s, blocked, now) >= BlocksToActivate
    ensures var r := Step(s, anomaly, rps, c, blocked, now);
            r.active && r.lastAttackAt == now && r.recentBlocks == CountedBlocks(s, blocked, now)
  {
  }

  /** Without a signal, a mode whose time-to-live ran out turns off and forgets its blocks;
      otherwise the flag and the attack instant are kept. */
  lemma StepWithoutSignal(s: ModeState, anomaly: int, rps: real, c: TrafficClass, blocked: bool, now: int)
    requires !Signal(anomaly, rps, c) && CountedBlocks(s, blocked, now) < BlocksToActivate
    ensures var r := Step(s, anomaly, rps, c, blocked, now);
            && r.lastAttackAt == s.lastAttackAt
            && (Expired(s, now) ==> !r.active && r.recentBlocks == 0)
            && (!Expired(s, now) ==> r.active == s.active && r.recentBlocks == CountedBlocks(s, blocked, now))
  {
  }

  /** Every update stamps `lastUpdated` with `now`. */
  lemma StepStamps(s: ModeState, anomaly: int, rps: real, c: TrafficClass, blocked: bool, now: int)
    ensures Step(s, anomaly, rps, c, blocked, now).lastUpdated == now
  {
  }

  /** `getAttackMode` can turn the mode off but never on, leaves `lastUpdated` and the attack
      instant alone, and a second call at the same instant changes nothing more. */
  lemma ExpireOnlyTurnsOff(s: ModeState, now: int)
    ensures var r := Expire(s, now);
            && (r.active ==> s.active)
            && (r.active <==> s.active && now - s.lastAttackAt <= AttackTtlMs)
            && r.lastUpdated == s.lastUpdated && r.lastAttackAt == s.lastAttackAt
            && Expire(r, now) == r
  {
  }

  /** Four blocks in a row from a fresh state, each more than 3000 ms apart, leave the mode
      off; a fifth turns it on. */
  lemma FiveBlocksActivate()
    ensures var s4 := Step(Step(Step(Step(InitialMode, 0, 0.0, Legit, true, 10000), 0, 0.0, Legit, true, 20000),
                                0, 0.0, Legit, true, 30000), 0, 0.0, Legit, true, 40000);
            && !s4.active && s4.recentBlocks == 4
            && Step(s4, 0, 0.0, Legit, true, 50000).active
  {
  }

  /** The `STATE` singleton. */
  class AttackMode {
    var active: bool
    var lastUpdated: int
    var lastAttackAt: int
    var recentBlocks: nat

    function State(): ModeState
      reads this
    {
      ModeState(active, lastUpdated, lastAttackAt, recentBlocks)
    }

    constructor ()
      ensures State() == InitialMode
    {
      active := false;
      lastUpdated := 0;
      lastAttackAt := 0;
      recentBlocks := 0;
    }

    /** `updateAttackMode({anomalyScore, rps, trafficClass, blocked})` at `now`. */
    method UpdateAttackMode(anomaly: int, rps: real, c: TrafficClass, blocked: bool, now: int) returns (on: bool)
      modifies this
      ensures State() == Step(old(State()), anomaly, rps, c, blocked, now)
      ensures on == active
    {
      var spike := rps >= 25.0 || anomaly >= 70;
      var botLike := IsBotLike(c) && anomaly >= 55;
      if blocked {
        recentBlocks := recentBlocks + 1;
      } else if recentBlocks > 0 && now - lastUpdated > DecayIntervalMs {
        recentBlocks := recentBlocks - 1;
      }
      if spike || botLike || recentBlocks >= BlocksToActivate {
        active := true;
        lastAttackAt := now;
      } else if active && now - lastAttackAt > AttackTtlMs {
        active := false;
        recentBlocks := 0;
      }
      lastUpdated := now;
      on := active;
    }

    /** `getAttackMode()` at `now`. */
    method GetAttackMode(now: int) returns (on: bool)
      modifies this
      ensures State() == Expire(old(State()), now)
      ensures on == active
    {
      if active && now - lastAttackAt > AttackTtlMs {
        active := false;
        recentBlocks := 0;
      }
      on := active;
    }
  }
}
