/** Combat resolution of the clicker game (chinese_game/js/systems/CombatSystem.js):
    the damage roll, and the order in which a tap on the beast drives the store. */
module Combat {
  import Levels
  import opened Store

  const DamagePerFirecracker := 10
  const CritChance: real := 0.15
  const CritMultiplier := 2

  datatype Hit = Hit(damage: int, isCrit: bool)

  /** calculateDamage, with the `Math.random()` sample passed in. */
  function CalculateDamage(sample: real): (h: Hit)
    ensures h.isCrit <==> sample < CritChance
    ensures h.damage == if h.isCrit then 20 else 10
    ensures h.damage > 0
  {
    var baseDamage := DamagePerFirecracker;
    var isCrit := sample < CritChance;
    var damage := if isCrit then (baseDamage as real * CritMultiplier as real).Floor else baseDamage;
    Hit(damage, isCrit)
  }

  /** `n` hits of `damage` each. */
  function DamagedTimes(s: GameState, damage: int, n: nat): GameState {
    if n == 0 then s else Damaged(DamagedTimes(s, damage, n - 1), damage)
  }

  lemma {:induction false} DamagedTimesHP(s: GameState, damage: int, n: nat)
    requires damage >= 0 && s.beastHP >= 0
    ensures DamagedTimes(s, damage, n).beastHP == Max(0, s.beastHP - n * damage)
    ensures DamagedTimes(s, damage, n).(beastHP := s.beastHP) == s
  {
    if n > 0 {
      DamagedTimesHP(s, damage, n - 1);
      assert (n - 1) * damage + damage == n * damage;
    }
  }

  /** A beast at full health on its level falls after n hits of `damage` exactly when
      n reaches the level's getFirecrackersNeeded. */
  lemma DefeatNeedsFirecrackersNeeded(s: GameState, damage: int, n: nat)
    requires damage > 0 && s.level >= 1 && s.beastHP == Levels.LevelHP(s.level)
    ensures DamagedTimes(s, damage, n).beastHP == 0 <==> n >= Levels.FirecrackersNeeded(s.level, damage)
  {
    DamagedTimesHP(s, damage, n);
    var need := Levels.FirecrackersNeeded(s.level, damage);
    if n >= need {
      Levels.MulMonotone(need, n, damage);
    }
  }

  class CombatSystem {
    const store: GameStore
    /** Level-ups scheduled by onBeastDefeated and not yet run (its 2-second timeout). */
    var pendingLevelUps: nat
    /** The damage numbers shown, one per applied hit. */
    var damageNumbers: seq<Hit>

    constructor (store: GameStore)
      ensures this.store == store && pendingLevelUps == 0 && damageNumbers == []
    {
      this.store := store;
      pendingLevelUps := 0;
      damageNumbers := [];
    }

    /** onBeastTapped, with the critical-hit sample passed in: consume one firecracker;
        if that fails nothing else happens; otherwise apply one hit and, when the store
        reports a defeat, schedule a level-up. */
    method OnBeastTapped(sample: real) returns (hit: Hit, defeated: bool)
      modifies this`pendingLevelUps, this`damageNumbers, store`state, store`storage, store`deliveries
      ensures old(store.state).firecrackers < 1 ==>
                store.state == old(store.state) && store.storage == old(store.storage) &&
                store.deliveries == old(store.deliveries) && !defeated &&
                pendingLevelUps == old(pendingLevelUps) && damageNumbers == old(damageNumbers)
      ensures old(store.state).firecrackers >= 1 ==>
                hit == CalculateDamage(sample) &&
                store.state == Damaged(Consumed(old(store.state), 1), hit.damage) &&
                (defeated <==> store.state.beastHP == 0) &&
                damageNumbers == old(damageNumbers) + [hit] &&
                pendingLevelUps == old(pendingLevelUps) + (if defeated then 1 else 0)
      ensures old(store.state).firecrackers >= 1 ==>
                var consumed := Consumed(old(store.state), 1);
                store.storage == Parsed(Snapshot(store.state)) &&
                store.deliveries ==
                  old(store.deliveries)
                  + (if Progresses(old(store.state).tasks, ClickTaskId)
                     then Broadcast(store.listeners, consumed) + Broadcast(store.listeners, consumed)
                     else Broadcast(store.listeners, consumed))
                  + Broadcast(store.listeners, store.state)
      ensures store.state.level == old(store.state).level
    {
      hit, defeated := Hit(0, false), false;
      ghost var s0, before := store.state, store.deliveries;
      var consumed := store.ConsumeFirecracker(1);
      if !consumed {
        return;
      }
      ghost var once := Broadcast(store.listeners, store.state);
      ghost var notified := if Progresses(s0.tasks, ClickTaskId) then once + once else once;
      assert store.deliveries == before + notified;
      hit := CalculateDamage(sample);
      defeated := store.DamageYearBeast(hit.damage);
      assert store.deliveries == before + notified + Broadcast(store.listeners, store.state);
      damageNumbers := damageNumbers + [hit];
      if defeated {
        OnBeastDefeated();
      }
    }

    method OnBeastDefeated()
      modifies this`pendingLevelUps
      ensures pendingLevelUps == old(pendingLevelUps) + 1
    {
      pendingLevelUps := pendingLevelUps + 1;
    }

    /** The timeout set by onBeastDefeated fires: advance the store one level. */
    method LevelUpTimeout()
      requires pendingLevelUps > 0
      modifies this`pendingLevelUps, store`state, store`storage, store`deliveries
      ensures pendingLevelUps == old(pendingLevelUps) - 1
      ensures store.state == Leveled(old(store.state))
      ensures store.storage == Parsed(Snapshot(store.state))
      ensures store.deliveries == old(store.deliveries) + Broadcast(store.listeners, store.state)
    {
      store.NextLevel();
      pendingLevelUps := pendingLevelUps - 1;
    }
  }

  /** A tap on a beast already at 0 HP (during the defeat delay, when the beast can still
      be tapped) reports another defeat, so it schedules another level-up. */
  lemma TapAtZeroHPDefeatsAgain(s: GameState, sample: real)
    requires s.beastHP == 0
    ensures Damaged(Consumed(s, 1), CalculateDamage(sample).damage).beastHP == 0
  {
  }
}
