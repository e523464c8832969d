/**
 * Passive skills applied around each combat step: heals and mana on
 * attack, Life Tap, start-of-turn regeneration and Dark Pact, incoming
 * damage reduction, Mana Shield, dodging, last-chance survival and Cursed
 * Blood. Each takes the state and returns the new state; the `log.push`
 * calls become a returned log. `cls` is the class's passive name, and each
 * `Math.random()` a roll in [0, 1) supplied by the caller.
 */
module Passives {
  import opened Common
  import opened GameTypes
  import opened Combat

  /** `Math.floor(x * pct / 100)`, which is never negative for a non-negative x. */
  function Pct(x: int, pct: nat): (r: int)
    ensures x >= 0 ==> r >= 0
    ensures x >= 0 && pct <= 100 ==> r <= x
  {
    var r := FloorFrac(x, pct, 100);
    assert x >= 0 ==> r >= 0 by {
      if x >= 0 { MulCancel(-1, r, 100); }
    }
    assert x >= 0 && pct <= 100 ==> r <= x by {
      if x >= 0 && pct <= 100 { FloorFracBounds(x, pct, 100); }
    }
    r
  }

  datatype AttackState = AttackState(player: Fighter, monster: Monster, battle: Battle, log: seq<LogEntry>)

  /**
   * One healing passive that fires: `if (heal > 0 && p.hp < cap)` the player
   * heals up to `cap` and the heal is logged.
   */
  function HealStep(s: AttackState, fires: bool, heal: int, cap: int, source: string): (r: AttackState)
    ensures r.monster == s.monster && r.battle == s.battle
    ensures r.player == s.player.(hp := r.player.hp)
    ensures s.player.hp <= r.player.hp <= Max(s.player.hp, cap)
    ensures |r.log| >= |s.log| && r.log[..|s.log|] == s.log
  {
    if fires && heal > 0 && s.player.hp < cap then
      s.(player := s.player.(hp := Min(cap, s.player.hp + heal)), log := s.log + [LogEntry(source, "heal")])
    else s
  }

  /** One mana passive that fires: `p.mana = Math.min(cap, p.mana + gain)`, logged when `logged`. */
  function ManaStep(s: AttackState, fires: bool, gain: int, cap: int, logged: bool, source: string): (r: AttackState)
    ensures r.monster == s.monster && r.battle == s.battle
    ensures r.player == s.player.(mana := r.player.mana)
    ensures r.player.mana <= Max(s.player.mana, cap)
    ensures fires ==> r.player.mana <= cap
    ensures |r.log| >= |s.log| && r.log[..|s.log|] == s.log
  {
    if fires then
      s.(player := s.player.(mana := Min(cap, s.player.mana + gain)),
         log := if logged then s.log + [LogEntry(source, "heal")] else s.log)
    else s
  }

  /** Bloodlust's heal: 20 % of the damage, x1.5 with Eternal Hunger, then x2 with Lich Form. */
  function BloodlustHeal(player: Fighter, dmg: int): (h: int)
    ensures dmg >= 0 ==> h >= 0
  {
    var h0 := Pct(dmg, 20);
    var h1 := if HasSkill(player, "nec_t9a") then FloorFrac(h0, 3, 2) else h0;
    assert dmg >= 0 ==> h1 >= 0 by {
      if dmg >= 0 && HasSkill(player, "nec_t9a") { MulCancel(-1, h1, 2); }
    }
    if HasSkill(player, "nec_t10a") then h1 * 2 else h1
  }

  /**
   * Necrotic Touch and Opportunist, the two passives that weaken the
   * monster, then the clearing of Spellweaver that ends every attack.
   */
  function MonsterStep(s: AttackState, player: Fighter, dmg: int): (r: AttackState)
    ensures r.player == s.player && |r.log| >= |s.log| && r.log[..|s.log|] == s.log
    ensures r.monster == s.monster.(def := r.monster.def, hp := r.monster.hp)
    ensures r.monster.def == (if HasSkill(player, "nec_t5a") && s.monster.def > 0 then s.monster.def - 1 else s.monster.def)
    ensures dmg >= 0 ==> r.monster.hp <= Max(s.monster.hp, 0)
    ensures s.monster.hp >= 0 ==> r.monster.hp >= 0
    ensures !r.battle.spellweaverActive
  {
    var touch := HasSkill(player, "nec_t5a") && s.monster.def > 0;
    var m1 := if touch then s.monster.(def := Max(0, s.monster.def - 1)) else s.monster;
    var b1 := if touch then s.battle.(monster := m1) else s.battle;
    var bonus := Pct(dmg, 15);
    var opp := HasSkill(player, "thf_t6a") && b1.monsterPoisonTurns > 0;
    var m2 := if opp then m1.(hp := Max(0, m1.hp - bonus)) else m1;
    var b2 := if opp then b1.(monster := m2) else b1;
    var log := if opp && bonus > 0 then s.log + [LogEntry("Opportunist", "dmg-monster")] else s.log;
    AttackState(s.player, m2, b2.(spellweaverActive := false), log)
  }

  /** Lifetap, Vampiric Aura and Soul Siphon, which test the skill tree of `player`. */
  function EarlySteps(s0: AttackState, player: Fighter, dmg: int, cls: Option<string>, siphonRoll: real): (r: AttackState)
    ensures r.monster == s0.monster && r.battle == s0.battle
    ensures r.player == s0.player.(hp := r.player.hp, mana := r.player.mana)
    ensures s0.player.hp <= r.player.hp <= Max(s0.player.hp, BattleMaxHp(player))
    ensures r.player.mana <= Max(s0.player.mana, BattleMaxMana(player))
    ensures |r.log| >= |s0.log| && r.log[..|s0.log|] == s0.log
  {
    var bmh := BattleMaxHp(player);
    var s1 := HealStep(s0, cls == Some("Lifetap"), Pct(dmg, 15), bmh, "Lifetap");
    var s2 := HealStep(s1, HasSkill(player, "nec_t3a"), Pct(dmg, 10), bmh, "Vampiric Aura");
    ManaStep(s2, HasSkill(player, "nec_t1a") && siphonRoll < 0.25, 5, BattleMaxMana(player), true, "Soul Siphon")
  }

  /** Bloodlust and Adrenaline Rush, which test the skill tree of `player`. */
  function LateSteps(s0: AttackState, player: Fighter, dmg: int): (r: AttackState)
    ensures r.monster == s0.monster && r.battle == s0.battle
    ensures r.player == s0.player.(hp := r.player.hp, mana := r.player.mana)
    ensures s0.player.hp <= r.player.hp <= Max(s0.player.hp, BattleMaxHp(player))
    ensures r.player.mana <= Max(s0.player.mana, BattleMaxMana(player))
    ensures |r.log| >= |s0.log| && r.log[..|s0.log|] == s0.log
  {
    var bmh := BattleMaxHp(player);
    var lust := HasSkill(player, "brs_t3a") && Below(s0.player.hp, bmh, 3, 10);
    var s4 := HealStep(s0, lust, BloodlustHeal(player, dmg), bmh, "Bloodlust");
    ManaStep(s4, HasSkill(player, "brs_t6a"), 3, BattleMaxMana(player), false, "Adrenaline Rush")
  }

  /**
   * `applyAttackPassives({ player, monster, battle, log, dmg, cls })`, with
   * `siphonRoll` the roll of Soul Siphon's 25 % chance. Every passive tests
   * the skill tree of `player`, which the hp and mana changes leave alone.
   * Only hp and mana of the player change: heals never lift hp past the battle's max hp, mana
   * never past the battle's max mana. Necrotic Touch takes 1 defence off a
   * monster with some; Opportunist never raises the monster's hp nor drops
   * it below 0; Spellweaver is always cleared.
   */
  function ApplyAttackPassives(player: Fighter, monster: Monster, battle: Battle, log: seq<LogEntry>,
                               dmg: int, cls: Option<string>, siphonRoll: real): (r: AttackState)
    ensures r.player == player.(hp := r.player.hp, mana := r.player.mana)
    ensures player.hp <= r.player.hp <= Max(player.hp, BattleMaxHp(player))
    ensures r.player.mana <= Max(player.mana, BattleMaxMana(player))
    ensures r.monster == monster.(def := r.monster.def, hp := r.monster.hp)
    ensures r.monster.def == (if HasSkill(player, "nec_t5a") && monster.def > 0 then monster.def - 1 else monster.def)
    ensures dmg >= 0 ==> r.monster.hp <= Max(monster.hp, 0)
    ensures monster.hp >= 0 ==> r.monster.hp >= 0
    ensures !r.battle.spellweaverActive
    ensures |r.log| >= |log| && r.log[..|log|] == log
  {
    var s3 := EarlySteps(AttackState(player, monster, battle, log), player, dmg, cls, siphonRoll);
    var s5 := LateSteps(s3, player, dmg);
    MonsterStep(s5, player, dmg)
  }

  // ---------------------------------------------------------------------------
  // applyLifeTap

  /**
   * `applyLifeTap(player, manaCost)`: with Life Tap, spending mana heals half
   * of it, up to the battle's max hp; without the skill or for a free skill
   * the player is unchanged.
   */
  function ApplyLifeTap(player: Fighter, manaCost: int): (r: Fighter)
    ensures !HasSkill(player, "nec_t6a") || manaCost <= 0 ==> r == player
    ensures HasSkill(player, "nec_t6a") && manaCost > 0 ==>
      r == player.(hp := r.hp) && r.hp <= BattleMaxHp(player) &&
      (player.hp <= BattleMaxHp(player) ==> r.hp >= player.hp)
  {
    if !HasSkill(player, "nec_t6a") || manaCost <= 0 then player
    else player.(hp := Min(BattleMaxHp(player), player.hp + Pct(manaCost, 50)))
  }

  // ---------------------------------------------------------------------------
  // applyTurnStartPassives

  datatype TurnState = TurnState(player: Fighter, log: seq<LogEntry>)

  /** Regeneration: below the battle's max hp, heal 3 % of it, up to it. */
  function RegenStep(s: TurnState, fires: bool, bmh: int): (r: TurnState)
    ensures r.player == s.player.(hp := r.player.hp)
    ensures r.player.hp <= Max(s.player.hp, bmh)
    ensures bmh >= 0 ==> s.player.hp <= r.player.hp
    ensures |r.log| >= |s.log| && r.log[..|s.log|] == s.log
  {
    if fires && s.player.hp < bmh then
      var heal := Pct(bmh, 3);
      TurnState(s.player.(hp := Min(bmh, s.player.hp + heal)), s.log + [LogEntry("Regeneration", "heal")])
    else s
  }

  /** A mana regeneration that fires: mana rises by `gain`, capped at `cap`, and is logged. */
  function RegainStep(s: TurnState, fires: bool, gain: int, cap: int, source: string): (r: TurnState)
    ensures r.player == s.player.(mana := r.player.mana)
    ensures r.player.mana <= Max(s.player.mana, cap)
    ensures fires ==> r.player.mana <= cap
    ensures |r.log| >= |s.log| && r.log[..|s.log|] == s.log
  {
    if fires then TurnState(s.player.(mana := Min(cap, s.player.mana + gain)), s.log + [LogEntry(source, "heal")])
    else s
  }

  /**
   * `applyTurnStartPassives({ player, battle, log })`: Regeneration heals 3 %
   * of the battle's max hp, Meditation (4 mana) and Mana Regeneration (8 %
   * of the battle's max mana) restore mana up to the battle's max mana, and
   * Dark Pact drains 5 % of max hp but never below 1 hp.
   */
  function ApplyTurnStartPassives(player: Fighter, log: seq<LogEntry>): (r: TurnState)
    ensures r.player == player.(hp := r.player.hp, mana := r.player.mana)
    ensures r.player.mana <= Max(player.mana, BattleMaxMana(player))
    ensures HasSkill(player, "mag_t5a") || HasSkill(player, "mag_t9a") ==> r.player.mana <= BattleMaxMana(player)
    ensures !HasSkill(player, "nec_t4a") ==> r.player.hp <= Max(player.hp, BattleMaxHp(player))
    ensures !HasSkill(player, "nec_t4a") && player.maxHp >= 0 ==> r.player.hp >= player.hp
    ensures HasSkill(player, "nec_t4a") ==> r.player.hp >= 1
    ensures |r.log| >= |log| && r.log[..|log|] == log
  {
    var bmh := BattleMaxHp(player);
    var bmm := BattleMaxMana(player);
    var s1 := RegenStep(TurnState(player, log), HasSkill(player, "war_t6a"), bmh);
    var s2 := RegainStep(s1, HasSkill(player, "mag_t5a"), 4, bmm, "Meditation");
    var s3 := RegainStep(s2, HasSkill(player, "mag_t9a"), Pct(bmm, 8), bmm, "Mana Regen");
    if HasSkill(player, "nec_t4a") then
      TurnState(s3.player.(hp := Max(1, s3.player.hp - Pct(player.maxHp, 5))), s3.log + [LogEntry("Dark Pact", "dmg-player")])
    else s3
  }

  // ---------------------------------------------------------------------------
  // applyDamageReduction, applyManaShield

  /** `if (cond) d = Math.floor(d * pct / 100)` for a reducing pct: d moves toward 0, never past it. */
  function Shrink(d: int, cond: bool, pct: nat): (r: int)
    requires pct <= 100
    ensures d >= 0 ==> 0 <= r <= d
    ensures d < 0 ==> r <= 0
  {
    if !cond then d
    else
      var r := FloorFrac(d, pct, 100);
      assert d < 0 ==> r <= 0 by {
        if d < 0 { MulCancel(r, 0, 100); }
      }
      r
  }

  /** The block share of a defended hit: half, 30 % with Fortify, 15 % with Bulwark. */
  function BlockPct(player: Fighter, cls: Option<string>): (pct: nat)
    ensures pct <= 100
  {
    if HasSkill(player, "war_t2a") then 15 else if cls == Some("Fortify") then 30 else 50
  }

  /**
   * `applyDamageReduction(dmg, player, battle, cls)`: defending, Iron Skin,
   * Thick Skin and Fortress each scale the hit down; the result is at least
   * 1 and never more than the hit (or 1).
   */
  function ApplyDamageReduction(dmg: int, player: Fighter, battle: Battle, cls: Option<string>): (r: int)
    ensures 1 <= r <= Max(dmg, 1)
    ensures (!battle.defending && !HasSkill(player, "war_t1a") && !HasSkill(player, "brs_t5a") &&
             !HasSkill(player, "war_t10a")) ==> r == Max(1, dmg)
  {
    var d1 := Shrink(dmg, battle.defending, BlockPct(player, cls));
    var d2 := Shrink(d1, HasSkill(player, "war_t1a"), 90);
    var d3 := Shrink(d2, HasSkill(player, "brs_t5a"), 92);
    var d4 := Shrink(d3, HasSkill(player, "war_t10a"), 80);
    Max(1, d4)
  }

  datatype Shielded = Shielded(dmg: int, manaUsed: int)

  /**
   * `applyManaShield(dmg, player)`: Mana Shield moves 20 % of the hit (40 %
   * with Arcane Barrier) onto mana, never more than the mana there is.
   */
  function ApplyManaShield(dmg: int, player: Fighter): (r: Shielded)
    ensures r.dmg + r.manaUsed == dmg
    ensures !HasSkill(player, "mag_t1a") || player.mana <= 0 ==> r.manaUsed == 0
    ensures r.manaUsed <= Max(player.mana, 0)
    ensures dmg >= 0 ==> 0 <= r.manaUsed && r.manaUsed * 10 <= dmg * 4
  {
    if !HasSkill(player, "mag_t1a") || player.mana <= 0 then Shielded(dmg, 0)
    else
      var rate := if HasSkill(player, "mag_t10a") then 40 else 20;
      var absorb := Pct(dmg, rate);
      var actual := Min(absorb, player.mana);
      assert dmg >= 0 ==> absorb * 10 <= dmg * 4 by {
        assert absorb * 100 <= dmg * rate;
      }
      Shielded(dmg - actual, actual)
  }

  // ---------------------------------------------------------------------------
  // checkDodge

  datatype DodgeResult = DodgeResult(dodged: bool, battle: Battle, log: seq<LogEntry>)

  /** The dodge chance: 0.5 % per athletics point, +15 % Shadow Step, +10 % Evasion Mastery. */
  function DodgeChance(player: Fighter): real
  {
    player.athletics as real * 0.005 +
    (if HasSkill(player, "thf_t1a") then 0.15 else 0.0) +
    (if HasSkill(player, "thf_t3a") then 0.10 else 0.0)
  }

  /**
   * `checkDodge(player, battle, log)`, with `dodgeRoll` and `aegisRoll` the
   * two chance rolls. A pending shadow dodge is used first, then a dodge
   * charge (exactly one is spent); only those two change the battle record.
   */
  function CheckDodge(player: Fighter, battle: Battle, log: seq<LogEntry>, dodgeRoll: real, aegisRoll: real): (r: DodgeResult)
    ensures battle.dodgeNextTurn ==> r.dodged && r.battle == battle.(dodgeNextTurn := false)
    ensures !battle.dodgeNextTurn && battle.dodgeCharges > 0 ==>
      r.dodged && r.battle == battle.(dodgeCharges := battle.dodgeCharges - 1)
    ensures !battle.dodgeNextTurn && battle.dodgeCharges <= 0 ==>
      r.battle == battle &&
      (r.dodged <==> (DodgeChance(player) > 0.0 && dodgeRoll < DodgeChance(player)) ||
                     (HasSkill(player, "war_t4a") && aegisRoll < 0.15))
    ensures r.dodged ==> |r.log| == |log| + 1 && r.log[..|log|] == log
    ensures !r.dodged ==> r.log == log
  {
    if battle.dodgeNextTurn then DodgeResult(true, battle.(dodgeNextTurn := false), log + [LogEntry("dodge", "info")])
    else if battle.dodgeCharges > 0 then
      DodgeResult(true, battle.(dodgeCharges := battle.dodgeCharges - 1), log + [LogEntry("dodge", "info")])
    else if DodgeChance(player) > 0.0 && dodgeRoll < DodgeChance(player) then
      DodgeResult(true, battle, log + [LogEntry("dodge", "info")])
    else if HasSkill(player, "war_t4a") && aegisRoll < 0.15 then
      DodgeResult(true, battle, log + [LogEntry("Aegis", "info")])
    else DodgeResult(false, battle, log)
  }

  // ---------------------------------------------------------------------------
  // applySurvivalPassives, applyCursedBlood

  datatype SurvivalState = SurvivalState(player: Fighter, battle: Battle, log: seq<LogEntry>)

  /**
   * `applySurvivalPassives({ player, battle, log })`: Undying Will lifts a
   * lethal hit to 1 hp, and Death's Embrace heals 15 % of the battle's max
   * hp below 25 % hp, each at most once per battle: it fires only while its
   * flag is clear and sets it. Neither lifts hp past the battle's max hp,
   * and once Undying Will is spent a lethal hit stays lethal.
   */
  /** Undying Will fires: a lethal hit, the skill, and the flag still clear. */
  predicate UndyingWillFires(player: Fighter, battle: Battle)
  {
    player.hp <= 0 && HasSkill(player, "brs_t2a") && !battle.undyingWillUsed
  }

  /** The hp Death's Embrace sees: 1 after Undying Will, otherwise the hp after the hit. */
  function HpAfterUndyingWill(player: Fighter, battle: Battle): int
  {
    if UndyingWillFires(player, battle) then 1 else player.hp
  }

  function ApplySurvivalPassives(player: Fighter, battle: Battle, log: seq<LogEntry>): (r: SurvivalState)
    ensures r.player == player.(hp := r.player.hp)
    ensures r.battle == battle.(undyingWillUsed := r.battle.undyingWillUsed, deathsEmbraceUsed := r.battle.deathsEmbraceUsed)
    ensures battle.undyingWillUsed ==> r.battle.undyingWillUsed
    ensures battle.deathsEmbraceUsed ==> r.battle.deathsEmbraceUsed
    ensures r.battle.undyingWillUsed && !battle.undyingWillUsed <==>
      player.hp <= 0 && HasSkill(player, "brs_t2a") && !battle.undyingWillUsed
    ensures player.hp <= 0 && HasSkill(player, "brs_t2a") && !battle.undyingWillUsed ==> r.player.hp >= 1
    ensures player.hp <= 0 && battle.undyingWillUsed ==> r.player.hp == player.hp
    ensures r.player.hp <= Max(Max(player.hp, 1), BattleMaxHp(player))
    ensures battle.undyingWillUsed && battle.deathsEmbraceUsed ==> r == SurvivalState(player, battle, log)
    ensures r.battle.deathsEmbraceUsed && !battle.deathsEmbraceUsed <==>
      HasSkill(player, "nec_t2a") && !battle.deathsEmbraceUsed &&
      0 < HpAfterUndyingWill(player, battle) && HpAfterUndyingWill(player, battle) * 4 < BattleMaxHp(player)
    ensures r.battle.deathsEmbraceUsed && !battle.deathsEmbraceUsed ==>
      r.player.hp == Min(BattleMaxHp(player), HpAfterUndyingWill(player, battle) + Pct(BattleMaxHp(player), 15))
    ensures !(r.battle.deathsEmbraceUsed && !battle.deathsEmbraceUsed) ==> r.player.hp == HpAfterUndyingWill(player, battle)
  {
    var bmh := BattleMaxHp(player);
    var undying := UndyingWillFires(player, battle);
    var s1 := if undying then SurvivalState(player.(hp := 1), battle.(undyingWillUsed := true), log + [LogEntry("Undying Will", "heal")])
              else SurvivalState(player, battle, log);
    if HasSkill(player, "nec_t2a") && !s1.battle.deathsEmbraceUsed && s1.player.hp > 0 && Below(s1.player.hp, bmh, 1, 4) then
      SurvivalState(s1.player.(hp := Min(bmh, s1.player.hp + Pct(bmh, 15))), s1.battle.(deathsEmbraceUsed := true),
                    s1.log + [LogEntry("Death's Embrace", "heal")])
    else s1
  }

  /**
   * Two lethal hits in one battle: Undying Will saves the first, and after
   * it, a second hit that brings hp to 0 or below is not survived.
   */
  lemma {:induction false} UndyingWillOncePerBattle(player: Fighter, battle: Battle, log: seq<LogEntry>, hit: int)
    requires HasSkill(player, "brs_t2a") && player.hp <= 0 && !battle.undyingWillUsed
    ensures var first := ApplySurvivalPassives(player, battle, log);
      first.player.hp >= 1 && first.battle.undyingWillUsed &&
      (first.player.hp - hit <= 0 ==>
        ApplySurvivalPassives(first.player.(hp := first.player.hp - hit), first.battle, first.log).player.hp <= 0)
  {
    var first := ApplySurvivalPassives(player, battle, log);
    var hurt := first.player.(hp := first.player.hp - hit);
    assert hurt == player.(hp := hurt.hp);
    assert HasSkill(hurt, "brs_t2a");
  }

  datatype CursedState = CursedState(battle: Battle, log: seq<LogEntry>)

  /**
   * `applyCursedBlood(player, battle, log)`, with `roll` the 20 % chance:
   * when it fires the monster is poisoned for at least 2 turns; a longer
   * poison is never shortened, and nothing else changes.
   */
  function ApplyCursedBlood(player: Fighter, battle: Battle, log: seq<LogEntry>, roll: real): (r: CursedState)
    ensures r.battle == battle.(monsterPoisonTurns := r.battle.monsterPoisonTurns)
    ensures r.battle.monsterPoisonTurns >= battle.monsterPoisonTurns
    ensures !HasSkill(player, "nec_t8a") || roll >= 0.2 ==> r == CursedState(battle, log)
    ensures HasSkill(player, "nec_t8a") && roll < 0.2 ==>
      r.battle.monsterPoisonTurns == Max(battle.monsterPoisonTurns, 2) && |r.log| == |log| + 1
  {
    if !HasSkill(player, "nec_t8a") || roll >= 0.2 then CursedState(battle, log)
    else CursedState(battle.(monsterPoisonTurns := Max(battle.monsterPoisonTurns, 2)), log + [LogEntry("Cursed Blood", "info")])
  }
}
