/**
 * The combat formulas of the newer client engine: attack and defence with
 * every skill and class bonus, the battle-time maximum hp and mana, mana
 * costs, armour piercing and execute multipliers. The class table is a
 * parameter reduced to what the formulas read: each class's passive name.
 *
 * Percentages are exact rationals (`x * 1.15` is `x * 23 / 20`) and
 * `Math.floor` is floor division; "below 40 % hp" is `hp * 10 < maxHp * 4`.
 */
module Combat {
  import opened Common
  import opened GameTypes
  import GameData

  /** The player record the engine functions read. A missing `skillTree` is the empty list. */
  datatype Fighter = Fighter(
    hp: int, maxHp: int, mana: int, maxMana: int, baseAtk: int, baseDef: int,
    equipment: Equipment, skillTree: seq<string>, characterClass: Option<string>,
    wisdom: int, athletics: int)

  /** The battle record; its numeric fields read as 0 when unset. */
  datatype Battle = Battle(
    monster: Monster, atkDebuff: int, defDebuff: int, spellweaverActive: bool, avatarTurns: int,
    monsterPoisonTurns: int, monsterDoomTurns: int, dodgeNextTurn: bool, dodgeCharges: int,
    armorBreakTurns: int, defending: bool, undyingWillUsed: bool, deathsEmbraceUsed: bool)

  /**
   * A battle-log entry, by the effect or passive that wrote it and its
   * display type ("heal", "info", "dmg-player", "dmg-monster"); the wording
   * of the message is not modelled.
   */
  datatype LogEntry = LogEntry(source: string, kind: string)

  /** `calcDamage(atk, def)` is the data module's: see `GameData.CalcDamage`. */
  function CalcDamage(atk: int, def: int, u: real): (r: int)
    requires 0.0 <= u < 1.0
    ensures r >= 1 && r as real <= GameData.DamageBase(atk, def) * 1.15
  {
    GameData.CalcDamage(atk, def, u)
  }

  /** `getClassData(player)?.passive`: absent without a class or for an unknown one. */
  function ClassPassive(classes: map<string, string>, p: Fighter): (r: Option<string>)
    ensures r.Some? <==> p.characterClass.Some? && p.characterClass.value in classes
  {
    if p.characterClass.Some? && p.characterClass.value in classes then Some(classes[p.characterClass.value]) else None
  }

  /** `playerHasSkill(player, skillId)`: `(player.skillTree || []).includes(skillId)`. */
  predicate HasSkill(p: Fighter, id: string)
  {
    id in p.skillTree
  }

  /** `hp < maxHp * (num / den)` */
  predicate Below(hp: int, maxHp: int, num: int, den: nat)
    requires den > 0
  {
    hp * den < maxHp * num
  }

  /** One conditional percentage step: `if (cond) x = Math.floor(x * num / den)`. */
  function Boost(x: int, cond: bool, num: int, den: nat): (r: int)
    requires den > 0
    ensures !cond ==> r == x
    ensures x >= 0 && num >= den ==> r >= x
    ensures x >= 0 && num >= 0 ==> r >= 0
  {
    if !cond then x
    else
      var r := FloorFrac(x, num, den);
      assert x >= 0 && num >= den ==> r >= x by {
        if x >= 0 && num >= den { FloorFracGrows(x, num, den); }
      }
      assert x >= 0 && num >= 0 ==> r >= 0 by {
        if x >= 0 && num >= 0 { MulCancel(-1, r, den); }
      }
      r
  }

  // ---------------------------------------------------------------------------
  // getPlayerAtk(player, battle)

  /** `baseAtk` plus the `atk` of every equipped item. */
  function RawAtk(p: Fighter): int
  {
    p.baseAtk + EquipAtk(p.equipment)
  }

  function AtkDebuff(b: Option<Battle>): int
  {
    if b.Some? then b.value.atkDebuff else 0
  }

  /** Blood Frenzy's `Math.floor((1 - hp / maxHp) * 10)`: the missing share of hp in tenths. */
  function MissingTenths(hp: int, maxHp: int): (r: int)
    requires maxHp > 0
    ensures 0 <= hp <= maxHp ==> 0 <= r <= 10
  {
    var r := ((maxHp - hp) * 10) / maxHp;
    assert 0 <= hp <= maxHp ==> 0 <= r <= 10 by {
      if 0 <= hp <= maxHp {
        MulCancel(-1, r, maxHp);
        MulCancel(10, r, maxHp);
      }
    }
    r
  }

  /**
   * Attack after every bonus and before the debuff, in the source's order:
   * Rage, Blood Frenzy, War Machine, Relentless, Immortal Rage, Dark Pact,
   * Lich Form, Arcane Overflow, Spellweaver. For a hero with 0..maxHp hp and
   * no negative mana, no bonus ever lowers the attack.
   */
  function AtkBeforeDebuff(classes: map<string, string>, p: Fighter, b: Option<Battle>): (r: int)
    requires p.maxHp > 0
    ensures RawAtk(p) >= 0 && 0 <= p.hp <= p.maxHp && p.mana >= 0 ==> r >= RawAtk(p)
  {
    var atk0 := RawAtk(p);
    var atk1 := Boost(atk0, ClassPassive(classes, p) == Some("Rage") && Below(p.hp, p.maxHp, 4, 10), 13, 10);
    var missingPct := MissingTenths(p.hp, p.maxHp);
    var atk2 := Boost(atk1, HasSkill(p, "brs_t1a"), 100 + 3 * missingPct, 100);
    var atk3 := Boost(atk2, HasSkill(p, "brs_t4a"), 23, 20);
    var atk4 := Boost(atk3, HasSkill(p, "brs_t4a") && Below(p.hp, p.maxHp, 1, 2), 5, 4);
    var atk5 := Boost(atk4, HasSkill(p, "brs_t9a") && p.hp * 10 > p.maxHp * 8, 6, 5);
    var atk6 := if HasSkill(p, "brs_t10a") && Below(p.hp, p.maxHp, 1, 10) then atk5 * 2 else atk5;
    var atk7 := Boost(atk6, HasSkill(p, "nec_t4a"), 5, 4);
    var atk8 := Boost(atk7, HasSkill(p, "nec_t10a"), 6, 5);
    var atk9 := if HasSkill(p, "mag_t3a") then atk8 + p.mana / 10 else atk8;
    var r := Boost(atk9, b.Some? && b.value.spellweaverActive && HasSkill(p, "mag_t8a"), 3, 2);
    assert atk0 >= 0 && 0 <= p.hp <= p.maxHp && p.mana >= 0 ==> r >= atk0 by {
      if atk0 >= 0 && 0 <= p.hp <= p.maxHp && p.mana >= 0 {
        assert atk1 >= atk0;
        assert 100 + 3 * missingPct >= 100;
        assert atk2 >= atk1;
        assert atk3 >= atk2;
        assert atk4 >= atk3;
        assert atk5 >= atk4;
        assert atk6 >= atk5;
        assert atk7 >= atk6;
        assert atk8 >= atk7;
        assert atk9 >= atk8;
      }
    }
    r
  }

  /** `getPlayerAtk(player, battle)`: never below 1, whatever the debuff. */
  function PlayerAtk(classes: map<string, string>, p: Fighter, b: Option<Battle>): (r: int)
    requires p.maxHp > 0
    ensures r >= 1
  {
    Max(1, AtkBeforeDebuff(classes, p, b) - AtkDebuff(b))
  }

  /** A hero with no skills and no Rage passive attacks with base plus equipment, less the debuff. */
  lemma PlainAtk(classes: map<string, string>, p: Fighter, b: Option<Battle>)
    requires p.maxHp > 0 && p.skillTree == [] && ClassPassive(classes, p) != Some("Rage")
    ensures PlayerAtk(classes, p, b) == Max(1, RawAtk(p) - AtkDebuff(b))
  {
  }

  /** Skills only help: the attack is at least the unbuffed one, and a larger debuff never raises it. */
  lemma AtkBonusesAndDebuff(classes: map<string, string>, p: Fighter, b1: Battle, b2: Battle)
    requires p.maxHp > 0 && RawAtk(p) >= 0 && 0 <= p.hp <= p.maxHp && p.mana >= 0
    requires b1.spellweaverActive == b2.spellweaverActive && b1.atkDebuff <= b2.atkDebuff
    ensures PlayerAtk(classes, p, Some(b1)) >= Max(1, RawAtk(p) - b1.atkDebuff)
    ensures PlayerAtk(classes, p, Some(b1)) >= PlayerAtk(classes, p, Some(b2))
  {
    assert AtkBeforeDebuff(classes, p, Some(b1)) == AtkBeforeDebuff(classes, p, Some(b2));
  }

  // ---------------------------------------------------------------------------
  // getPlayerDef(player, battle)

  function RawDef(p: Fighter): int
  {
    p.baseDef + EquipDef(p.equipment)
  }

  function DefDebuff(b: Option<Battle>): int
  {
    if b.Some? then b.value.defDebuff else 0
  }

  /**
   * Defence after every bonus and before the debuff: Armor Mastery (+15 %
   * of the equipment's defence), Stalwart (+5), Undead Fortitude, Last
   * Stand, and the Avatar of War buff. No bonus ever lowers it.
   */
  function DefBeforeDebuff(p: Fighter, b: Option<Battle>): (r: int)
    ensures RawDef(p) >= 0 && EquipDef(p.equipment) >= 0 ==> r >= RawDef(p)
  {
    var equipDef := EquipDef(p.equipment);
    var def0 := RawDef(p);
    var def1 := if HasSkill(p, "war_t7a") then def0 + FloorFrac(equipDef, 15, 100) else def0;
    var def2 := if HasSkill(p, "war_t5a") then def1 + 5 else def1;
    var def3 := Boost(def2, HasSkill(p, "nec_t7a"), 11, 10);
    var def4 := Boost(def3, HasSkill(p, "war_t8a") && Below(p.hp, p.maxHp, 4, 10), 13, 10);
    assert equipDef >= 0 ==> FloorFrac(equipDef, 15, 100) >= 0 by {
      if equipDef >= 0 { FloorFracBounds(equipDef, 15, 100); }
    }
    Boost(def4, b.Some? && b.value.avatarTurns > 0, 3, 2)
  }

  /** `getPlayerDef(player, battle)`: never below 0, whatever the debuff. */
  function PlayerDef(p: Fighter, b: Option<Battle>): (r: int)
    ensures r >= 0
  {
    Max(0, DefBeforeDebuff(p, b) - DefDebuff(b))
  }

  /** A hero with no skills and no Avatar buff defends with base plus equipment, less the debuff. */
  lemma PlainDef(p: Fighter, b: Option<Battle>)
    requires p.skillTree == [] && (b.None? || b.value.avatarTurns <= 0)
    ensures PlayerDef(p, b) == Max(0, RawDef(p) - DefDebuff(b))
  {
  }

  // ---------------------------------------------------------------------------
  // getEffectiveManaCost, getBattleMaxHp, getBattleMaxMana

  /** `getEffectiveManaCost(player, baseCost)`: Mana Surge takes a quarter off, rounding down. */
  function EffectiveManaCost(p: Fighter, baseCost: int): (r: int)
    ensures !HasSkill(p, "mag_t4a") ==> r == baseCost
    ensures baseCost >= 0 ==> 0 <= r <= baseCost
    ensures HasSkill(p, "mag_t4a") ==> r * 4 <= baseCost * 3 < (r + 1) * 4
  {
    if HasSkill(p, "mag_t4a") then
      var r := FloorFrac(baseCost, 3, 4);
      assert baseCost >= 0 ==> 0 <= r <= baseCost by {
        if baseCost >= 0 { FloorFracBounds(baseCost, 3, 4); }
      }
      r
    else baseCost
  }

  /** `getBattleMaxHp(player)`: Titan's Grip +15 %, then Undead Fortitude +10 %; never below maxHp. */
  function BattleMaxHp(p: Fighter): (r: int)
    ensures p.maxHp >= 0 ==> r >= p.maxHp
    ensures !HasSkill(p, "war_t3a") && !HasSkill(p, "nec_t7a") ==> r == p.maxHp
  {
    Boost(Boost(p.maxHp, HasSkill(p, "war_t3a"), 23, 20), HasSkill(p, "nec_t7a"), 11, 10)
  }

  /** `getBattleMaxMana(player)`: each point of wisdom adds 2 % (`1 + wisdom * 0.02` is (50 + wisdom) / 50). */
  function BattleMaxMana(p: Fighter): (r: int)
    ensures p.maxMana >= 0 && p.wisdom >= 0 ==> r >= p.maxMana
    ensures p.wisdom == 0 ==> r == p.maxMana
  {
    Boost(p.maxMana, true, 50 + p.wisdom, 50)
  }

  // ---------------------------------------------------------------------------
  // getEffectiveDef(monsterDef, effect), getExecuteMultiplier(effect, hp, maxHp)

  /** The percentage of the monster's defence a piercing effect leaves, if `effect` pierces. */
  function PiercePct(effect: string): Option<int>
  {
    if effect == "pierce_20" then Some(80)
    else if effect == "pierce_25" then Some(75)
    else if effect == "pierce_30" then Some(70)
    else if effect == "pierce_40" then Some(60)
    else if effect == "pierce_50" || effect == "pierce" then Some(50)
    else None
  }

  /**
   * `getEffectiveDef(monsterDef, effect)`: true damage ignores defence, a
   * pierce keeps only part of it, every other effect keeps all of it.
   */
  function EffectiveDef(monsterDef: int, effect: string): (r: int)
    ensures effect == "true_damage" || effect == "phantom_blade" ==> r == 0
    ensures effect != "true_damage" && effect != "phantom_blade" && PiercePct(effect).None? ==> r == monsterDef
    ensures PiercePct(effect).Some? && monsterDef >= 0 ==> 0 <= r <= monsterDef
    ensures PiercePct(effect).Some? ==> r * 100 <= monsterDef * PiercePct(effect).value < (r + 1) * 100
  {
    if effect == "true_damage" || effect == "phantom_blade" then 0
    else match PiercePct(effect)
      case Some(pct) =>
        var r := FloorFrac(monsterDef, pct, 100);
        assert monsterDef >= 0 ==> 0 <= r <= monsterDef by {
          if monsterDef >= 0 { FloorFracBounds(monsterDef, pct, 100); }
        }
        r
      case None => monsterDef
  }

  /**
   * `getExecuteMultiplier(effect, monsterHp, monsterMaxHp)`: 2 for `execute`
   * under 30 % hp, 2.67 for `execute_25` under 25 %, otherwise 1 (`counter`
   * included).
   */
  function ExecuteMultiplier(effect: string, monsterHp: int, monsterMaxHp: int): (r: real)
    ensures r != 1.0 <==>
      (effect == "execute" && Below(monsterHp, monsterMaxHp, 3, 10)) ||
      (effect == "execute_25" && Below(monsterHp, monsterMaxHp, 1, 4))
    ensures r == 1.0 || r == 2.0 || r == 2.67
    ensures effect == "counter" ==> r == 1.0
  {
    if effect == "execute" && Below(monsterHp, monsterMaxHp, 3, 10) then 2.0
    else if effect == "execute_25" && Below(monsterHp, monsterMaxHp, 1, 4) then 2.67
    else 1.0
  }
}
