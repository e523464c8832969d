/**
 * Spawning a monster or a boss at an area level: every base stat is
 * multiplied by a scale factor that grows with the level, and the gold gets
 * a small random bonus. The monster and boss tables are parameters; the
 * bonus is the already-drawn `Math.floor(Math.random() * n)`.
 */
module Scaling {
  import opened Common
  import opened GameTypes

  /** An entry of `MONSTERS` or `BOSSES` (monsters have an empty title). */
  datatype MonsterBase = MonsterBase(
    name: string, title: string, baseHp: int, baseAtk: int, baseDef: int, baseExp: int, baseGold: int,
    skills: seq<string>, dropTable: seq<Drop>)

  /** `Math.floor(x * (1 + (areaLevel - 1) * 0.2))`: the factor is (areaLevel + 4) / 5. */
  function MonsterStat(x: int, areaLevel: int): int
  {
    FloorFrac(x, areaLevel + 4, 5)
  }

  /** `Math.floor(x * (1 + (areaLevel - 1) * 0.25))`: the factor is (areaLevel + 3) / 4. */
  function BossStat(x: int, areaLevel: int): int
  {
    FloorFrac(x, areaLevel + 3, 4)
  }

  predicate NonNegativeBase(b: MonsterBase)
  {
    b.baseHp >= 0 && b.baseAtk >= 0 && b.baseDef >= 0 && b.baseExp >= 0 && b.baseGold >= 0
  }

  /**
   * `scaleMonster(monsterId, areaLevel)`; `goldBonus` is `Math.floor(Math.random() * 5)`.
   * Unknown ids give null; a spawned monster starts at full hp, at the area's
   * level, with the table's name, skills and drops, and gold 0..4 above the scaled base.
   */
  function ScaleMonster(monsters: map<string, MonsterBase>, id: string, areaLevel: int, goldBonus: int): (r: Option<Monster>)
    requires 0 <= goldBonus < 5
    ensures r.None? <==> id !in monsters
    ensures r.Some? ==>
      var m := r.value; var b := monsters[id];
      m.id == id && m.name == b.name && m.hp == m.maxHp && m.level == areaLevel && !m.isBoss &&
      m.skills == b.skills && m.dropTable == b.dropTable &&
      MonsterStat(b.baseGold, areaLevel) <= m.gold <= MonsterStat(b.baseGold, areaLevel) + 4
  {
    if id !in monsters then None
    else
      var b := monsters[id];
      var hp := MonsterStat(b.baseHp, areaLevel);
      Some(Monster(id, b.name, hp, hp, MonsterStat(b.baseAtk, areaLevel), MonsterStat(b.baseDef, areaLevel),
        MonsterStat(b.baseExp, areaLevel), MonsterStat(b.baseGold, areaLevel) + goldBonus,
        b.skills, b.dropTable, areaLevel, false, ""))
  }

  /**
   * `scaleBoss(bossId, areaLevel)`; `goldBonus` is `Math.floor(Math.random() * 15)`.
   * A boss is flagged as one and carries its title; gold is 0..14 above the scaled base.
   */
  function ScaleBoss(bosses: map<string, MonsterBase>, id: string, areaLevel: int, goldBonus: int): (r: Option<Monster>)
    requires 0 <= goldBonus < 15
    ensures r.None? <==> id !in bosses
    ensures r.Some? ==>
      var m := r.value; var b := bosses[id];
      m.id == id && m.name == b.name && m.title == b.title && m.isBoss &&
      m.hp == m.maxHp && m.level == areaLevel &&
      m.skills == b.skills && m.dropTable == b.dropTable &&
      BossStat(b.baseGold, areaLevel) <= m.gold <= BossStat(b.baseGold, areaLevel) + 14
  {
    if id !in bosses then None
    else
      var b := bosses[id];
      var hp := BossStat(b.baseHp, areaLevel);
      Some(Monster(id, b.name, hp, hp, BossStat(b.baseAtk, areaLevel), BossStat(b.baseDef, areaLevel),
        BossStat(b.baseExp, areaLevel), BossStat(b.baseGold, areaLevel) + goldBonus,
        b.skills, b.dropTable, areaLevel, true, b.title))
  }

  /** At area level 1 the scale factor is 1: a spawned monster has exactly its table stats. */
  lemma LevelOneIsUnscaled(monsters: map<string, MonsterBase>, bosses: map<string, MonsterBase>, id: string)
    requires id in monsters && id in bosses
    ensures var m := ScaleMonster(monsters, id, 1, 0).value; var b := monsters[id];
      m.maxHp == b.baseHp && m.atk == b.baseAtk && m.def == b.baseDef && m.exp == b.baseExp && m.gold == b.baseGold
    ensures var m := ScaleBoss(bosses, id, 1, 0).value; var b := bosses[id];
      m.maxHp == b.baseHp && m.atk == b.baseAtk && m.def == b.baseDef && m.exp == b.baseExp && m.gold == b.baseGold
  {
  }

  /** A deeper area never spawns a weaker monster: every stat is monotone in the area level. */
  lemma MonsterStatsGrowWithLevel(monsters: map<string, MonsterBase>, id: string, l1: int, l2: int, bonus: int)
    requires id in monsters && NonNegativeBase(monsters[id])
    requires l1 <= l2 && 0 <= bonus < 5
    ensures var a := ScaleMonster(monsters, id, l1, bonus).value; var c := ScaleMonster(monsters, id, l2, bonus).value;
      a.maxHp <= c.maxHp && a.atk <= c.atk && a.def <= c.def && a.exp <= c.exp && a.gold <= c.gold
  {
    var b := monsters[id];
    FloorFracMono(b.baseHp, l1 + 4, l2 + 4, 5);
    FloorFracMono(b.baseAtk, l1 + 4, l2 + 4, 5);
    FloorFracMono(b.baseDef, l1 + 4, l2 + 4, 5);
    FloorFracMono(b.baseExp, l1 + 4, l2 + 4, 5);
    FloorFracMono(b.baseGold, l1 + 4, l2 + 4, 5);
  }

  /** From area level 1 on, the boss factor (L + 3) / 4 is at least the monster factor (L + 4) / 5. */
  lemma BossScalesFaster(x: int, areaLevel: int)
    requires x >= 0 && areaLevel >= 1
    ensures MonsterStat(x, areaLevel) <= BossStat(x, areaLevel)
  {
    var m, b := MonsterStat(x, areaLevel), BossStat(x, areaLevel);
    assert x * (areaLevel + 4) * 4 <= x * (areaLevel + 3) * 5 by {
      assert x * (areaLevel + 3) * 5 - x * (areaLevel + 4) * 4 == x * (areaLevel - 1);
    }
    assert m * 20 <= x * (areaLevel + 4) * 4 <= x * (areaLevel + 3) * 5 < (b + 1) * 20;
    MulCancel(m, b + 1, 20);
  }
}
