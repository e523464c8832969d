/**
 * Loot and shop generation of the newer client: gear built from the item
 * library, potions by tier, monster drops, daily-reward items, the potion
 * shop's tier window and the daily featured gear. The item library, the
 * potion tiers and the rarity tables are parameters; each `Math.random()`
 * is a roll in [0, 1) supplied by the caller, each `uid()` an id.
 * Multipliers are exact rationals: `1 + level * 0.05` is (20 + level) / 20,
 * `1 + n * 0.04` is (25 + n) / 25 and a rarity multiplier is tenths / 10.
 */
module Loot {
  import opened Common
  import opened GameTypes
  import opened Utils
  import GameData

  /** An `ITEM_LIBRARY` template; a weight of 0 stands for a missing weight. */
  datatype LibraryItem = LibraryItem(name: string, slot: Option<Slot>, level: int, rarity: string,
                                     baseAtk: int, baseDef: int, weight: int)

  /** An entry of `POTION_TIERS`. */
  datatype PotionTier = PotionTier(name: string, baseHeal: int)

  /** `RARITIES` (never empty) and `RARITY_LOOKUP`, the same entries by name. */
  datatype RarityTables = RarityTables(list: seq<GameData.Rarity>, lookup: map<string, GameData.Rarity>)

  type Library = map<string, seq<LibraryItem>>

  /** `RARITY_LOOKUP[name] || RARITIES[0]` */
  function RarityOf(t: RarityTables, name: string): (r: GameData.Rarity)
    requires |t.list| >= 1
    ensures name in t.lookup ==> r == t.lookup[name]
    ensures name !in t.lookup ==> r == t.list[0]
  {
    if name in t.lookup then t.lookup[name] else t.list[0]
  }

  /** `Math.round(num / den)`: the integer nearest to num / den, halves rounded up. */
  function RoundFrac(num: int, den: nat): (r: int)
    requires den > 0
    ensures 2 * r * den <= 2 * num + den < 2 * (r + 1) * den
  {
    FloorFrac(2 * num + den, 1, 2 * den)
  }

  /**
   * A gear stat: `base > 0 ? Math.max(0, Math.round(base * factor)) : 0`
   * with the factor num / den. A factor of at least 1 never lowers the stat.
   */
  function GearStat(base: int, num: int, den: nat): (r: int)
    requires den > 0
    ensures base <= 0 ==> r == 0
    ensures r >= 0
    ensures base > 0 && num >= den ==> r >= base
  {
    if base > 0 then
      var r := RoundFrac(base * num, den);
      assert num >= den ==> r >= base by {
        if num >= den {
          assert base * num >= base * den;
          MulCancel(2 * base, 2 * r + 1, den);
        }
      }
      Max(0, r)
    else 0
  }

  /** The product of non-negative factors below which a factor of at least 1 keeps a stat. */
  lemma FactorAtLeast(level: int, adapt: int, tenths: int)
    requires level >= 0 && adapt >= 0 && tenths >= 10
    ensures (20 + level) * (25 + adapt) * tenths >= 5000
    ensures (20 + level) * tenths >= 200
  {
    assert (20 + level) * (25 + adapt) >= 500;
  }

  // ---------------------------------------------------------------------------
  // buildGearDrop(template, monsterLevel, dropType)

  /**
   * `buildGearDrop(template, monsterLevel, dropType)`: the template's stats
   * grow 5 % per template level and 4 % per level the monster is above the
   * template, times the rarity multiplier. The item takes the higher of
   * the two levels and sells for at least 10; a stat the template lacks
   * stays 0, and for a template of level 0 or more with a multiplier of at
   * least 1 no stat falls below the template's.
   */
  function BuildGearDrop(t: RarityTables, template: LibraryItem, monsterLevel: int, dropType: string, id: string): (it: GameItem)
    requires |t.list| >= 1
    ensures it.id == id && it.name == template.name && it.kind == dropType && it.slot == template.slot
    ensures it.rarity == template.rarity && it.level == Max(template.level, monsterLevel)
    ensures it.sellPrice >= 10 && it.healAmount == 0 && it.buyPrice == 0
    ensures template.baseAtk <= 0 ==> it.atk == 0
    ensures template.baseDef <= 0 ==> it.def == 0
    ensures it.atk >= 0 && it.def >= 0
    ensures template.level >= 0 && RarityOf(t, template.rarity).tenths >= 10 ==>
      it.atk >= Max(0, template.baseAtk) && it.def >= Max(0, template.baseDef)
  {
    var rarity := RarityOf(t, template.rarity);
    var factor := (20 + template.level) * (25 + Max(0, monsterLevel - template.level)) * rarity.tenths;
    assert template.level >= 0 && rarity.tenths >= 10 ==> factor >= 5000 by {
      if template.level >= 0 && rarity.tenths >= 10 {
        FactorAtLeast(template.level, Max(0, monsterLevel - template.level), rarity.tenths);
      }
    }
    var atk := GearStat(template.baseAtk, factor, 5000);
    var def := GearStat(template.baseDef, factor, 5000);
    var level := Max(template.level, monsterLevel);
    GameItem(id, template.name, dropType, template.slot, template.rarity, level, atk, def, 0,
             Max(10, (atk + def) * 4 + level * 3 + rarity.tenths), 0)
  }

  // ---------------------------------------------------------------------------
  // Potions

  /** `Math.min(POTION_TIERS.length - 1, Math.floor(level / 4))` */
  function TierIndex(tiers: nat, level: int): (i: int)
    requires tiers >= 1 && level >= 0
    ensures 0 <= i < tiers
  {
    Min(tiers - 1, level / 4)
  }

  /**
   * A potion of the tier for `level`: heals the tier's base plus
   * `level * 4 * multiplier`, sells for 60 % of that.
   */
  function PotionItem(tiers: seq<PotionTier>, rarity: GameData.Rarity, level: int, itemLevel: int, id: string): (it: GameItem)
    requires |tiers| >= 1 && level >= 0
    ensures var tier := tiers[TierIndex(|tiers|, level)];
      it.id == id && it.name == tier.name && it.kind == "potion" && it.slot.None? &&
      it.rarity == rarity.name && it.level == itemLevel && it.atk == 0 && it.def == 0
    ensures rarity.tenths >= 0 ==> it.healAmount >= tiers[TierIndex(|tiers|, level)].baseHeal
    ensures it.healAmount >= 0 ==> 0 <= it.sellPrice <= it.healAmount
  {
    var tier := tiers[TierIndex(|tiers|, level)];
    var heal := tier.baseHeal + FloorFrac(level * 4 * rarity.tenths, 1, 10);
    assert rarity.tenths >= 0 ==> FloorFrac(level * 4 * rarity.tenths, 1, 10) >= 0 by {
      if rarity.tenths >= 0 { MulCancel(-1, FloorFrac(level * 4 * rarity.tenths, 1, 10), 10); }
    }
    assert heal >= 0 ==> 0 <= FloorFrac(heal, 3, 5) <= heal by {
      if heal >= 0 { FloorFracBounds(heal, 3, 5); }
    }
    GameItem(id, tier.name, "potion", None, rarity.name, itemLevel, 0, 0, heal, FloorFrac(heal, 3, 5), 0)
  }

  // ---------------------------------------------------------------------------
  // pickFromLibrary, generateItem, rollDrop

  /** `(item.weight || 1) * Math.max(1, 18 - |item.level - target| * 2)` */
  function LibraryWeight(item: LibraryItem, target: int): (w: int)
    ensures item.weight >= 0 ==> w >= 1
  {
    var diff := if item.level >= target then item.level - target else target - item.level;
    (if item.weight == 0 then 1 else item.weight) * Max(1, 18 - diff * 2)
  }

  function LibraryWeights(pool: seq<LibraryItem>, target: int): (ws: seq<int>)
    ensures |ws| == |pool| && forall i :: 0 <= i < |pool| ==> ws[i] == LibraryWeight(pool[i], target)
  {
    seq(|pool|, i requires 0 <= i < |pool| => LibraryWeight(pool[i], target))
  }

  /**
   * `pickFromLibrary(pool, targetLevel)` with `u` its `Math.random()`: null
   * for an empty pool, otherwise the template `pickWeighted`'s loop picks
   * from the level-weighted pool (the same loop as `Utils.PickWeighted`).
   */
  function PickFromLibrary(pool: seq<LibraryItem>, target: int, u: real): (r: Option<LibraryItem>)
    ensures r.None? <==> pool == []
    ensures r.Some? ==> r.value in pool
  {
    if pool == [] then None
    else
      var ws := LibraryWeights(pool, target);
      Some(pool[PickIndex(ws, Scaled(u, Total(ws)))])
  }

  /** The rolls one `generateItem` call consumes: the rarity roll for a potion, the template roll for gear. */
  datatype Rolls = Rolls(rarity: real, template: real)

  function RarityWeights(list: seq<GameData.Rarity>): (ws: seq<int>)
    ensures |ws| == |list| && forall i :: 0 <= i < |list| ==> ws[i] == list[i].weight
  {
    seq(|list|, i requires 0 <= i < |list| => list[i].weight)
  }

  /** `pickWeighted(RARITIES)` for the roll u. */
  function PickRarity(t: RarityTables, u: real): (r: GameData.Rarity)
    requires |t.list| >= 1
    ensures r in t.list
  {
    var ws := RarityWeights(t.list);
    t.list[PickIndex(ws, Scaled(u, Total(ws)))]
  }

  /**
   * `generateItem(dropType, monsterLevel)`: a potion of the monster level's
   * tier, or gear from a template of the type's library pool; null for a
   * type with no pool (or an empty one).
   */
  function GenerateItem(lib: Library, tiers: seq<PotionTier>, t: RarityTables, dropType: string,
                        monsterLevel: int, rolls: Rolls, id: string): (r: Option<GameItem>)
    requires |tiers| >= 1 && |t.list| >= 1
    requires dropType == "potion" ==> monsterLevel >= 0
    ensures dropType == "potion" ==>
      (r.Some? && r.value.slot.None? &&
       r.value.name == tiers[TierIndex(|tiers|, monsterLevel)].name && r.value.level == Max(1, monsterLevel))
    ensures dropType != "potion" ==> (r.None? <==> dropType !in lib || lib[dropType] == [])
    ensures dropType != "potion" && r.Some? ==>
      (r.value.kind == dropType && r.value.level >= monsterLevel && r.value.sellPrice >= 10 &&
       exists k :: 0 <= k < |lib[dropType]| && r.value.name == lib[dropType][k].name)
  {
    if dropType == "potion" then
      Some(PotionItem(tiers, PickRarity(t, rolls.rarity), monsterLevel, Max(1, monsterLevel), id))
    else if dropType !in lib then None
    else
      var template := PickFromLibrary(lib[dropType], monsterLevel, rolls.template);
      if template.None? then None
      else Some(BuildGearDrop(t, template.value, monsterLevel, dropType, id))
  }

  /**
   * `rollDrop(dropTable, monsterLevel)` with `dropRoll` the roll of
   * `pickWeighted(dropTable)`: nothing for an empty table, otherwise an item
   * generated for the picked entry's type. Unlike the older data module
   * there is no drop-chance roll.
   */
  function RollDrop(lib: Library, tiers: seq<PotionTier>, t: RarityTables, table: seq<Drop>, monsterLevel: int,
                    dropRoll: real, rolls: Rolls, id: string): (r: Option<GameItem>)
    requires |tiers| >= 1 && |t.list| >= 1 && monsterLevel >= 0
    ensures table == [] ==> r.None?
    ensures table != [] ==>
      var k := PickIndex(GameData.DropWeights(table), Scaled(dropRoll, Total(GameData.DropWeights(table))));
      0 <= k < |table| && r == GenerateItem(lib, tiers, t, table[k].kind, monsterLevel, rolls, id)
    ensures r.Some? ==> exists k :: 0 <= k < |table| && (r.value.kind == table[k].kind || table[k].kind == "potion")
  {
    if table == [] then None
    else
      var ws := GameData.DropWeights(table);
      var k := PickIndex(ws, Scaled(dropRoll, Total(ws)));
      GenerateItem(lib, tiers, t, table[k].kind, monsterLevel, rolls, id)
  }

  // ---------------------------------------------------------------------------
  // generateRewardItem(spec, playerLevel)

  /** A daily reward spec; a `minLevel` of 0 stands for a missing one. */
  datatype RewardSpec = RewardSpec(kind: string, itemType: string, rarity: string, minLevel: int)

  /** `Math.max(spec.minLevel || 1, playerLevel)` */
  function EffectiveLevel(spec: RewardSpec, playerLevel: int): (l: int)
    ensures l >= playerLevel && l >= (if spec.minLevel == 0 then 1 else spec.minLevel)
    ensures l == playerLevel || l == (if spec.minLevel == 0 then 1 else spec.minLevel)
  {
    Max(if spec.minLevel == 0 then 1 else spec.minLevel, playerLevel)
  }

  /** The templates of one rarity, optionally no higher than `maxLevel`, in pool order. */
  function OfRarity(pool: seq<LibraryItem>, rarity: string, maxLevel: Option<int>): (r: seq<LibraryItem>)
    ensures forall k :: 0 <= k < |r| ==>
      (r[k] in pool && r[k].rarity == rarity && (maxLevel.Some? ==> r[k].level <= maxLevel.value))
    ensures forall k :: 0 <= k < |pool| ==>
      (pool[k].rarity == rarity && (maxLevel.Some? ==> pool[k].level <= maxLevel.value) ==> pool[k] in r)
  {
    if pool == [] then []
    else
      var last := pool[|pool| - 1];
      var keep := last.rarity == rarity && (maxLevel.Some? ==> last.level <= maxLevel.value);
      var r := OfRarity(pool[..|pool| - 1], rarity, maxLevel) + (if keep then [last] else []);
      assert forall k :: 0 <= k < |pool| - 1 ==> pool[k] == pool[..|pool| - 1][k];
      r
  }

  /** `Math.floor(Math.random() * n)` for the roll u. */
  function RollIndex(u: real, n: nat): (i: int)
    requires 0.0 <= u < 1.0 && n > 0
    ensures 0 <= i < n
  {
    assert u * n as real < n as real by {
      assert n as real - u * n as real == (1.0 - u) * n as real;
      assert (1.0 - u) * n as real > 0.0;
    }
    (u * n as real).Floor
  }

  /**
   * `generateRewardItem(spec, playerLevel)` with `pick` the roll choosing
   * among the candidates and `rolls` those of the fallback `generateItem`.
   * A potion spec gives a potion of the spec's rarity; gear comes from the
   * templates of the spec's rarity near the effective level (or of that
   * rarity at any level), falling back to an ordinary drop of the type when
   * the pool has none of that rarity.
   */
  function GenerateRewardItem(lib: Library, tiers: seq<PotionTier>, t: RarityTables, spec: RewardSpec,
                              playerLevel: int, pick: real, rolls: Rolls, id: string): (r: Option<GameItem>)
    requires |tiers| >= 1 && |t.list| >= 1 && 0.0 <= pick < 1.0
    requires spec.kind == "potion" || spec.itemType == "potion" ==> EffectiveLevel(spec, playerLevel) >= 0
    ensures spec.kind == "potion" ==>
      (r.Some? && r.value.slot.None? && r.value.level == EffectiveLevel(spec, playerLevel) &&
       r.value.rarity == RarityOf(t, spec.rarity).name)
    ensures spec.kind != "potion" && spec.itemType !in lib ==> r.None?
    ensures spec.kind != "potion" && spec.itemType != "potion" && r.Some? ==>
      (r.value.kind == spec.itemType && r.value.level >= EffectiveLevel(spec, playerLevel) &&
       exists k :: 0 <= k < |lib[spec.itemType]| && r.value.name == lib[spec.itemType][k].name)
    ensures spec.kind != "potion" && spec.itemType in lib && OfRarity(lib[spec.itemType], spec.rarity, None) != [] ==>
      r.Some? && r.value.rarity == spec.rarity
  {
    var level := EffectiveLevel(spec, playerLevel);
    if spec.kind == "potion" then
      var rarity := RarityOf(t, spec.rarity);
      Some(PotionItem(tiers, rarity, level, level, id))
    else if spec.itemType !in lib then None
    else
      var pool := lib[spec.itemType];
      var near := OfRarity(pool, spec.rarity, Some(level + 3));
      var source := if |near| > 0 then near else OfRarity(pool, spec.rarity, None);
      if source == [] then GenerateItem(lib, tiers, t, spec.itemType, level, rolls, id)
      else
        var template := source[RollIndex(pick, |source|)];
        assert template in pool;
        Some(BuildGearDrop(t, template, level, spec.itemType, id))
  }

  // ---------------------------------------------------------------------------
  // getShopItems(playerLevel)

  /** The first and last tier index `getShopItems` offers. */
  datatype Window = Window(lo: nat, hi: nat)

  /**
   * The tier window of `getShopItems`: up to three contiguous tiers starting
   * one below the player's tier (`Math.floor(level / 4)`, clamped to the
   * table), shifted down at the top of the table so that three tiers are
   * shown whenever the table has three.
   */
  function ShopWindow(n: nat, level: int): (w: Window)
    requires n >= 1
    ensures w.lo <= w.hi < n && w.hi - w.lo + 1 == Min(3, n)
    ensures w.lo <= Max(0, Min(n - 1, level / 4)) <= w.hi
  {
    var tierIndex := Min(n - 1, level / 4);
    var start := Max(0, tierIndex - 1);
    var end := Min(n - 1, start + 2);
    Window(Max(0, end - 2), end)
  }

  /**
   * One shop potion, the tier at absolute index `idx`: its rarity climbs
   * with the tier, its level is `idx * 4 + 1`, it heals the tier's base plus
   * `3 * playerLevel + 10 * idx`, costs 140 % of that plus 5 per level and
   * sells for 60 %.
   */
  function ShopPotion(tier: PotionTier, rarities: seq<GameData.Rarity>, playerLevel: int, idx: nat, id: string): (it: GameItem)
    requires |rarities| >= 1
    ensures it.id == id && it.name == tier.name && it.kind == "potion" && it.slot.None? && it.atk == 0 && it.def == 0
    ensures it.rarity == rarities[Min(|rarities| - 1, idx)].name && it.level == idx * 4 + 1
    ensures it.healAmount == tier.baseHeal + 3 * playerLevel + 10 * idx
    ensures it.healAmount >= 0 ==> 0 <= it.sellPrice <= it.healAmount < it.buyPrice
  {
    var heal := tier.baseHeal + playerLevel * 3 + idx * 10;
    var level := Max(1, idx * 4 + 1);
    assert heal >= 0 ==> 0 <= FloorFrac(heal, 3, 5) <= heal <= FloorFrac(heal, 7, 5) by {
      if heal >= 0 {
        FloorFracBounds(heal, 3, 5);
        FloorFracGrows(heal, 7, 5);
      }
    }
    GameItem(id, tier.name, "potion", None, rarities[Min(|rarities| - 1, idx)].name, level, 0, 0, heal,
             FloorFrac(heal, 3, 5), FloorFrac(heal, 7, 5) + level * 5)
  }

  /** `getShopItems(playerLevel)`, with `ids` the successive `uid()`s. */
  function ShopItems(tiers: seq<PotionTier>, rarities: seq<GameData.Rarity>, playerLevel: int, ids: seq<string>): (r: seq<GameItem>)
    requires |tiers| >= 1 && |rarities| >= 1 && |ids| == Min(3, |tiers|)
    ensures |r| == Min(3, |tiers|)
    ensures var w := ShopWindow(|tiers|, playerLevel);
      forall k :: 0 <= k < |r| ==> r[k] == ShopPotion(tiers[w.lo + k], rarities, playerLevel, w.lo + k, ids[k])
  {
    var w := ShopWindow(|tiers|, playerLevel);
    seq(|ids|, k requires 0 <= k < |ids| => ShopPotion(tiers[w.lo + k], rarities, playerLevel, w.lo + k, ids[k]))
  }

  /**
   * The shop offers consecutive tiers in order, the player's own tier among
   * them; each potion is four levels above the one before, and one that
   * heals a non-negative amount sells back for less than it costs.
   */
  lemma ShopOrder(tiers: seq<PotionTier>, rarities: seq<GameData.Rarity>, playerLevel: int, ids: seq<string>)
    requires |tiers| >= 1 && |rarities| >= 1 && |ids| == Min(3, |tiers|)
    ensures var r := ShopItems(tiers, rarities, playerLevel, ids);
      (exists k :: 0 <= k < |r| && r[k].name == tiers[Max(0, Min(|tiers| - 1, playerLevel / 4))].name) &&
      (forall k :: 0 < k < |r| ==> r[k].level == r[k - 1].level + 4) &&
      (forall k :: 0 <= k < |r| && r[k].healAmount >= 0 ==> r[k].sellPrice < r[k].buyPrice)
  {
    var r := ShopItems(tiers, rarities, playerLevel, ids);
    var w := ShopWindow(|tiers|, playerLevel);
    var own := Max(0, Min(|tiers| - 1, playerLevel / 4));
    assert r[own - w.lo].name == tiers[own].name;
  }

  // ---------------------------------------------------------------------------
  // getDailyFeaturedItems(playerLevel)

  /** `today.getFullYear() * 10000 + (today.getMonth() + 1) * 100 + today.getDate()` with a 1-based month. */
  function DaySeed(year: nat, month: nat, day: nat): (seed: nat)
    requires 1 <= month <= 12 && 1 <= day <= 31
    ensures seed % 100 == day && (seed / 100) % 100 == month && seed / 10000 == year
  {
    year * 10000 + month * 100 + day
  }

  /** Different calendar dates give different day seeds, so each day has its own featured items. */
  lemma DaySeedInjective(y1: nat, m1: nat, d1: nat, y2: nat, m2: nat, d2: nat)
    requires 1 <= m1 <= 12 && 1 <= d1 <= 31 && 1 <= m2 <= 12 && 1 <= d2 <= 31
    requires DaySeed(y1, m1, d1) == DaySeed(y2, m2, d2)
    ensures y1 == y2 && m1 == m2 && d1 == d2
  {
  }

  /** `count`: the number of rounds of the featured loop. */
  const FeaturedRounds: nat := 3

  const GearTypes: seq<string> := ["sword", "shield", "helmet", "armor", "boots", "ring"]

  /** `RARITIES.filter(r => r.name === 'Rare' || r.name === 'Epic' || r.name === 'Legendary')` */
  function Extraordinary(list: seq<GameData.Rarity>): (r: seq<GameData.Rarity>)
    ensures forall x :: x in r <==> x in list && x.name in {"Rare", "Epic", "Legendary"}
  {
    if list == [] then []
    else
      var last := list[|list| - 1];
      Extraordinary(list[..|list| - 1]) + (if last.name in {"Rare", "Epic", "Legendary"} then [last] else [])
  }

  /**
   * A featured item: the template's stats grow 5 % per template level times
   * the rarity multiplier, with no adaptation to the player; the item keeps
   * the template's level, sells for at least 10 and, above that floor, costs
   * exactly twice its sell price.
   */
  function FeaturedItem(t: RarityTables, template: LibraryItem, kind: string, id: string): (it: GameItem)
    requires |t.list| >= 1
    ensures it.id == id && it.name == template.name && it.kind == kind && it.slot == template.slot
    ensures it.rarity == template.rarity && it.level == template.level
    ensures it.atk >= 0 && it.def >= 0 && it.sellPrice >= 10
    ensures template.baseAtk <= 0 ==> it.atk == 0
    ensures template.baseDef <= 0 ==> it.def == 0
    ensures it.sellPrice > 10 ==> it.buyPrice == 2 * it.sellPrice
    ensures template.level >= 0 && RarityOf(t, template.rarity).tenths >= 10 ==>
      it.atk >= Max(0, template.baseAtk) && it.def >= Max(0, template.baseDef)
  {
    var rarity := RarityOf(t, template.rarity);
    var factor := (20 + template.level) * rarity.tenths;
    assert template.level >= 0 && rarity.tenths >= 10 ==> factor >= 200 by {
      if template.level >= 0 && rarity.tenths >= 10 {
        FactorAtLeast(template.level, 0, rarity.tenths);
      }
    }
    var atk := GearStat(template.baseAtk, factor, 200);
    var def := GearStat(template.baseDef, factor, 200);
    var value := (atk + def) * 4 + template.level * 3 + rarity.tenths;
    GameItem(id, template.name, kind, template.slot, template.rarity, template.level, atk, def, 0,
             Max(10, value), 2 * value)
  }

  /** The generator state after s: it stays strictly between 0 and the modulus. */
  function NextState(s: int): (t: int)
    requires 0 < s < Modulus
    ensures 0 < t < Modulus && t == LehmerStep(s)
  {
    StepStaysPositive(s);
    LehmerStep(s)
  }

  /** The draw after the generator state s, in [0, 1). */
  function NextDraw(s: int): (u: real)
    requires 0 < s < Modulus
    ensures 0.0 <= u < 1.0 && u == Draw(LehmerStep(s))
  {
    DrawInUnit(NextState(s));
    Draw(NextState(s))
  }

  /** `gearTypes[Math.floor(rng() * gearTypes.length)]` from state s. */
  function DrawKind(s: int): (kind: string)
    requires 0 < s < Modulus
    ensures kind in GearTypes
  {
    GearTypes[RollIndex(NextDraw(s), |GearTypes|)]
  }

  /** `seededPickWeighted(extraordinaryRarities, rng)` from state s. */
  function DrawRarity(ext: seq<GameData.Rarity>, s: int): (r: GameData.Rarity)
    requires ext != [] && 0 < s < Modulus
    ensures r in ext
  {
    var ws := RarityWeights(ext);
    ext[PickIndex(ws, Scaled(Draw(NextState(s)), Total(ws)))]
  }

  /** `candidates[Math.floor(rng() * candidates.length)]` from state s. */
  function DrawTemplate(candidates: seq<LibraryItem>, s: int): (template: LibraryItem)
    requires candidates != [] && 0 < s < Modulus
    ensures template in candidates
  {
    candidates[RollIndex(NextDraw(s), |candidates|)]
  }

  /**
   * A pick the featured loop may make: a template of one of the gear types,
   * from that type's library pool, of an extraordinary rarity and no more
   * than `Max(playerLevel + 3, 5)` levels high.
   */
  predicate SoundPick(lib: Library, ext: seq<GameData.Rarity>, playerLevel: int, p: (LibraryItem, string))
  {
    p.1 in GearTypes && p.1 in lib && p.0 in lib[p.1] &&
    (exists x :: x in ext && x.name == p.0.rarity) && p.0.level <= Max(playerLevel + 3, 5)
  }

  /** The outcome of one iteration of the featured loop: the generator state after it and the pick, if any. */
  datatype Round = Round(state: int, pick: Option<(LibraryItem, string)>)

  /**
   * One iteration of the featured loop from generator state s: draw a gear
   * type; if the library has it, draw a rarity among `ext`, then a template
   * of that rarity no higher than `Max(playerLevel + 3, 5)`; keep it unless
   * its name is already used. Each draw steps the generator once.
   */
  function FeaturedRound(lib: Library, ext: seq<GameData.Rarity>, playerLevel: int, s: int, used: set<string>): (r: Round)
    requires ext != [] && 0 < s < Modulus
    ensures 0 < r.state < Modulus
  {
    var s1 := NextState(s);
    var kind := DrawKind(s);
    if kind !in lib then Round(s1, None)
    else
      var s2 := NextState(s1);
      var rarity := DrawRarity(ext, s1);
      var candidates := OfRarity(lib[kind], rarity.name, Some(Max(playerLevel + 3, 5)));
      if candidates == [] then Round(s2, None)
      else
        var template := DrawTemplate(candidates, s2);
        if template.name in used then Round(NextState(s2), None)
        else Round(NextState(s2), Some((template, kind)))
  }

  /** A round picks only a template it may pick, under a name not yet used. */
  lemma FeaturedRoundSound(lib: Library, ext: seq<GameData.Rarity>, playerLevel: int, s: int, used: set<string>)
    requires ext != [] && 0 < s < Modulus
    ensures var r := FeaturedRound(lib, ext, playerLevel, s, used);
      r.pick.Some? ==> r.pick.value.0.name !in used && SoundPick(lib, ext, playerLevel, r.pick.value)
  {
  }

  /** The generator state, the names used and the picks after some rounds of the featured loop. */
  datatype Run = Run(state: int, used: set<string>, picks: seq<(LibraryItem, string)>)

  /** The first `rounds` iterations of the featured loop from the seed. */
  function FeaturedRun(lib: Library, ext: seq<GameData.Rarity>, playerLevel: int, seed: int, rounds: nat): (r: Run)
    requires ext != [] && 0 < seed < Modulus
    ensures 0 < r.state < Modulus && |r.picks| <= rounds
  {
    if rounds == 0 then Run(seed, {}, [])
    else
      var prev := FeaturedRun(lib, ext, playerLevel, seed, rounds - 1);
      Advance(prev, FeaturedRound(lib, ext, playerLevel, prev.state, prev.used))
  }

  /** The run after one more round: a pick is appended and its name marked used. */
  function Advance(prev: Run, round: Round): (r: Run)
    ensures r.state == round.state
    ensures round.pick.None? ==> r.used == prev.used && r.picks == prev.picks
    ensures round.pick.Some? ==> r.used == prev.used + {round.pick.value.0.name} && r.picks == prev.picks + [round.pick.value]
  {
    match round.pick
    case None => Run(round.state, prev.used, prev.picks)
    case Some(p) => Run(round.state, prev.used + {p.0.name}, prev.picks + [p])
  }

  /**
   * What the featured loop promises of its picks: no name twice, every pick
   * a template of its gear type in the library, of an extraordinary rarity
   * and no more than a few levels above the player.
   */
  predicate SoundPicks(lib: Library, ext: seq<GameData.Rarity>, playerLevel: int, picks: seq<(LibraryItem, string)>)
  {
    (forall k :: 0 <= k < |picks| ==> SoundPick(lib, ext, playerLevel, picks[k])) &&
    (forall j, k :: 0 <= j < k < |picks| ==> picks[j].0.name != picks[k].0.name)
  }

  /** Whether `used` holds exactly the names of the picks. */
  ghost predicate NamesOf(used: set<string>, picks: seq<(LibraryItem, string)>)
  {
    forall name :: name in used <==> exists k :: 0 <= k < |picks| && picks[k].0.name == name
  }

  /** A round that picks only sound templates under fresh names keeps the run sound. */
  lemma AdvanceSound(lib: Library, ext: seq<GameData.Rarity>, playerLevel: int, prev: Run, round: Round)
    requires SoundPicks(lib, ext, playerLevel, prev.picks) && NamesOf(prev.used, prev.picks)
    requires round.pick.Some? ==> SoundPick(lib, ext, playerLevel, round.pick.value) && round.pick.value.0.name !in prev.used
    ensures var r := Advance(prev, round);
      SoundPicks(lib, ext, playerLevel, r.picks) && NamesOf(r.used, r.picks)
  {
    if round.pick.Some? {
      var p := round.pick.value;
      var all := prev.picks + [p];
      assert forall k :: 0 <= k < |prev.picks| ==> all[k] == prev.picks[k] && prev.picks[k].0.name in prev.used;
      assert all[|prev.picks|] == p;
    }
  }

  /** The used names are exactly the names picked, and the picks are sound. */
  lemma {:induction false} FeaturedRunSound(lib: Library, ext: seq<GameData.Rarity>, playerLevel: int, seed: int, rounds: nat)
    requires ext != [] && 0 < seed < Modulus
    ensures var r := FeaturedRun(lib, ext, playerLevel, seed, rounds);
      SoundPicks(lib, ext, playerLevel, r.picks) && NamesOf(r.used, r.picks)
  {
    if rounds > 0 {
      var prev := FeaturedRun(lib, ext, playerLevel, seed, rounds - 1);
      FeaturedRunSound(lib, ext, playerLevel, seed, rounds - 1);
      FeaturedRoundSound(lib, ext, playerLevel, prev.state, prev.used);
      AdvanceSound(lib, ext, playerLevel, prev, FeaturedRound(lib, ext, playerLevel, prev.state, prev.used));
    }
  }

  /**
   * The featured items made from the picks, in order, the k-th with the id
   * of the (k + 1)-th `uid()` after the counter stood at `counter`.
   */
  function FeaturedItems(t: RarityTables, picks: seq<(LibraryItem, string)>, counter: nat, now: nat): (r: seq<GameItem>)
    requires |t.list| >= 1
    ensures |r| == |picks|
    ensures forall k :: 0 <= k < |picks| ==>
      r[k] == FeaturedItem(t, picks[k].0, picks[k].1, UidText(counter + k + 1, now))
  {
    seq(|picks|, k requires 0 <= k < |picks| => FeaturedItem(t, picks[k].0, picks[k].1, UidText(counter + k + 1, now)))
  }

  /** One more pick adds one more item, with the next id. */
  lemma FeaturedItemsSnoc(t: RarityTables, picks: seq<(LibraryItem, string)>, p: (LibraryItem, string), counter: nat, now: nat)
    requires |t.list| >= 1
    ensures FeaturedItems(t, picks + [p], counter, now) ==
      FeaturedItems(t, picks, counter, now) + [FeaturedItem(t, p.0, p.1, UidText(counter + |picks| + 1, now))]
  {
    var r, r0 := FeaturedItems(t, picks + [p], counter, now), FeaturedItems(t, picks, counter, now);
    assert forall k :: 0 <= k < |picks| ==> (picks + [p])[k] == picks[k];
    assert (picks + [p])[|picks|] == p;
  }

  /**
   * One iteration of the featured loop on the generator: draws a gear type,
   * a rarity and a template as `FeaturedRound` says, skipping the rest of
   * the iteration where the source `continue`s.
   */
  method FeaturedStep(lib: Library, ext: seq<GameData.Rarity>, playerLevel: int, rng: SeededRandom, usedNames: set<string>)
    returns (pick: Option<(LibraryItem, string)>)
    requires ext != [] && rng.Valid() && 0 < rng.s < Modulus
    modifies rng
    ensures rng.Valid() && Round(rng.s, pick) == FeaturedRound(lib, ext, playerLevel, old(rng.s), usedNames)
  {
    ghost var s0 := rng.s;
    StepStaysPositive(rng.s);
    var u := rng.Next();
    assert u == NextDraw(s0);
    var kind := GearTypes[RollIndex(u, |GearTypes|)];
    if kind !in lib {
      return None;
    }
    var pool := lib[kind];
    StepStaysPositive(rng.s);
    var rk := SeededPickWeighted(RarityWeights(ext), rng);
    var rarity := ext[rk];
    var candidates := OfRarity(pool, rarity.name, Some(Max(playerLevel + 3, 5)));
    if |candidates| == 0 {
      return None;
    }
    ghost var s2 := rng.s;
    StepStaysPositive(rng.s);
    var v := rng.Next();
    assert v == NextDraw(s2);
    var template := candidates[RollIndex(v, |candidates|)];
    if template.name in usedNames {
      return None;
    }
    pick := Some((template, kind));
  }

  /**
   * One pass of the featured loop's body: a round on the generator and, when
   * it picks a template, its name marked used and its item pushed with a
   * fresh id.
   */
  method FeaturedIteration(lib: Library, t: RarityTables, ext: seq<GameData.Rarity>, playerLevel: int,
                           rng: SeededRandom, uids: UidCounter, now: nat, usedNames: set<string>,
                           featured: seq<GameItem>, ghost done: seq<(LibraryItem, string)>, ghost counter0: nat)
    returns (usedNames': set<string>, featured': seq<GameItem>, ghost done': seq<(LibraryItem, string)>)
    requires |t.list| >= 1 && ext != [] && rng.Valid() && 0 < rng.s < Modulus
    requires featured == FeaturedItems(t, done, counter0, now) && uids.counter == counter0 + |done|
    modifies rng, uids
    ensures rng.Valid()
    ensures Run(rng.s, usedNames', done') ==
      Advance(Run(old(rng.s), usedNames, done), FeaturedRound(lib, ext, playerLevel, old(rng.s), usedNames))
    ensures featured' == FeaturedItems(t, done', counter0, now) && uids.counter == counter0 + |done'|
  {
    usedNames', featured', done' := usedNames, featured, done;
    var pick := FeaturedStep(lib, ext, playerLevel, rng, usedNames);
    if pick.Some? {
      var template, kind := pick.value.0, pick.value.1;
      usedNames' := usedNames + {template.name};
      var id := uids.Uid(now);
      FeaturedItemsSnoc(t, done, pick.value, counter0, now);
      featured' := featured + [FeaturedItem(t, template, kind, id)];
      done' := done + [pick.value];
    }
  }

  /**
   * `getDailyFeaturedItems(playerLevel)` on the day seed `daySeed` (see
   * `DaySeed`) with the clock reading `now`: the generator seeded with
   * `daySeed + playerLevel` decides the picks, so the same day and level
   * always give the same items, each with a fresh id from `uids`.
   */
  method DailyFeaturedItems(lib: Library, t: RarityTables, playerLevel: int, daySeed: int, uids: UidCounter, now: nat)
    returns (featured: seq<GameItem>)
    requires |t.list| >= 1 && Extraordinary(t.list) != []
    requires 0 < daySeed + playerLevel < Modulus
    modifies uids
    ensures var run := FeaturedRun(lib, Extraordinary(t.list), playerLevel, daySeed + playerLevel, FeaturedRounds);
      featured == FeaturedItems(t, run.picks, old(uids.counter), now) && uids.counter == old(uids.counter) + |run.picks|
  {
    var ext := Extraordinary(t.list);
    var rng := new SeededRandom(daySeed + playerLevel);
    ghost var counter0 := uids.counter;
    ghost var done: seq<(LibraryItem, string)> := [];
    featured := [];
    var usedNames: set<string> := {};
    for i := 0 to FeaturedRounds
      invariant rng.Valid()
      invariant Run(rng.s, usedNames, done) == FeaturedRun(lib, ext, playerLevel, daySeed + playerLevel, i)
      invariant featured == FeaturedItems(t, done, counter0, now)
      invariant uids.counter == counter0 + |done|
    {
      ghost var prev := Run(rng.s, usedNames, done);
      usedNames, featured, done := FeaturedIteration(lib, t, ext, playerLevel, rng, uids, now, usedNames, featured, done, counter0);
      assert FeaturedRun(lib, ext, playerLevel, daySeed + playerLevel, i + 1) ==
        Advance(prev, FeaturedRound(lib, ext, playerLevel, prev.state, prev.used));
    }
  }

  /**
   * What `getDailyFeaturedItems` promises of its items: each of a gear type
   * from the library at an extraordinary rarity, none above
   * `Max(playerLevel + 3, 5)`, selling for at least 10, no two with the
   * same name or the same id.
   */
  predicate SoundFeatured(lib: Library, ext: seq<GameData.Rarity>, playerLevel: int, featured: seq<GameItem>)
  {
    (forall k :: 0 <= k < |featured| ==>
      featured[k].kind in GearTypes && featured[k].kind in lib && featured[k].sellPrice >= 10 &&
      featured[k].level <= Max(playerLevel + 3, 5) && exists x :: x in ext && x.name == featured[k].rarity) &&
    (forall j, k :: 0 <= j < k < |featured| ==> featured[j].name != featured[k].name && featured[j].id != featured[k].id)
  }

  /** Items made from sound picks are sound: their stats come from the templates, their ids from distinct counters. */
  lemma FeaturedItemsSound(lib: Library, t: RarityTables, ext: seq<GameData.Rarity>, playerLevel: int,
                           picks: seq<(LibraryItem, string)>, counter: nat, now: nat)
    requires |t.list| >= 1 && SoundPicks(lib, ext, playerLevel, picks)
    ensures SoundFeatured(lib, ext, playerLevel, FeaturedItems(t, picks, counter, now))
  {
    var featured := FeaturedItems(t, picks, counter, now);
    forall k | 0 <= k < |featured|
      ensures featured[k].kind in GearTypes && featured[k].kind in lib && featured[k].sellPrice >= 10 &&
        featured[k].level <= Max(playerLevel + 3, 5) && exists x :: x in ext && x.name == featured[k].rarity
    {
      assert featured[k] == FeaturedItem(t, picks[k].0, picks[k].1, UidText(counter + k + 1, now));
      assert SoundPick(lib, ext, playerLevel, picks[k]);
    }
    forall j, k | 0 <= j < k < |featured|
      ensures featured[j].name != featured[k].name && featured[j].id != featured[k].id
    {
      assert featured[j] == FeaturedItem(t, picks[j].0, picks[j].1, UidText(counter + j + 1, now));
      assert featured[k] == FeaturedItem(t, picks[k].0, picks[k].1, UidText(counter + k + 1, now));
      UidTextDistinct(counter + j + 1, now, counter + k + 1, now);
    }
  }

  /**
   * What `getDailyFeaturedItems` promises: at most three items, sound in the
   * sense of `SoundFeatured`, for any seed.
   */
  lemma DailyFeaturedSound(lib: Library, t: RarityTables, playerLevel: int, seed: int, rounds: nat, counter: nat, now: nat)
    requires |t.list| >= 1 && Extraordinary(t.list) != [] && 0 < seed < Modulus
    ensures var ext := Extraordinary(t.list);
      var featured := FeaturedItems(t, FeaturedRun(lib, ext, playerLevel, seed, rounds).picks, counter, now);
      |featured| <= rounds && SoundFeatured(lib, ext, playerLevel, featured)
  {
    var ext := Extraordinary(t.list);
    FeaturedRunSound(lib, ext, playerLevel, seed, rounds);
    FeaturedItemsSound(lib, t, ext, playerLevel, FeaturedRun(lib, ext, playerLevel, seed, rounds).picks, counter, now);
  }
}
