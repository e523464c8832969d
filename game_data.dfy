/**
 * The game's data helpers: the experience curve, random item generation,
 * the potion shop, monster drops and the damage roll. The item templates
 * are a parameter; the rarity table is transcribed, its multipliers in
 * tenths. Every `Math.random()` arrives as a roll drawn by the caller.
 */
module GameData {
  import opened Common
  import opened GameTypes
  import opened Utils

  // ---------------------------------------------------------------------------
  // expForLevel(level)

  /**
   * `Math.floor(50 * Math.pow(level, 1.5))`: the largest integer not above
   * 50·level^1.5, that is the integer square root of 2500·level³.
   */
  function ExpForLevel(level: nat): (r: nat)
    ensures r * r <= 2500 * (level * level * level) < (r + 1) * (r + 1)
  {
    var cube := Cube(level);
    ISqrt(2500 * cube)
  }

  function Cube(n: nat): (c: nat)
    ensures c == n * n * n
  {
    var sq: nat := n * n;
    sq * n
  }

  /** A new hero needs 50 experience for the first level-up. */
  lemma ExpForLevelOne()
    ensures ExpForLevel(1) == 50
  {
    ISqrtUnique(2500, 50);
  }

  /** Every level costs at least 50 per level, so never zero. */
  lemma ExpForLevelAtLeast(level: nat)
    requires level >= 1
    ensures ExpForLevel(level) >= 50 * level
  {
    assert (50 * level) * (50 * level) == 2500 * (level * level) <= 2500 * (level * level * level);
    ISqrtMaximal(2500 * (level * level * level), 50 * level);
  }

  /** Higher levels never need less experience. */
  lemma ExpForLevelMono(a: nat, b: nat)
    requires a <= b
    ensures ExpForLevel(a) <= ExpForLevel(b)
  {
    CubeMono(a, b);
    ISqrtMaximal(2500 * (b * b * b), ExpForLevel(a));
  }

  // ---------------------------------------------------------------------------
  // RARITIES, ITEM_TEMPLATES

  /** An entry of `RARITIES`: `multiplier` is `tenths / 10`. */
  datatype Rarity = Rarity(name: string, tenths: int, weight: int)

  const Rarities: seq<Rarity> := [
    Rarity("Common", 10, 60), Rarity("Uncommon", 13, 25), Rarity("Rare", 17, 10),
    Rarity("Epic", 22, 4), Rarity("Legendary", 30, 1)]

  const RarityWeights: seq<int> := [60, 25, 10, 4, 1]

  lemma RarityTable()
    ensures |Rarities| == |RarityWeights| == 5
    ensures forall i :: 0 <= i < 5 ==> Rarities[i].weight == RarityWeights[i] && Rarities[i].tenths >= 10
    ensures Total(RarityWeights) == 100
  {
  }

  /** An entry of `ITEM_TEMPLATES`: potions have no slot. */
  datatype ItemTemplate = ItemTemplate(names: seq<string>, slot: Option<Slot>, baseAtk: int, baseDef: int)

  // ---------------------------------------------------------------------------
  // generateItem(dropType, monsterLevel)

  /** A gear stat: `Math.floor(base * rarity.multiplier * (1 + level * 0.15))`, or 0 when the template has none. */
  function GearStat(base: int, tenths: int, monsterLevel: int): (r: int)
    ensures base <= 0 ==> r == 0
    ensures base > 0 && tenths >= 10 && monsterLevel >= 0 ==> r >= base
  {
    if base > 0 then
      var s := FloorFrac(base * tenths, 100 + 15 * monsterLevel, 1000);
      assert tenths >= 10 && monsterLevel >= 0 ==> s >= base by {
        if tenths >= 10 && monsterLevel >= 0 {
          assert base * tenths >= base * 10;
          assert base * tenths * (100 + 15 * monsterLevel) >= base * 10 * 100 by {
            assert base * tenths * (100 + 15 * monsterLevel) - base * tenths * 100 == base * tenths * (15 * monsterLevel);
          }
          MulCancel(base, s + 1, 1000);
        }
      }
      s
    else 0
  }

  /** A potion's heal: `Math.floor(20 + monsterLevel * 5 * rarity.multiplier)`. */
  function PotionHeal(tenths: int, monsterLevel: int): (h: int)
    ensures tenths >= 0 && monsterLevel >= 0 ==> h >= 20
  {
    20 + FloorFrac(monsterLevel * tenths, 1, 2)
  }

  /**
   * `generateItem(dropType, monsterLevel)` with `rarityRoll` the roll of
   * `pickWeighted(RARITIES)` and `id` the next `uid()`. Unknown types give
   * null. The name tier follows the rarity, capped at the last name; a
   * potion has no slot and no stats; gear never has a stat its template
   * lacks, and never a stat below the template's.
   */
  function GenerateItem(templates: map<string, ItemTemplate>, dropType: string, monsterLevel: int,
                        rarityRoll: real, id: string): (r: Option<GameItem>)
    requires dropType in templates ==> |templates[dropType].names| >= 1
    ensures r.None? <==> dropType !in templates
    ensures r.Some? ==>
      var t := templates[dropType]; var ri := PickIndex(RarityWeights, rarityRoll); var it := r.value;
      0 <= ri < 5 && it.id == id && it.kind == dropType && it.slot == t.slot &&
      it.name == t.names[Min(ri, |t.names| - 1)] && it.rarity == Rarities[ri].name
    ensures r.Some? && r.value.slot.None? ==>
      var it := r.value;
      it.atk == 0 && it.def == 0 && it.sellPrice == it.healAmount / 2 &&
      (monsterLevel >= 0 ==> it.healAmount >= 20)
    ensures r.Some? && r.value.slot.Some? ==>
      var t := templates[dropType]; var it := r.value;
      it.healAmount == 0 &&
      (t.baseAtk <= 0 ==> it.atk == 0) && (t.baseDef <= 0 ==> it.def == 0) &&
      (monsterLevel >= 0 ==> it.atk >= Max(0, t.baseAtk) && it.def >= Max(0, t.baseDef) && it.sellPrice >= 0)
  {
    if dropType !in templates then None
    else
      var t := templates[dropType];
      var ri := PickIndex(RarityWeights, rarityRoll);
      var rarity := Rarities[ri];
      var name := t.names[Min(ri, |t.names| - 1)];
      if t.slot.None? then
        var heal := PotionHeal(rarity.tenths, monsterLevel);
        Some(GameItem(id, name, dropType, None, rarity.name, 0, 0, 0, heal, FloorFrac(heal, 1, 2), 0))
      else
        var atk := GearStat(t.baseAtk, rarity.tenths, monsterLevel);
        var def := GearStat(t.baseDef, rarity.tenths, monsterLevel);
        Some(GameItem(id, name, dropType, t.slot, rarity.name, 0, atk, def, 0, (atk + def) * 3 + ri * 5, 0))
  }

  // ---------------------------------------------------------------------------
  // getShopItems(playerLevel)

  const ShopPotionNames: seq<string> := ["Small Potion", "Medium Potion", "Large Potion"]

  /** The i-th shop potion (`i` in 0..2), with `id` from `uid()`. */
  function ShopPotion(playerLevel: int, i: nat, id: string): (it: GameItem)
    requires i < 3
    ensures it.healAmount == 30 + 8 * playerLevel + 15 * i
    ensures it.buyPrice == it.healAmount + it.healAmount / 2 && it.sellPrice == it.healAmount / 2
    ensures it.kind == "potion" && it.slot.None? && it.rarity == "Common" && it.name == ShopPotionNames[i] && it.id == id
  {
    var heal := 30 + playerLevel * 8 + i * 15;
    GameItem(id, ShopPotionNames[i], "potion", None, "Common", 0, 0, 0, heal, FloorFrac(heal, 1, 2), FloorFrac(heal, 3, 2))
  }

  /** `getShopItems(playerLevel)`: three potions, each 15 hp stronger than the one before. */
  function ShopItems(playerLevel: int, ids: seq<string>): (r: seq<GameItem>)
    requires |ids| == 3
    ensures |r| == 3 && forall i :: 0 <= i < 3 ==> r[i] == ShopPotion(playerLevel, i, ids[i])
  {
    [ShopPotion(playerLevel, 0, ids[0]), ShopPotion(playerLevel, 1, ids[1]), ShopPotion(playerLevel, 2, ids[2])]
  }

  /**
   * Buying a shop potion and selling it back costs exactly its heal amount;
   * for a player of level 0 or more, each potion sells for less than it costs
   * and heals 15 more than the one before it.
   */
  lemma {:induction false} ShopPrices(playerLevel: int, ids: seq<string>)
    requires |ids| == 3 && playerLevel >= 0
    ensures var r := ShopItems(playerLevel, ids);
      forall i :: 0 <= i < 3 ==>
        r[i].buyPrice - r[i].sellPrice == r[i].healAmount && 0 < r[i].sellPrice < r[i].buyPrice &&
        (i > 0 ==> r[i].healAmount == r[i - 1].healAmount + 15)
  {
    var r := ShopItems(playerLevel, ids);
    forall i | 0 <= i < 3
      ensures r[i].buyPrice - r[i].sellPrice == r[i].healAmount && 0 < r[i].sellPrice < r[i].buyPrice
    {
      assert r[i] == ShopPotion(playerLevel, i, ids[i]);
      assert r[i].healAmount >= 30;
    }
  }

  // ---------------------------------------------------------------------------
  // rollDrop(dropTable, monsterLevel)

  function DropWeights(table: seq<Drop>): (ws: seq<int>)
    ensures |ws| == |table| && forall i :: 0 <= i < |table| ==> ws[i] == table[i].weight
  {
    seq(|table|, i requires 0 <= i < |table| => table[i].weight)
  }

  /**
   * `rollDrop(dropTable, monsterLevel)`: `chance` is `Math.random() * 100`
   * and `pickRoll` the roll of `pickWeighted(dropTable)`. A missing (empty)
   * table, or a chance at or above the table's total weight, drops nothing;
   * otherwise the item is generated for one of the table's types.
   */
  function RollDrop(templates: map<string, ItemTemplate>, table: seq<Drop>, monsterLevel: int,
                    chance: real, pickRoll: real, rarityRoll: real, id: string): (r: Option<GameItem>)
    requires forall t :: t in templates ==> |templates[t].names| >= 1
    ensures table == [] ==> r.None?
    ensures table != [] && chance >= Total(DropWeights(table)) as real ==> r.None?
    ensures r.Some? ==> exists k :: 0 <= k < |table| && r.value.kind == table[k].kind
    ensures table != [] && chance < Total(DropWeights(table)) as real ==>
      r == GenerateItem(templates, table[PickIndex(DropWeights(table), pickRoll)].kind, monsterLevel, rarityRoll, id)
  {
    if table == [] then None
    else if chance >= Total(DropWeights(table)) as real then None
    else
      var k := PickIndex(DropWeights(table), pickRoll);
      GenerateItem(templates, table[k].kind, monsterLevel, rarityRoll, id)
  }

  // ---------------------------------------------------------------------------
  // calcDamage(atk, def)

  /** `Math.max(1, atk - def * 0.5)` */
  function DamageBase(atk: int, def: int): (b: real)
    ensures b >= 1.0
  {
    var d := atk as real - def as real * 0.5;
    if d >= 1.0 then d else 1.0
  }

  /**
   * `calcDamage(atk, def)` with `u` the `Math.random()` of the variance
   * `0.85 + u * 0.3`: at least 1, and within 85 % .. 115 % of the base.
   */
  function CalcDamage(atk: int, def: int, u: real): (r: int)
    requires 0.0 <= u < 1.0
    ensures r >= 1
    ensures (DamageBase(atk, def) * 0.85).Floor <= r
    ensures r as real <= DamageBase(atk, def) * 1.15
  {
    var base := DamageBase(atk, def);
    var variance := 0.85 + u * 0.3;
    assert base * 0.85 <= base * variance <= base * 1.15 by {
      assert base * variance - base * 0.85 == base * (u * 0.3);
      assert base * 1.15 - base * variance == base * (0.3 - u * 0.3);
    }
    Max(1, (base * variance).Floor)
  }
}
