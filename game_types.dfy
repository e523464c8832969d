/**
 * The records the client game passes around: items, the six equipment
 * slots, the hero of the reducer and of the older engine, and monsters.
 * JavaScript objects with optional numeric fields become records whose
 * missing numbers are 0 (the code reads them through `|| 0`).
 */
module GameTypes {
  import opened Common

  datatype Slot = Weapon | Shield | Helmet | Armor | Boots | Accessory

  /** The keys of `player.equipment` in declaration order, which is `Object.values` order. */
  const AllSlots: seq<Slot> := [Weapon, Shield, Helmet, Armor, Boots, Accessory]

  lemma AllSlotsComplete(s: Slot)
    ensures s in AllSlots
  {
  }

  /**
   * An inventory item. `slot` is None for consumables and materials; `kind`
   * is the item's `type` ("potion", "sword", "material", ...).
   */
  datatype GameItem = GameItem(
    id: string, name: string, kind: string, slot: Option<Slot>, rarity: string,
    level: int, atk: int, def: int, healAmount: int, sellPrice: int, buyPrice: int)

  /** `player.equipment`: an empty (null) slot is absent from the map. */
  type Equipment = map<Slot, GameItem>

  /** The sum of `item.atk` over the first n slots of AllSlots (empty slots add nothing). */
  function SlotsAtk(eq: Equipment, n: nat): int
    requires n <= |AllSlots|
  {
    if n == 0 then 0
    else SlotsAtk(eq, n - 1) + (if AllSlots[n - 1] in eq then eq[AllSlots[n - 1]].atk else 0)
  }

  /** The sum of `item.def` over the first n slots of AllSlots. */
  function SlotsDef(eq: Equipment, n: nat): int
    requires n <= |AllSlots|
  {
    if n == 0 then 0
    else SlotsDef(eq, n - 1) + (if AllSlots[n - 1] in eq then eq[AllSlots[n - 1]].def else 0)
  }

  function EquipAtk(eq: Equipment): int { SlotsAtk(eq, |AllSlots|) }

  function EquipDef(eq: Equipment): int { SlotsDef(eq, |AllSlots|) }

  /** Equipment whose items have no negative stats adds no negative stats. */
  lemma {:induction false} EquipStatsNonNegative(eq: Equipment, n: nat)
    requires n <= |AllSlots|
    requires forall s :: s in eq ==> eq[s].atk >= 0 && eq[s].def >= 0
    ensures SlotsAtk(eq, n) >= 0 && SlotsDef(eq, n) >= 0
  {
    if n > 0 {
      EquipStatsNonNegative(eq, n - 1);
    }
  }

  /** The player record of the reducer (`useGameState`) and of the older engine (`js/engine.js`). */
  datatype Hero = Hero(
    level: int, exp: int, expToLevel: int, maxHp: int, hp: int,
    baseAtk: int, baseDef: int, gold: int,
    equipment: Equipment, inventory: seq<GameItem>, maxInventory: int)

  /** One entry of a monster's drop table. */
  datatype Drop = Drop(kind: string, weight: int)

  /** A spawned monster or boss. */
  datatype Monster = Monster(
    id: string, name: string, maxHp: int, hp: int, atk: int, def: int, exp: int, gold: int,
    skills: seq<string>, dropTable: seq<Drop>, level: int, isBoss: bool, title: string)

  /** `inventory.filter(i => i.id !== id)` */
  function RemoveId(inv: seq<GameItem>, id: string): (r: seq<GameItem>)
    ensures |r| <= |inv|
    ensures forall k :: 0 <= k < |r| ==> r[k].id != id && r[k] in inv
    ensures (exists k :: 0 <= k < |inv| && inv[k].id == id) ==> |r| < |inv|
    ensures (forall k :: 0 <= k < |inv| ==> inv[k].id != id) ==> r == inv
  {
    if inv == [] then []
    else if inv[0].id == id then RemoveId(inv[1..], id)
    else [inv[0]] + RemoveId(inv[1..], id)
  }

  /** Filtering keeps every item with another id, with its multiplicity. */
  lemma {:induction false} RemoveIdKeepsOthers(inv: seq<GameItem>, id: string, x: GameItem)
    requires x.id != id
    ensures multiset(RemoveId(inv, id))[x] == multiset(inv)[x]
  {
    if inv != [] {
      var head, tail := inv[0], inv[1..];
      var r := RemoveId(tail, id);
      RemoveIdKeepsOthers(tail, id, x);
      assert inv == [head] + tail;
      assert multiset(inv)[x] == multiset{head}[x] + multiset(tail)[x];
      if head.id == id {
        assert RemoveId(inv, id) == r;
        assert head != x;
      } else {
        assert RemoveId(inv, id) == [head] + r;
        assert multiset([head] + r)[x] == multiset{head}[x] + multiset(r)[x];
      }
    }
  }
}
