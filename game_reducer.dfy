/**
 * The game-state reducer of the React client (`useGameState`): the hero's
 * attack and defence, level-ups after a victory, and the reducer cases for
 * the inventory, the inn and the battle. The state transitions on the hero
 * are functions returning an `Outcome`, which the older imperative engine
 * reuses; `Math.random()` draws and fresh ids are parameters.
 */
module GameReducer {
  import opened Common
  import opened GameTypes
  import opened Utils
  import opened GameData

  // ---------------------------------------------------------------------------
  // State

  /** `state.battle` while a fight is on. */
  datatype BattleState = BattleState(
    monster: Monster, isPlayerTurn: bool, defending: bool,
    poisonTurns: int, atkDebuff: int, defDebuff: int)

  /** The stat increases of one level-up (`{ hpGain, atkGain, defGain }`). */
  datatype Gain = Gain(hpGain: int, atkGain: int, defGain: int)

  /** `8 + floor(r * 5)`, `1 + floor(r * 2)`, `1 + floor(r * 2)` for draws r in [0, 1). */
  predicate GainInRange(g: Gain)
  {
    8 <= g.hpGain <= 12 && 1 <= g.atkGain <= 2 && 1 <= g.defGain <= 2
  }

  /** The lines of `battleLog`, by what they report; `type` is the CSS class. */
  datatype BattleEvent =
    | Appears(monsterName: string)
    | YouAttack(dmg: int)
    | PowerStrike(dmg: int)
    | Brace
    | UsedPotion(potionName: string, healed: int)
    | FailedEscape
    | MonsterAttacks(monsterName: string, dmg: int)
    | MonsterSkill(monsterName: string, skillName: string, dmg: int)
    | Poisoned
    | DefenseDropped
    | AttackDropped
    | GoldStolen(stolen: int)
    | PoisonDamage(dmg: int)

  /** The transient messages (`state.message` here, `showMessage` in the engine). */
  datatype Note =
    | NotEnoughGoldForInn | HpRestored | InventoryFull | HpAlreadyFull | Healed(amount: int)
    | SoldFor(price: int) | NotEnoughGold | Purchased(itemName: string) | NoPotions

  datatype BattleResult =
    | Victory(expGain: int, goldGain: int, droppedItem: Option<GameItem>, levelUps: seq<Gain>, newLevel: int)
    | Defeated(goldLost: int)

  /** A location; only its name is read by the cases modelled here. */
  datatype Location = Location(name: string)

  datatype GameState = GameState(
    screen: string, player: Hero, currentLocation: Option<Location>, battle: Option<BattleState>,
    battleLog: seq<BattleEvent>, battleResult: Option<BattleResult>, exploreText: string, message: Option<Note>)

  /**
   * `createInitialPlayer()` (and the player of `startGame` in the engine):
   * level 1 with the first threshold of the experience curve, 50 hp, 30
   * gold, nothing equipped and an empty inventory of 20 places.
   */
  function InitialHero(): (h: Hero)
    ensures h.level == 1 && h.exp == 0 && h.expToLevel == 50
    ensures h.maxHp == h.hp == 50 && h.baseAtk == 5 && h.baseDef == 2 && h.gold == 30
    ensures h.equipment == map[] && h.inventory == [] && h.maxInventory == 20
  {
    ExpForLevelOne();
    Hero(1, 0, ExpForLevel(1), 50, 50, 5, 2, 30, map[], [], 20)
  }

  /** `START_GAME` */
  function StartGame(state: GameState): (r: GameState)
    ensures r.screen == "town" && r.player == InitialHero()
    ensures r == state.(screen := r.screen, player := r.player)
  {
    state.(screen := "town", player := InitialHero())
  }

  // ---------------------------------------------------------------------------
  // getPlayerAtk(player, battle), getPlayerDef(player, battle)

  /** `battle?.atkDebuff || 0` */
  function AtkDebuff(battle: Option<BattleState>): int
  {
    if battle.Some? then battle.value.atkDebuff else 0
  }

  /** `battle?.defDebuff || 0` */
  function DefDebuff(battle: Option<BattleState>): int
  {
    if battle.Some? then battle.value.defDebuff else 0
  }

  /** The attack: base attack plus every equipped item's attack, less the debuff, never below 1. */
  function PlayerAtk(h: Hero, debuff: int): (r: int)
    ensures r >= 1 && r >= h.baseAtk + EquipAtk(h.equipment) - debuff
    ensures h.baseAtk + EquipAtk(h.equipment) - debuff >= 1 ==> r == h.baseAtk + EquipAtk(h.equipment) - debuff
  {
    Max(1, h.baseAtk + EquipAtk(h.equipment) - debuff)
  }

  /** The defence: base defence plus every equipped item's defence, less the debuff, never below 0. */
  function PlayerDef(h: Hero, debuff: int): (r: int)
    ensures r >= 0 && r >= h.baseDef + EquipDef(h.equipment) - debuff
    ensures h.baseDef + EquipDef(h.equipment) - debuff >= 0 ==> r == h.baseDef + EquipDef(h.equipment) - debuff
  {
    Max(0, h.baseDef + EquipDef(h.equipment) - debuff)
  }

  /** A larger debuff never raises attack or defence. */
  lemma DebuffsOnlyLower(h: Hero, d1: int, d2: int)
    requires d1 <= d2
    ensures PlayerAtk(h, d2) <= PlayerAtk(h, d1) && PlayerDef(h, d2) <= PlayerDef(h, d1)
  {
  }

  /** Equipment with no negative stats never makes the hero weaker than bare-handed. */
  lemma EquipmentOnlyHelps(h: Hero, debuff: int)
    requires forall s :: s in h.equipment ==> h.equipment[s].atk >= 0 && h.equipment[s].def >= 0
    ensures PlayerAtk(h, debuff) >= Max(1, h.baseAtk - debuff)
    ensures PlayerDef(h, debuff) >= Max(0, h.baseDef - debuff)
  {
    EquipStatsNonNegative(h.equipment, |AllSlots|);
  }

  /** The `for … of Object.values(player.equipment)` loop of the attack. */
  method ComputeAtk(h: Hero, debuff: int) returns (atk: int)
    ensures atk == PlayerAtk(h, debuff)
  {
    atk := h.baseAtk;
    for n := 0 to |AllSlots|
      invariant atk == h.baseAtk + SlotsAtk(h.equipment, n)
    {
      var slot := AllSlots[n];
      if slot in h.equipment {
        atk := atk + h.equipment[slot].atk;
      }
    }
    atk := Max(1, atk - debuff);
  }

  /** The same loop for defence. */
  method ComputeDef(h: Hero, debuff: int) returns (def: int)
    ensures def == PlayerDef(h, debuff)
  {
    def := h.baseDef;
    for n := 0 to |AllSlots|
      invariant def == h.baseDef + SlotsDef(h.equipment, n)
    {
      var slot := AllSlots[n];
      if slot in h.equipment {
        def := def + h.equipment[slot].def;
      }
    }
    def := Max(0, def - debuff);
  }

  /** `getPlayerAtk(player, battle)` */
  method GetPlayerAtk(h: Hero, battle: Option<BattleState>) returns (atk: int)
    ensures atk == PlayerAtk(h, AtkDebuff(battle)) && atk >= 1
  {
    atk := ComputeAtk(h, AtkDebuff(battle));
  }

  /** `getPlayerDef(player, battle)` */
  method GetPlayerDef(h: Hero, battle: Option<BattleState>) returns (def: int)
    ensures def == PlayerDef(h, DefDebuff(battle)) && def >= 0
  {
    def := ComputeDef(h, DefDebuff(battle));
  }

  // ---------------------------------------------------------------------------
  // processLevelUps(player)

  /** The hero after the level-ups, and the gains recorded on the way. */
  datatype Leveled = Leveled(player: Hero, gains: seq<Gain>)

  /** One pass of the level-up loop, with `g` the gain drawn for it. */
  function LevelOnce(h: Hero, g: Gain): Hero
    requires h.level >= 0
  {
    var level := h.level + 1;
    h.(exp := h.exp - h.expToLevel, level := level, expToLevel := ExpForLevel(level),
       maxHp := h.maxHp + g.hpGain, hp := h.maxHp + g.hpGain,
       baseAtk := h.baseAtk + g.atkGain, baseDef := h.baseDef + g.defGain)
  }

  /**
   * The loop of `processLevelUps` from its n-th pass on: `gains(n)` is what
   * the n-th pass draws. The loop stops because every threshold is at
   * least 1 (the first is the player's, the later ones come from the
   * experience curve).
   */
  function LevelUps(h: Hero, gains: nat -> Gain, n: nat): (r: Leveled)
    requires h.level >= 0 && h.expToLevel >= 1
    decreases h.exp
  {
    if h.exp < h.expToLevel then Leveled(h, [])
    else
      ExpForLevelAtLeast(h.level + 1);
      var rest := LevelUps(LevelOnce(h, gains(n)), gains, n + 1);
      Leveled(rest.player, [gains(n)] + rest.gains)
  }

  /** The sum of a field over a sequence of gains. */
  function SumHp(gs: seq<Gain>): int
  {
    if gs == [] then 0 else gs[0].hpGain + SumHp(gs[1..])
  }

  /**
   * What `processLevelUps` promises: experience ends below the next
   * threshold, the level grows by the number of recorded gains, the gains
   * are the draws in order, max hp grows by their sum, hp is refilled after
   * any level-up, and gold, equipment and inventory are untouched.
   */
  lemma {:induction false} LevelUpsMeaning(h: Hero, gains: nat -> Gain, n: nat)
    requires h.level >= 0 && h.expToLevel >= 1
    ensures var r := LevelUps(h, gains, n);
      r.player.exp < r.player.expToLevel &&
      r.player.level == h.level + |r.gains| &&
      (forall k :: 0 <= k < |r.gains| ==> r.gains[k] == gains(n + k)) &&
      r.player.maxHp == h.maxHp + SumHp(r.gains) &&
      (r.gains == [] ==> r.player == h) &&
      (r.gains != [] ==> r.player.hp == r.player.maxHp && r.player.expToLevel == ExpForLevel(r.player.level)) &&
      (h.exp >= 0 ==> r.player.exp >= 0) &&
      (h.exp >= h.expToLevel <==> r.gains != []) &&
      r.player.gold == h.gold && r.player.equipment == h.equipment && r.player.inventory == h.inventory &&
      r.player.maxInventory == h.maxInventory
    decreases h.exp
  {
    if h.exp >= h.expToLevel {
      ExpForLevelAtLeast(h.level + 1);
      var h' := LevelOnce(h, gains(n));
      LevelUpsMeaning(h', gains, n + 1);
      var rest := LevelUps(h', gains, n + 1);
      var r := LevelUps(h, gains, n);
      assert r.gains == [gains(n)] + rest.gains;
      assert r.gains[1..] == rest.gains;
      forall k | 0 <= k < |r.gains|
        ensures r.gains[k] == gains(n + k)
      {
        if k > 0 {
          assert r.gains[k] == rest.gains[k - 1];
        }
      }
    }
  }

  /** With every draw in range, each level adds 8 to 12 max hp. */
  lemma {:induction false} LevelUpHpBounds(h: Hero, gains: nat -> Gain, n: nat)
    requires h.level >= 0 && h.expToLevel >= 1
    requires forall k :: GainInRange(gains(k))
    ensures var r := LevelUps(h, gains, n);
      h.maxHp + 8 * |r.gains| <= r.player.maxHp <= h.maxHp + 12 * |r.gains|
    decreases h.exp
  {
    LevelUpsMeaning(h, gains, n);
    if h.exp >= h.expToLevel {
      ExpForLevelAtLeast(h.level + 1);
      var h' := LevelOnce(h, gains(n));
      LevelUpHpBounds(h', gains, n + 1);
      LevelUpsMeaning(h', gains, n + 1);
      assert GainInRange(gains(n));
    }
  }

  /** One pass of the loop: the level-ups from h are the gain drawn now followed by those after it. */
  lemma LevelUpsStep(h: Hero, gains: nat -> Gain, n: nat)
    requires h.level >= 0 && h.expToLevel >= 1 && h.exp >= h.expToLevel
    ensures var h' := LevelOnce(h, gains(n));
      h'.level >= 0 && h'.expToLevel >= 1 &&
      LevelUps(h, gains, n) == Leveled(LevelUps(h', gains, n + 1).player, [gains(n)] + LevelUps(h', gains, n + 1).gains)
  {
    ExpForLevelAtLeast(h.level + 1);
    var h' := LevelOnce(h, gains(n));
    assert h'.expToLevel == ExpForLevel(h.level + 1) >= 1;
    assert !(h.exp < h.expToLevel);
  }

  /** `processLevelUps(player)`: the `while` loop over a copy of the player. */
  method ProcessLevelUps(player: Hero, gains: nat -> Gain) returns (r: Leveled)
    requires player.level >= 0 && player.expToLevel >= 1
    ensures r == LevelUps(player, gains, 0)
    ensures r.player.exp < r.player.expToLevel && r.player.level == player.level + |r.gains|
  {
    var p := player;
    var gs: seq<Gain> := [];
    while p.exp >= p.expToLevel
      invariant p.level >= 0 && p.expToLevel >= 1
      invariant gs + LevelUps(p, gains, |gs|).gains == LevelUps(player, gains, 0).gains
      invariant LevelUps(p, gains, |gs|).player == LevelUps(player, gains, 0).player
      decreases p.exp
    {
      var g := gains(|gs|);
      ghost var next := LevelOnce(p, g);
      LevelUpsStep(p, gains, |gs|);
      ghost var rest := LevelUps(next, gains, |gs| + 1).gains;
      assert gs + [g] + rest == gs + ([g] + rest);
      p := p.(exp := p.exp - p.expToLevel);
      p := p.(level := p.level + 1);
      p := p.(expToLevel := ExpForLevel(p.level));
      p := p.(maxHp := p.maxHp + g.hpGain);
      p := p.(hp := p.maxHp);
      p := p.(baseAtk := p.baseAtk + g.atkGain, baseDef := p.baseDef + g.defGain);
      assert p == next;
      gs := gs + [g];
    }
    r := Leveled(p, gs);
    LevelUpsMeaning(player, gains, 0);
  }

  // ---------------------------------------------------------------------------
  // Hero transitions shared by the reducer and the engine

  /** A refused action only shows a note; `Unchanged` does nothing at all. */
  datatype Outcome = Refused(why: Note) | Unchanged | Changed(hero: Hero, note: Option<Note>)

  /** The rest at the inn: ten gold for full hp. */
  function Rest(h: Hero): (o: Outcome)
    ensures o.Refused? <==> h.gold < 10
    ensures o.Refused? ==> o.why == NotEnoughGoldForInn
    ensures o.Changed? ==>
      o.hero.hp == h.maxHp && o.hero.gold == h.gold - 10 >= 0 &&
      o.hero.(gold := h.gold, hp := h.hp) == h && o.note == Some(HpRestored)
  {
    if h.gold < 10 then Refused(NotEnoughGoldForInn)
    else Changed(h.(gold := h.gold - 10, hp := h.maxHp), Some(HpRestored))
  }

  /** How many inventory entries carry the id. */
  function CountId(inv: seq<GameItem>, id: string): (c: nat)
    ensures c <= |inv|
    ensures c == 0 <==> forall k :: 0 <= k < |inv| ==> inv[k].id != id
  {
    if inv == [] then 0 else (if inv[0].id == id then 1 else 0) + CountId(inv[1..], id)
  }

  /** Filtering out an id removes exactly its entries. */
  lemma {:induction false} RemoveIdCount(inv: seq<GameItem>, id: string)
    ensures |RemoveId(inv, id)| == |inv| - CountId(inv, id)
  {
    if inv != [] {
      RemoveIdCount(inv[1..], id);
    }
  }

  lemma {:induction false} CountIdAppend(a: seq<GameItem>, b: seq<GameItem>, id: string)
    ensures CountId(a + b, id) == CountId(a, id) + CountId(b, id)
  {
    if a == [] {
      assert a + b == b;
    } else {
      assert (a + b)[0] == a[0] && (a + b)[1..] == a[1..] + b;
      CountIdAppend(a[1..], b, id);
    }
  }

  /** What the slot held before, if anything. */
  function Occupant(h: Hero, s: Slot): Option<GameItem>
  {
    if s in h.equipment then Some(h.equipment[s]) else None
  }

  /**
   * `EQUIP_ITEM` and `_equipItem`: the previous occupant goes back to the
   * inventory, the item takes the slot, and every inventory entry with the
   * item's id is filtered out. Items without a slot are never offered.
   */
  function Equip(h: Hero, item: GameItem): (r: Hero)
    requires item.slot.Some?
    ensures r.equipment == h.equipment[item.slot.value := item]
    ensures forall k :: 0 <= k < |r.inventory| ==> r.inventory[k].id != item.id
    ensures r == h.(equipment := r.equipment, inventory := r.inventory)
  {
    var s := item.slot.value;
    var inv := if s in h.equipment then h.inventory + [h.equipment[s]] else h.inventory;
    h.(equipment := h.equipment[s := item], inventory := RemoveId(inv, item.id))
  }

  /**
   * Equipping swaps one for one: every other item keeps its count, the
   * previous occupant (when it is a different item) is back in the
   * inventory, and the inventory's size changes by the occupant returned
   * less the entries of the equipped item.
   */
  lemma EquipSwaps(h: Hero, item: GameItem)
    requires item.slot.Some?
    ensures var r := Equip(h, item); var old_ := Occupant(h, item.slot.value);
      var back := old_.Some? && old_.value.id != item.id;
      (forall x: GameItem :: x.id != item.id ==>
        multiset(r.inventory)[x] == multiset(h.inventory)[x] + (if old_ == Some(x) then 1 else 0)) &&
      (back ==> old_.value in r.inventory) &&
      |r.inventory| == |h.inventory| + (if back then 1 else 0) - CountId(h.inventory, item.id)
  {
    var s := item.slot.value;
    var inv := if s in h.equipment then h.inventory + [h.equipment[s]] else h.inventory;
    forall x: GameItem | x.id != item.id
      ensures multiset(Equip(h, item).inventory)[x] == multiset(h.inventory)[x] + (if Occupant(h, s) == Some(x) then 1 else 0)
    {
      RemoveIdKeepsOthers(inv, item.id, x);
    }
    RemoveIdCount(inv, item.id);
    if s in h.equipment {
      CountIdAppend(h.inventory, [h.equipment[s]], item.id);
      var o := h.equipment[s];
      if o.id != item.id {
        RemoveIdKeepsOthers(inv, item.id, o);
        assert multiset(inv)[o] > 0;
      }
    }
  }

  /**
   * `UNEQUIP_ITEM` and `_unequipItem`: refused on a full inventory, nothing
   * for an empty slot, otherwise the item moves to the end of the inventory.
   */
  function Unequip(h: Hero, s: Slot): (o: Outcome)
    ensures o.Refused? <==> |h.inventory| >= h.maxInventory
    ensures o.Refused? ==> o.why == InventoryFull
    ensures o.Unchanged? <==> |h.inventory| < h.maxInventory && s !in h.equipment
    ensures o.Changed? ==>
      s in h.equipment && o.hero.inventory == h.inventory + [h.equipment[s]] &&
      o.hero.equipment == h.equipment - {s} && |o.hero.inventory| <= h.maxInventory &&
      o.hero == h.(inventory := o.hero.inventory, equipment := o.hero.equipment) && o.note == None
  {
    if |h.inventory| >= h.maxInventory then Refused(InventoryFull)
    else if s !in h.equipment then Unchanged
    else Changed(h.(inventory := h.inventory + [h.equipment[s]], equipment := h.equipment - {s}), None)
  }

  /** Unequipping a slot just filled by equipping gives the item back and leaves the slot empty. */
  lemma EquipThenUnequip(h: Hero, item: GameItem)
    requires item.slot.Some? && item.slot.value !in h.equipment
    requires |RemoveId(h.inventory, item.id)| < h.maxInventory
    ensures var o := Unequip(Equip(h, item), item.slot.value);
      o.Changed? && o.hero.inventory == RemoveId(h.inventory, item.id) + [item] &&
      o.hero.equipment == h.equipment
  {
  }

  /** The hp a potion restores: `Math.min(healAmount, maxHp - hp)`. */
  function HealedBy(h: Hero, item: GameItem): int
  {
    Min(item.healAmount, h.maxHp - h.hp)
  }

  /**
   * `USE_ITEM` and `_useItem`: a potion heals up to max hp and is used up;
   * it is refused when it would heal nothing; any other item does nothing.
   */
  function UseItem(h: Hero, item: GameItem): (o: Outcome)
    ensures item.kind != "potion" <==> o.Unchanged?
    ensures o.Refused? <==> item.kind == "potion" && HealedBy(h, item) == 0
    ensures o.Refused? ==> o.why == HpAlreadyFull
    ensures o.Changed? ==>
      o.hero.hp == Min(h.hp + item.healAmount, h.maxHp) && o.hero.hp <= h.maxHp &&
      o.hero.inventory == RemoveId(h.inventory, item.id) &&
      o.hero == h.(hp := o.hero.hp, inventory := o.hero.inventory) &&
      o.note == Some(Healed(o.hero.hp - h.hp))
  {
    if item.kind == "potion" then
      var healed := HealedBy(h, item);
      if healed == 0 then Refused(HpAlreadyFull)
      else Changed(h.(hp := h.hp + healed, inventory := RemoveId(h.inventory, item.id)), Some(Healed(healed)))
    else Unchanged
  }

  /** A potion with a non-negative heal, used at hp within [0, max], keeps hp within [0, max] and never lowers it. */
  lemma UseItemKeepsHpInRange(h: Hero, item: GameItem)
    requires 0 <= h.hp <= h.maxHp && item.healAmount >= 0
    ensures var o := UseItem(h, item);
      o.Changed? ==> h.hp < o.hero.hp <= h.maxHp
    ensures UseItem(h, item).Refused? <==> item.kind == "potion" && (h.hp == h.maxHp || item.healAmount == 0)
  {
  }

  /** `SELL_ITEM` and `_sellItem`: the sell price is paid and the item's id leaves the inventory. */
  function Sell(h: Hero, item: GameItem): (r: Hero)
    ensures r.gold == h.gold + item.sellPrice
    ensures r.inventory == RemoveId(h.inventory, item.id)
    ensures r == h.(gold := r.gold, inventory := r.inventory)
  {
    h.(gold := h.gold + item.sellPrice, inventory := RemoveId(h.inventory, item.id))
  }

  /** The copy that is bought: a fresh id and no buy price (`delete newItem.buyPrice`). */
  function Bought(item: GameItem, newId: string): GameItem
  {
    item.(id := newId, buyPrice := 0)
  }

  /**
   * `BUY_ITEM` and `_buyItem`: gold is checked before capacity; a purchase
   * costs the buy price and appends one copy of the item.
   */
  function Buy(h: Hero, item: GameItem, newId: string): (o: Outcome)
    ensures o.Refused? <==> h.gold < item.buyPrice || |h.inventory| >= h.maxInventory
    ensures o == Refused(NotEnoughGold) <==> h.gold < item.buyPrice
    ensures o == Refused(InventoryFull) <==> h.gold >= item.buyPrice && |h.inventory| >= h.maxInventory
    ensures o.Changed? ==>
      o.hero.gold == h.gold - item.buyPrice && (h.gold >= 0 ==> o.hero.gold >= 0) &&
      o.hero.inventory == h.inventory + [Bought(item, newId)] &&
      |o.hero.inventory| == |h.inventory| + 1 <= h.maxInventory &&
      o.hero == h.(gold := o.hero.gold, inventory := o.hero.inventory) && o.note == Some(Purchased(item.name))
  {
    if h.gold < item.buyPrice then Refused(NotEnoughGold)
    else if |h.inventory| >= h.maxInventory then Refused(InventoryFull)
    else Changed(h.(gold := h.gold - item.buyPrice, inventory := h.inventory + [Bought(item, newId)]),
                 Some(Purchased(item.name)))
  }

  /**
   * Selling an item just bought, under a fresh id, restores the inventory
   * and leaves the hero `buyPrice - sellPrice` gold poorer.
   */
  lemma BuyThenSell(h: Hero, item: GameItem, newId: string)
    requires Buy(h, item, newId).Changed?
    requires forall k :: 0 <= k < |h.inventory| ==> h.inventory[k].id != newId
    ensures var h1 := Buy(h, item, newId).hero; var h2 := Sell(h1, Bought(item, newId));
      h2.inventory == h.inventory && h2.gold == h.gold - item.buyPrice + item.sellPrice
  {
    var b := Bought(item, newId);
    RemoveIdAppendOther(h.inventory, b);
  }

  lemma HeadTail(s: seq<GameItem>)
    requires s != []
    ensures [s[0]] + s[1..] == s
  {
  }

  lemma {:induction false} RemoveIdAppendOther(inv: seq<GameItem>, x: GameItem)
    requires forall k :: 0 <= k < |inv| ==> inv[k].id != x.id
    ensures RemoveId(inv + [x], x.id) == inv
  {
    if inv == [] {
      assert inv + [x] == [x] && [x][1..] == [];
    } else {
      var t := inv[1..];
      assert (inv + [x])[0] == inv[0] && (inv + [x])[1..] == t + [x];
      assert inv[0].id != x.id;
      assert forall k :: 0 <= k < |t| ==> t[k] == inv[k + 1];
      RemoveIdAppendOther(t, x);
      calc {
        RemoveId(inv + [x], x.id);
        == [inv[0]] + RemoveId(t + [x], x.id);
        == [inv[0]] + t;
        == { HeadTail(inv); }
        inv;
      }
    }
  }

  /** `handleDefeat`: a fifth of the gold is lost and hp is set to 30 % of max. */
  function Defeat(h: Hero): (r: Hero)
    ensures r.gold == h.gold - FloorFrac(h.gold, 1, 5)
    ensures r.hp == FloorFrac(h.maxHp, 3, 10)
    ensures r == h.(gold := r.gold, hp := r.hp)
  {
    h.(gold := h.gold - FloorFrac(h.gold, 1, 5), hp := FloorFrac(h.maxHp, 3, 10))
  }

  /** A defeat never takes gold below 0 or raises it, and a hero with 4 or more max hp walks away alive. */
  lemma DefeatBounds(h: Hero)
    requires h.gold >= 0 && h.maxHp >= 0
    ensures var r := Defeat(h);
      0 <= r.gold <= h.gold && r.gold >= h.gold * 4 / 5 &&
      0 <= r.hp <= h.maxHp && (h.maxHp >= 4 ==> r.hp >= 1)
  {
  }

  /** The note a transition leaves, and the hero it leaves. */
  function HeroAfter(o: Outcome, h: Hero): Hero
  {
    if o.Changed? then o.hero else h
  }

  function NoteAfter(o: Outcome, message: Option<Note>): Option<Note>
  {
    match o
    case Refused(why) => Some(why)
    case Unchanged => message
    case Changed(_, note) => if note.Some? then note else message
  }

  /** A reducer case built on a hero transition: the hero and the message change, nothing else. */
  function Apply(state: GameState, o: Outcome): (r: GameState)
    ensures r == state.(player := HeroAfter(o, state.player), message := NoteAfter(o, state.message))
    ensures o.Unchanged? ==> r == state
  {
    match o
    case Refused(why) => state.(message := Some(why))
    case Unchanged => state
    case Changed(h, note) => state.(player := h, message := if note.Some? then note else state.message)
  }

  // ---------------------------------------------------------------------------
  // gameReducer: inventory and inn cases

  /** `REST_AT_INN`: ten gold for full hp, or only a note when the gold is short. */
  function RestAtInn(state: GameState): (r: GameState)
    ensures var h := state.player;
      (h.gold < 10 ==> r == state.(message := Some(NotEnoughGoldForInn))) &&
      (h.gold >= 10 ==> r == state.(player := h.(gold := h.gold - 10, hp := h.maxHp), message := Some(HpRestored)))
  {
    Apply(state, Rest(state.player))
  }

  /** `EQUIP_ITEM`: only the hero changes; the item holds its slot and no entry with its id is left. */
  function EquipItem(state: GameState, item: GameItem): (r: GameState)
    requires item.slot.Some?
    ensures r == state.(player := r.player)
    ensures r.player.equipment == state.player.equipment[item.slot.value := item]
    ensures forall k :: 0 <= k < |r.player.inventory| ==> r.player.inventory[k].id != item.id
  {
    Apply(state, Changed(Equip(state.player, item), None))
  }

  /** `UNEQUIP_ITEM`: the full check first, then the empty slot, then the item moves to the inventory's end. */
  function UnequipItem(state: GameState, s: Slot): (r: GameState)
    ensures var h := state.player;
      (|h.inventory| >= h.maxInventory ==> r == state.(message := Some(InventoryFull))) &&
      (|h.inventory| < h.maxInventory && s !in h.equipment ==> r == state) &&
      (|h.inventory| < h.maxInventory && s in h.equipment ==>
        r == state.(player := h.(inventory := h.inventory + [h.equipment[s]], equipment := h.equipment - {s})))
  {
    Apply(state, Unequip(state.player, s))
  }

  /** `USE_ITEM`: a potion heals and is used up, unless it would heal nothing; other items do nothing. */
  function UseItemCase(state: GameState, item: GameItem): (r: GameState)
    ensures var h := state.player; var hp := Min(h.hp + item.healAmount, h.maxHp);
      (item.kind != "potion" ==> r == state) &&
      (item.kind == "potion" && HealedBy(h, item) == 0 ==> r == state.(message := Some(HpAlreadyFull))) &&
      (item.kind == "potion" && HealedBy(h, item) != 0 ==>
        r == state.(player := h.(hp := hp, inventory := RemoveId(h.inventory, item.id)), message := Some(Healed(hp - h.hp))))
  {
    Apply(state, UseItem(state.player, item))
  }

  /** `SELL_ITEM`: the sell price is paid, the id leaves the inventory, and the sale is noted. */
  function SellItem(state: GameState, item: GameItem): (r: GameState)
    ensures var h := state.player;
      r == state.(player := h.(gold := h.gold + item.sellPrice, inventory := RemoveId(h.inventory, item.id)),
                  message := Some(SoldFor(item.sellPrice)))
  {
    Apply(state, Changed(Sell(state.player, item), Some(SoldFor(item.sellPrice))))
  }

  /** `newId` is `'item_' + Date.now() + '_' + Math.random()`. */
  function BuyItem(state: GameState, item: GameItem, newId: string): (r: GameState)
    ensures var h := state.player;
      (h.gold < item.buyPrice ==> r == state.(message := Some(NotEnoughGold))) &&
      (h.gold >= item.buyPrice && |h.inventory| >= h.maxInventory ==> r == state.(message := Some(InventoryFull))) &&
      (h.gold >= item.buyPrice && |h.inventory| < h.maxInventory ==>
        r == state.(player := h.(gold := h.gold - item.buyPrice, inventory := h.inventory + [Bought(item, newId)]),
                    message := Some(Purchased(item.name))))
  {
    Apply(state, Buy(state.player, item, newId))
  }

  /** A predicate the inventory cases keep: the inventory is within its capacity. */
  predicate WithinCapacity(h: Hero)
  {
    |h.inventory| <= h.maxInventory
  }

  /**
   * None of the inventory cases can push the inventory over its capacity:
   * buying and unequipping check it, and equipping, using and selling
   * never add more entries than they take away.
   */
  lemma InventoryCasesKeepCapacity(state: GameState, item: GameItem, s: Slot, newId: string)
    requires WithinCapacity(state.player)
    requires item.slot.Some? ==> CountId(state.player.inventory, item.id) >= 1
    ensures WithinCapacity(RestAtInn(state).player)
    ensures WithinCapacity(UnequipItem(state, s).player)
    ensures WithinCapacity(UseItemCase(state, item).player)
    ensures WithinCapacity(SellItem(state, item).player)
    ensures WithinCapacity(BuyItem(state, item, newId).player)
    ensures item.slot.Some? ==> WithinCapacity(EquipItem(state, item).player)
  {
    RestKeepsCapacity(state);
    UnequipKeepsCapacity(state, s);
    UseKeepsCapacity(state, item);
    SellKeepsCapacity(state, item);
    BuyKeepsCapacity(state, item, newId);
    if item.slot.Some? {
      EquipKeepsCapacity(state, item);
    }
  }

  lemma RestKeepsCapacity(state: GameState)
    requires WithinCapacity(state.player)
    ensures WithinCapacity(RestAtInn(state).player)
  {
  }

  lemma UnequipKeepsCapacity(state: GameState, s: Slot)
    requires WithinCapacity(state.player)
    ensures WithinCapacity(UnequipItem(state, s).player)
  {
  }

  lemma UseKeepsCapacity(state: GameState, item: GameItem)
    requires WithinCapacity(state.player)
    ensures WithinCapacity(UseItemCase(state, item).player)
  {
    RemoveIdCount(state.player.inventory, item.id);
  }

  lemma SellKeepsCapacity(state: GameState, item: GameItem)
    requires WithinCapacity(state.player)
    ensures WithinCapacity(SellItem(state, item).player)
  {
    RemoveIdCount(state.player.inventory, item.id);
  }

  lemma BuyKeepsCapacity(state: GameState, item: GameItem, newId: string)
    requires WithinCapacity(state.player)
    ensures WithinCapacity(BuyItem(state, item, newId).player)
  {
  }

  lemma EquipKeepsCapacity(state: GameState, item: GameItem)
    requires WithinCapacity(state.player)
    requires item.slot.Some? && CountId(state.player.inventory, item.id) >= 1
    ensures WithinCapacity(EquipItem(state, item).player)
  {
    RemoveIdCount(state.player.inventory, item.id);
    EquipSwaps(state.player, item);
  }

  // ---------------------------------------------------------------------------
  // gameReducer: battle cases

  /** The draws of a victory: the drop table's chance and pick, the rarity, the item's id, and the gains. */
  datatype VictoryRolls = VictoryRolls(
    templates: map<string, ItemTemplate>, chance: real, pickRoll: real, rarityRoll: real,
    dropId: string, gains: nat -> Gain)

  predicate ValidRolls(v: VictoryRolls)
  {
    forall t :: t in v.templates ==> |v.templates[t].names| >= 1
  }

  /** The hero after the rewards and the drop, before the level-ups. */
  function Rewarded(h: Hero, m: Monster, drop: Option<GameItem>): (r: Hero)
    ensures r.exp == h.exp + m.exp && r.gold == h.gold + m.gold
    ensures r.inventory == if drop.Some? && |h.inventory| < h.maxInventory then h.inventory + [drop.value] else h.inventory
  {
    var added := drop.Some? && |h.inventory| < h.maxInventory;
    h.(exp := h.exp + m.exp, gold := h.gold + m.gold,
       inventory := if added then h.inventory + [drop.value] else h.inventory)
  }

  /** The item the drop table gives for this victory (`rollDrop(m.dropTable, m.level)`). */
  function VictoryDrop(m: Monster, v: VictoryRolls): Option<GameItem>
    requires ValidRolls(v)
  {
    RollDrop(v.templates, m.dropTable, m.level, v.chance, v.pickRoll, v.rarityRoll, v.dropId)
  }

  /**
   * `handleVictory` AS WRITTEN: `droppedItem` is reported when
   * `p.inventory.length <= p.maxInventory` after the push, which also holds
   * when the inventory was exactly full and the item was not added.
   */
  function ReportedDropAsWritten(drop: Option<GameItem>, rewarded: Hero): Option<GameItem>
  {
    if drop.Some? && |rewarded.inventory| <= rewarded.maxInventory then drop else None
  }

  /** The drop reported only when it went into the inventory. */
  function ReportedDrop(drop: Option<GameItem>, h: Hero): (r: Option<GameItem>)
    ensures r.Some? <==> drop.Some? && |h.inventory| < h.maxInventory
    ensures r.Some? ==> r == drop
  {
    if drop.Some? && |h.inventory| < h.maxInventory then drop else None
  }

  function VictoryState(state: GameState, drop: Option<GameItem>, reported: Option<GameItem>,
                        gains: nat -> Gain): GameState
    requires state.battle.Some? && state.player.level >= 0 && state.player.expToLevel >= 1
  {
    var m := state.battle.value.monster;
    var leveled := LevelUps(Rewarded(state.player, m, drop), gains, 0);
    state.(screen := "battle-result", player := leveled.player,
           battleResult := Some(Victory(m.exp, m.gold, reported, leveled.gains, leveled.player.level)))
  }

  /** `handleVictory` as written: the drop is reported when the inventory is within capacity after the push. */
  function HandleVictoryAsWritten(state: GameState, v: VictoryRolls): (r: GameState)
    requires state.battle.Some? && state.player.level >= 0 && state.player.expToLevel >= 1 && ValidRolls(v)
    ensures var m := state.battle.value.monster; var drop := VictoryDrop(m, v);
      r == state.(screen := "battle-result", player := r.player, battleResult := r.battleResult) &&
      r.battleResult.Some? && r.battleResult.value.Victory? &&
      r.battleResult.value.expGain == m.exp && r.battleResult.value.goldGain == m.gold &&
      r.battleResult.value.droppedItem == ReportedDropAsWritten(drop, Rewarded(state.player, m, drop))
  {
    var drop := VictoryDrop(state.battle.value.monster, v);
    var rewarded := Rewarded(state.player, state.battle.value.monster, drop);
    VictoryState(state, drop, ReportedDropAsWritten(drop, rewarded), v.gains)
  }

  /** `handleVictory`, reporting the drop only when it was kept. */
  function HandleVictory(state: GameState, v: VictoryRolls): (r: GameState)
    requires state.battle.Some? && state.player.level >= 0 && state.player.expToLevel >= 1 && ValidRolls(v)
    ensures var m := state.battle.value.monster; var drop := VictoryDrop(m, v);
      r == state.(screen := "battle-result", player := r.player, battleResult := r.battleResult) &&
      r.battleResult.Some? && r.battleResult.value.Victory? &&
      r.battleResult.value.expGain == m.exp && r.battleResult.value.goldGain == m.gold &&
      r.battleResult.value.droppedItem == ReportedDrop(drop, state.player)
  {
    var drop := VictoryDrop(state.battle.value.monster, v);
    VictoryState(state, drop, ReportedDrop(drop, state.player), v.gains)
  }

  /**
   * The discrepancy: with the inventory exactly full, a drop is reported as
   * won although the inventory does not hold it.
   */
  lemma FullInventoryDropReportedAsWritten(state: GameState, v: VictoryRolls)
    requires state.battle.Some? && state.player.level >= 0 && state.player.expToLevel >= 1 && ValidRolls(v)
    requires |state.player.inventory| == state.player.maxInventory
    requires VictoryDrop(state.battle.value.monster, v).Some?
    ensures var r := HandleVictoryAsWritten(state, v);
      r.battleResult.value.droppedItem.Some? && r.player.inventory == state.player.inventory
  {
    var m := state.battle.value.monster;
    LevelUpsMeaning(Rewarded(state.player, m, VictoryDrop(m, v)), v.gains, 0);
  }

  /**
   * With the correction, the victory screen names a drop exactly when the
   * drop is now the last inventory entry; experience, gold and levels follow
   * `processLevelUps`.
   */
  lemma HandleVictoryMeaning(state: GameState, v: VictoryRolls)
    requires state.battle.Some? && state.player.level >= 0 && state.player.expToLevel >= 1 && ValidRolls(v)
    ensures var r := HandleVictory(state, v); var h := state.player; var m := state.battle.value.monster;
      var dropped := r.battleResult.value.droppedItem;
      r.screen == "battle-result" && r.battleResult.value.Victory? &&
      (dropped.Some? ==> r.player.inventory == h.inventory + [dropped.value] && |r.player.inventory| <= h.maxInventory) &&
      (dropped.None? ==> r.player.inventory == h.inventory) &&
      r.player.gold == h.gold + m.gold &&
      r.player.level == h.level + |r.battleResult.value.levelUps| &&
      r.player.exp < r.player.expToLevel
  {
    var m := state.battle.value.monster;
    var drop := VictoryDrop(m, v);
    LevelUpsMeaning(Rewarded(state.player, m, drop), v.gains, 0);
  }

  /** `handleDefeat(state)` */
  function HandleDefeat(state: GameState): (r: GameState)
    ensures r.player == Defeat(state.player)
    ensures r.battleResult == Some(Defeated(FloorFrac(state.player.gold, 1, 5)))
    ensures r.screen == "battle-result"
    ensures r == state.(screen := r.screen, player := r.player, battleResult := r.battleResult)
  {
    state.(screen := "battle-result", player := Defeat(state.player),
           battleResult := Some(Defeated(FloorFrac(state.player.gold, 1, 5))))
  }

  /** The battle a state holds, with the monster's hp lowered by `dmg` but not below 0. */
  function HitMonster(b: BattleState, dmg: int): (r: BattleState)
    ensures r.monster.hp == Max(0, b.monster.hp - dmg)
  {
    b.(monster := b.monster.(hp := Max(0, b.monster.hp - dmg)), defending := false)
  }

  /**
   * After the player's hit: the victory when the monster is down, otherwise
   * the fight goes on with the new battle and one more log line. The victory
   * is the corrected `HandleVictory`.
   */
  function AfterPlayerHit(state: GameState, b: BattleState, event: BattleEvent, v: VictoryRolls): (r: GameState)
    requires state.player.level >= 0 && state.player.expToLevel >= 1 && ValidRolls(v)
    ensures b.monster.hp > 0 ==> r == state.(battle := Some(b), battleLog := state.battleLog + [event])
    ensures b.monster.hp <= 0 ==>
      r.screen == "battle-result" && r.battleResult.Some? && r.battleResult.value.Victory? &&
      r.battle == Some(b) && r.battleLog == state.battleLog + [event]
  {
    var s := state.(battle := Some(b), battleLog := state.battleLog + [event]);
    if b.monster.hp <= 0 then HandleVictory(s, v) else s
  }

  /**
   * `BATTLE_PLAYER_ATTACK` with `u` the variance draw of `calcDamage`; the
   * victory draws are used only when the monster falls.
   */
  function BattleAttack(state: GameState, u: real, v: VictoryRolls): (r: GameState)
    requires state.battle.Some? && 0.0 <= u < 1.0
    requires state.player.level >= 0 && state.player.expToLevel >= 1 && ValidRolls(v)
    ensures var b := state.battle.value; var dmg := CalcDamage(PlayerAtk(state.player, b.atkDebuff), b.monster.def, u);
      dmg >= 1 && r == AfterPlayerHit(state, HitMonster(b, dmg), YouAttack(dmg), v)
  {
    var b := state.battle.value;
    var dmg := CalcDamage(PlayerAtk(state.player, b.atkDebuff), b.monster.def, u);
    AfterPlayerHit(state, HitMonster(b, dmg), YouAttack(dmg), v)
  }

  /** `BATTLE_PLAYER_SKILL`: Power Strike, `Math.floor(atk * 1.5)` (exact for integers). */
  function BattleSkill(state: GameState, u: real, v: VictoryRolls): (r: GameState)
    requires state.battle.Some? && 0.0 <= u < 1.0
    requires state.player.level >= 0 && state.player.expToLevel >= 1 && ValidRolls(v)
    ensures var b := state.battle.value; var atk := PlayerAtk(state.player, b.atkDebuff);
      var dmg := CalcDamage(FloorFrac(atk, 3, 2), b.monster.def, u);
      dmg >= 1 &&
      r == AfterPlayerHit(state, HitMonster(b, dmg), PowerStrike(dmg), v)
  {
    var b := state.battle.value;
    var atk := PlayerAtk(state.player, b.atkDebuff);
    var dmg := CalcDamage(FloorFrac(atk, 3, 2), b.monster.def, u);
    AfterPlayerHit(state, HitMonster(b, dmg), PowerStrike(dmg), v)
  }

  /**
   * An attack or Power Strike always takes at least 1 hp from the monster
   * (or leaves it at 0), ends in victory exactly when the monster reaches 0,
   * and otherwise leaves the hero untouched.
   */
  lemma PlayerHitMeaning(state: GameState, u: real, v: VictoryRolls, power: bool)
    requires state.battle.Some? && 0.0 <= u < 1.0 && state.battle.value.monster.hp > 0
    requires state.player.level >= 0 && state.player.expToLevel >= 1 && ValidRolls(v)
    ensures var r := if power then BattleSkill(state, u, v) else BattleAttack(state, u, v);
      var hp := state.battle.value.monster.hp;
      r.battle.Some? && 0 <= r.battle.value.monster.hp < hp && !r.battle.value.defending &&
      |r.battleLog| == |state.battleLog| + 1 &&
      (r.battle.value.monster.hp == 0 ==>
        r.screen == "battle-result" && r.battleResult.Some? && r.battleResult.value.Victory?) &&
      (r.battle.value.monster.hp > 0 ==>
        r == state.(battle := r.battle, battleLog := r.battleLog))
  {
  }

  /** `BATTLE_DEFEND` */
  function BattleDefend(state: GameState): (r: GameState)
    requires state.battle.Some?
    ensures r.battle == Some(state.battle.value.(defending := true))
    ensures r.battleLog == state.battleLog + [Brace]
    ensures r.player == state.player
  {
    state.(battle := Some(state.battle.value.(defending := true)), battleLog := state.battleLog + [Brace])
  }

  /** `inventory.findIndex(i => i.type === 'potion')` */
  function FirstPotion(inv: seq<GameItem>): (r: int)
    ensures -1 <= r < |inv|
    ensures r >= 0 ==> inv[r].kind == "potion" && forall k :: 0 <= k < r ==> inv[k].kind != "potion"
    ensures r == -1 <==> forall k :: 0 <= k < |inv| ==> inv[k].kind != "potion"
  {
    if inv == [] then -1
    else if inv[0].kind == "potion" then 0
    else
      var r := FirstPotion(inv[1..]);
      assert forall k :: 1 <= k < |inv| ==> inv[k] == inv[1..][k - 1];
      if r == -1 then -1 else r + 1
  }

  /**
   * `BATTLE_USE_POTION`: drinks the first potion, removing that one entry by
   * its index; refused without potions or at full hp.
   */
  function BattleUsePotion(state: GameState): (r: GameState)
    requires state.battle.Some?
    ensures var h := state.player; var i := FirstPotion(h.inventory);
      (i == -1 ==> r == state.(message := Some(NoPotions))) &&
      (i >= 0 && HealedBy(h, h.inventory[i]) == 0 ==> r == state.(message := Some(HpAlreadyFull))) &&
      (i >= 0 && HealedBy(h, h.inventory[i]) != 0 ==>
        var hp := Min(h.hp + h.inventory[i].healAmount, h.maxHp);
        r == state.(player := h.(hp := hp, inventory := RemoveAt(h.inventory, i)),
                    battle := Some(state.battle.value.(defending := false)),
                    battleLog := state.battleLog + [UsedPotion(h.inventory[i].name, hp - h.hp)]))
  {
    var h := state.player;
    var i := FirstPotion(h.inventory);
    if i == -1 then state.(message := Some(NoPotions))
    else
      var potion := h.inventory[i];
      var healed := HealedBy(h, potion);
      if healed == 0 then state.(message := Some(HpAlreadyFull))
      else
        state.(player := h.(hp := h.hp + healed, inventory := RemoveAt(h.inventory, i)),
               battle := Some(state.battle.value.(defending := false)),
               battleLog := state.battleLog + [UsedPotion(potion.name, healed)])
  }

  /** `BATTLE_RUN` with `u` the escape draw: below 0.5 the battle is left. */
  function BattleRun(state: GameState, u: real): (r: GameState)
    requires state.battle.Some?
    ensures u < 0.5 ==> r.battle == None && r.screen == "explore" && r.battleLog == []
    ensures u >= 0.5 ==>
      r.battle == Some(state.battle.value.(defending := false)) && r.battleLog == state.battleLog + [FailedEscape]
    ensures r.player == state.player
  {
    if u < 0.5 then
      state.(screen := "explore", battle := None, battleLog := [], exploreText := "You escaped the battle...")
    else
      state.(battle := Some(state.battle.value.(defending := false)), battleLog := state.battleLog + [FailedEscape])
  }

  /** An entry of `SKILLS`: `multiplier` is `tenths / 10`. */
  datatype MonsterSkillDef = MonsterSkillDef(name: string, tenths: int, effect: string)

  /** The draws of a monster turn: skill or not, which skill, the damage variance, the gold stolen. */
  datatype TurnRolls = TurnRolls(useSkill: real, pick: real, variance: real, steal: real)

  predicate UnitRolls(t: TurnRolls)
  {
    0.0 <= t.useSkill < 1.0 && 0.0 <= t.pick < 1.0 && 0.0 <= t.variance < 1.0 && 0.0 <= t.steal < 1.0
  }

  /** The skill the monster uses, if any (an id missing from the table is a plain attack). */
  function ChosenSkill(skills: map<string, MonsterSkillDef>, m: Monster, t: TurnRolls): Option<MonsterSkillDef>
    requires 0.0 <= t.pick < 1.0
  {
    if |m.skills| > 0 && t.useSkill < 0.3 then
      var k := (t.pick * |m.skills| as real).Floor;
      assert 0 <= k < |m.skills| by {
        assert 0.0 <= t.pick * |m.skills| as real < |m.skills| as real;
      }
      if m.skills[k] in skills then Some(skills[m.skills[k]]) else None
    else None
  }

  /** `Math.floor(Math.random() * 10 + 1)` */
  function Stolen(u: real): (n: int)
    requires 0.0 <= u < 1.0
    ensures 1 <= n <= 10
  {
    (u * 10.0 + 1.0).Floor
  }

  /** The monster's hit and the skill's effect, before the poison tick. */
  function MonsterHit(skills: map<string, MonsterSkillDef>, p: Hero, b: BattleState, t: TurnRolls):
    (r: (Hero, BattleState, seq<BattleEvent>))
    requires UnitRolls(t)
    ensures r.0 == p.(hp := r.0.hp, gold := r.0.gold) && r.0.hp == Max(0, r.0.hp)
    ensures r.0.hp <= Max(0, p.hp) && (!b.defending ==> r.0.hp <= Max(0, p.hp - 1))
    ensures p.gold >= 0 ==> 0 <= r.0.gold <= p.gold
    ensures r.1 == b.(poisonTurns := r.1.poisonTurns, atkDebuff := r.1.atkDebuff, defDebuff := r.1.defDebuff)
    ensures r.1.atkDebuff - b.atkDebuff in {0, 2} && r.1.defDebuff - b.defDebuff in {0, 2}
    ensures r.1.poisonTurns == b.poisonTurns || r.1.poisonTurns == 3
  {
    var m := b.monster;
    var def := PlayerDef(p, b.defDebuff);
    match ChosenSkill(skills, m, t)
    case None =>
      var dmg := CalcDamage(m.atk, def, t.variance);
      var dmg' := if b.defending then dmg / 2 else dmg;
      (p.(hp := Max(0, p.hp - dmg')), b, [MonsterAttacks(m.name, dmg')])
    case Some(skill) =>
      var dmg := CalcDamage(FloorFrac(m.atk, skill.tenths, 10), def, t.variance);
      var dmg' := if b.defending then dmg / 2 else dmg;
      var p1 := p.(hp := Max(0, p.hp - dmg'));
      var hit := [MonsterSkill(m.name, skill.name, dmg')];
      if skill.effect == "poison" then (p1, b.(poisonTurns := 3), hit + [Poisoned])
      else if skill.effect == "lower_def" then (p1, b.(defDebuff := b.defDebuff + 2), hit + [DefenseDropped])
      else if skill.effect == "lower_atk" then (p1, b.(atkDebuff := b.atkDebuff + 2), hit + [AttackDropped])
      else if skill.effect == "steal_gold" then
        var n := Stolen(t.steal);
        (p1.(gold := Max(0, p1.gold - n)), b, hit + [GoldStolen(n)])
      else (p1, b, hit)
  }

  /** The poison tick: 5 % of max hp while poison lasts, one turn used up. */
  function PoisonTick(p: Hero, b: BattleState): (r: (Hero, BattleState, seq<BattleEvent>))
    ensures b.poisonTurns > 0 ==> r.1.poisonTurns == b.poisonTurns - 1
    ensures b.poisonTurns <= 0 ==> r == (p, b, [])
    ensures r.0 == p.(hp := r.0.hp) && r.1 == b.(poisonTurns := r.1.poisonTurns)
    ensures p.hp >= 0 && p.maxHp >= 0 ==> 0 <= r.0.hp <= p.hp
  {
    if b.poisonTurns > 0 then
      var dmg := FloorFrac(p.maxHp, 1, 20);
      (p.(hp := Max(0, p.hp - dmg)), b.(poisonTurns := b.poisonTurns - 1), [PoisonDamage(dmg)])
    else (p, b, [])
  }

  /** `MONSTER_TURN`: the hit, the poison tick, the turn handed back, and the defeat when hp is 0. */
  function MonsterTurn(skills: map<string, MonsterSkillDef>, state: GameState, t: TurnRolls): (r: GameState)
    requires state.battle.Some? && UnitRolls(t)
    ensures var hit := MonsterHit(skills, state.player, state.battle.value, t); var tick := PoisonTick(hit.0, hit.1);
      r.battle == Some(tick.1.(isPlayerTurn := true, defending := false)) &&
      r.battleLog == state.battleLog + hit.2 + tick.2 &&
      (tick.0.hp > 0 ==> r == state.(player := tick.0, battle := r.battle, battleLog := r.battleLog)) &&
      (tick.0.hp <= 0 ==> r.player == Defeat(tick.0) && r.screen == "battle-result" &&
                          r.battleResult == Some(Defeated(FloorFrac(tick.0.gold, 1, 5))))
  {
    var hit := MonsterHit(skills, state.player, state.battle.value, t);
    var tick := PoisonTick(hit.0, hit.1);
    var b := tick.1.(isPlayerTurn := true, defending := false);
    var s := state.(player := tick.0, battle := Some(b), battleLog := state.battleLog + hit.2 + tick.2);
    if tick.0.hp <= 0 then HandleDefeat(s) else s
  }

  /**
   * A monster turn hurts, never heals (a defended hit of 1 halves to 0);
   * the hero is defeated exactly when hp reaches 0. Debuffs only grow, by
   * 2; poison is used up one turn at a time, or set to 3 and ticked once.
   */
  lemma MonsterTurnMeaning(skills: map<string, MonsterSkillDef>, state: GameState, t: TurnRolls)
    requires state.battle.Some? && UnitRolls(t) && state.player.hp > 0 && state.player.maxHp >= 0
    requires state.battleResult == None
    ensures var r := MonsterTurn(skills, state, t); var b := state.battle.value;
      var hit := MonsterHit(skills, state.player, b, t);
      var after := PoisonTick(hit.0, hit.1).0.hp;
      (after == 0 <==> r.battleResult.Some? && r.battleResult.value.Defeated?) &&
      (after == 0 ==> r.screen == "battle-result" && r.player == Defeat(PoisonTick(hit.0, hit.1).0)) &&
      (after > 0 ==> 0 < r.player.hp <= state.player.hp && r.screen == state.screen) &&
      (!b.defending && after > 0 ==> r.player.hp < state.player.hp) &&
      (state.player.gold >= 0 ==> 0 <= r.player.gold <= state.player.gold) &&
      r.battle.Some? && r.battle.value.isPlayerTurn && !r.battle.value.defending &&
      r.battle.value.atkDebuff - b.atkDebuff in {0, 2} && r.battle.value.defDebuff - b.defDebuff in {0, 2} &&
      (r.battle.value.poisonTurns == b.poisonTurns - 1 || r.battle.value.poisonTurns == 2 ||
       (b.poisonTurns <= 0 && r.battle.value.poisonTurns == b.poisonTurns))
  {
  }

  /** `CONTINUE_AFTER_BATTLE`: back to town after a defeat, back to exploring otherwise. */
  function ContinueAfterBattle(state: GameState): (r: GameState)
    ensures r.battle == None && r.battleResult == None && r.battleLog == []
    ensures r.player == state.player
    ensures state.battleResult.Some? && state.battleResult.value.Defeated? ==>
      r.screen == "town" && r.currentLocation == None
    ensures !(state.battleResult.Some? && state.battleResult.value.Defeated?) ==>
      r.screen == "explore" && r.currentLocation == state.currentLocation
  {
    if state.battleResult.Some? && state.battleResult.value.Defeated? then
      state.(screen := "town", battle := None, battleResult := None, battleLog := [], currentLocation := None)
    else
      var name := if state.currentLocation.Some? then state.currentLocation.value.name else "";
      state.(screen := "explore", battle := None, battleResult := None, battleLog := [],
             exploreText := "You continue exploring " + name + "...")
  }
}
