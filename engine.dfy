/**
 * The `Game` object of the older canvas client (`js/engine.js`). Its
 * methods change `this.player` and `this.battle` in place; here the object
 * is a class whose fields are the player record, the battle record, the
 * current screen and the last message shown. The hero transitions are the
 * ones the reducer uses, so the two clients can be compared case by case;
 * drawing, the DOM and `setTimeout` are left out.
 */
module Engine {
  import opened Common
  import opened GameTypes
  import opened Utils
  import opened GameData
  import opened GameReducer
  import opened JsData

  /** `this.battle`; `defeated` is `rewards.defeated`. */
  datatype EngineBattle = EngineBattle(
    monster: Option<Monster>, isPlayerTurn: bool, log: seq<BattleEvent>, defending: bool,
    poisonTurns: int, atkDebuff: int, defDebuff: int, defeated: bool, turnAnimating: bool)

  function NoBattle(): EngineBattle
  {
    EngineBattle(None, true, [], false, 0, 0, 0, false, false)
  }

  /**
   * The potion of a `battleAction('potion')`: the first potion is drunk and
   * every entry with its id is removed. Unlike the reducer, there is no
   * refusal at full hp: the potion is used up for nothing.
   */
  function EngineDrink(h: Hero): (r: Option<(Hero, BattleEvent)>)
    ensures r.None? <==> FirstPotion(h.inventory) == -1
    ensures r.Some? ==>
      var potion := h.inventory[FirstPotion(h.inventory)];
      r.value.0 == h.(hp := h.hp + HealedBy(h, potion), inventory := RemoveId(h.inventory, potion.id)) &&
      r.value.1 == UsedPotion(potion.name, HealedBy(h, potion))
  {
    var i := FirstPotion(h.inventory);
    if i == -1 then None
    else
      var potion := h.inventory[i];
      var healed := HealedBy(h, potion);
      Some((h.(hp := h.hp + healed, inventory := RemoveId(h.inventory, potion.id)), UsedPotion(potion.name, healed)))
  }

  /**
   * The engine's potion never lifts hp above max hp, removes at least the
   * potion drunk, and at full hp uses the potion up without healing.
   */
  lemma EngineDrinkMeaning(h: Hero)
    requires FirstPotion(h.inventory) >= 0 && h.inventory[FirstPotion(h.inventory)].healAmount >= 0
    ensures var r := EngineDrink(h).value.0; var potion := h.inventory[FirstPotion(h.inventory)];
      r.hp == Min(h.hp + potion.healAmount, h.maxHp) && r.hp <= h.maxHp &&
      |r.inventory| < |h.inventory| &&
      (h.hp == h.maxHp ==> r.hp == h.hp && r.inventory == RemoveId(h.inventory, potion.id))
  {
  }

  class Game {
    var player: Hero
    var battle: EngineBattle
    var screen: string
    var currentLocation: Option<Location>
    /** The last `showMessage` text. */
    var message: Option<Note>
    /** The `Data` object that generates items and ids. */
    const data: Data

    /** The object literal: the starting hero, no battle, the menu screen. */
    constructor (data: Data)
      ensures player == InitialHero() && battle == NoBattle() && screen == "menu"
      ensures currentLocation == None && message == None && this.data == data
    {
      player := InitialHero();
      battle := NoBattle();
      screen := "menu";
      currentLocation := None;
      message := None;
      this.data := data;
    }

    /** `getPlayerAtk()`: the same sum as the reducer's, with the battle's debuff. */
    method GetPlayerAtk() returns (atk: int)
      ensures atk == PlayerAtk(player, battle.atkDebuff) && atk >= 1
    {
      atk := ComputeAtk(player, battle.atkDebuff);
    }

    /** `getPlayerDef()` */
    method GetPlayerDef() returns (def: int)
      ensures def == PlayerDef(player, battle.defDebuff) && def >= 0
    {
      def := ComputeDef(player, battle.defDebuff);
    }

    /** `restAtInn()`: refused below 10 gold, otherwise 10 gold for full hp. */
    method RestAtInn()
      modifies this
      ensures player == HeroAfter(Rest(old(player)), old(player))
      ensures message == NoteAfter(Rest(old(player)), old(message))
      ensures battle == old(battle) && screen == old(screen) && currentLocation == old(currentLocation)
    {
      if player.gold < 10 {
        message := Some(NotEnoughGoldForInn);
        return;
      }
      player := player.(gold := player.gold - 10);
      player := player.(hp := player.maxHp);
      message := Some(HpRestored);
    }

    /**
     * `battleAction('potion')`. The monster is alive whenever the battle
     * screen takes an action, so `_afterPlayerAction` hands the turn over.
     */
    method BattlePotion()
      requires battle.monster.Some? && battle.monster.value.hp > 0
      modifies this
      ensures !old(battle.isPlayerTurn) || old(battle.turnAnimating) ==>
        player == old(player) && battle == old(battle) && message == old(message)
      ensures old(battle.isPlayerTurn) && !old(battle.turnAnimating) && EngineDrink(old(player)).None? ==>
        player == old(player) && battle == old(battle).(defending := false) && message == Some(NoPotions)
      ensures old(battle.isPlayerTurn) && !old(battle.turnAnimating) && EngineDrink(old(player)).Some? ==>
        var d := EngineDrink(old(player)).value;
        player == d.0 && message == old(message) &&
        battle == old(battle).(defending := false, isPlayerTurn := false, log := old(battle.log) + [d.1])
      ensures screen == old(screen) && currentLocation == old(currentLocation)
    {
      if !battle.isPlayerTurn || battle.turnAnimating {
        return;
      }
      battle := battle.(defending := false);
      var i := FirstPotion(player.inventory);
      if i == -1 {
        message := Some(NoPotions);
        return;
      }
      var potion := player.inventory[i];
      var healed := Min(potion.healAmount, player.maxHp - player.hp);
      player := player.(hp := player.hp + healed);
      player := player.(inventory := RemoveId(player.inventory, potion.id));
      battle := battle.(log := battle.log + [UsedPotion(potion.name, healed)]);
      battle := battle.(isPlayerTurn := false);
    }

    /**
     * `_battleVictory()`: experience and gold, a drop from the monster's
     * table kept only while the inventory has room, then the level-up loop.
     * `chance` is `Math.random() * 100`, `pickRoll` the roll of
     * `_pickWeighted`, `rarityRoll` that of the item's rarity, `now` the
     * clock of its id and `gains` the stat draws of each level-up.
     */
    method BattleVictory(templates: map<string, ItemTemplate>, chance: real, pickRoll: real,
                         rarityRoll: real, now: nat, gains: nat -> Gain)
      returns (dropped: Option<GameItem>, levelUps: seq<Gain>)
      requires battle.monster.Some? && player.level >= 0 && player.expToLevel >= 1
      requires forall t :: t in templates ==> |templates[t].names| >= 1
      modifies this, data
      ensures var m := old(battle.monster.value);
        var drop := RollDrop(templates, m.dropTable, m.level, chance, pickRoll, rarityRoll, UidText(data.uidCounter, now));
        dropped == ReportedDrop(drop, old(player)) &&
        Leveled(player, levelUps) == LevelUps(Rewarded(old(player), m, drop), gains, 0)
      ensures player.exp < player.expToLevel && player.level == old(player.level) + |levelUps|
      ensures battle == old(battle) && screen == "battle-result" && message == old(message)
      ensures currentLocation == old(currentLocation)
    {
      dropped := Reward(templates, chance, pickRoll, rarityRoll, now);
      ghost var rewarded := player;
      levelUps := LevelUpLoop(gains);
      LevelUpsMeaning(rewarded, gains, 0);
      screen := "battle-result";
    }

    /** The first half of `_battleVictory()`: experience, gold and the drop. */
    method Reward(templates: map<string, ItemTemplate>, chance: real, pickRoll: real,
                  rarityRoll: real, now: nat) returns (dropped: Option<GameItem>)
      requires battle.monster.Some? && player.level >= 0 && player.expToLevel >= 1
      requires forall t :: t in templates ==> |templates[t].names| >= 1
      modifies this, data
      ensures var m := old(battle.monster.value);
        var drop := RollDrop(templates, m.dropTable, m.level, chance, pickRoll, rarityRoll, UidText(data.uidCounter, now));
        dropped == ReportedDrop(drop, old(player)) && player == Rewarded(old(player), m, drop)
      ensures battle == old(battle) && screen == old(screen) && message == old(message)
      ensures currentLocation == old(currentLocation)
    {
      var m := battle.monster.value;
      player := player.(exp := player.exp + m.exp);
      player := player.(gold := player.gold + m.gold);
      dropped := None;
      if |m.dropTable| > 0 {
        var ws := DropWeights(m.dropTable);
        if chance < Total(ws) as real {
          var k := PickIndex(ws, pickRoll);
          dropped := data.GenerateItem(templates, m.dropTable[k].kind, m.level, rarityRoll, now);
          if dropped.Some? && |player.inventory| < player.maxInventory {
            player := player.(inventory := player.inventory + [dropped.value]);
          } else {
            dropped := None;
          }
        }
      }
    }

    /** The `while (exp >= expToLevel)` loop of `_battleVictory()`. */
    method LevelUpLoop(gains: nat -> Gain) returns (levelUps: seq<Gain>)
      requires player.level >= 0 && player.expToLevel >= 1
      modifies this
      ensures Leveled(player, levelUps) == LevelUps(old(player), gains, 0)
      ensures battle == old(battle) && screen == old(screen) && message == old(message)
      ensures currentLocation == old(currentLocation)
    {
      levelUps := [];
      ghost var total := LevelUps(player, gains, 0);
      while player.exp >= player.expToLevel
        invariant player.level >= 0 && player.expToLevel >= 1
        invariant levelUps + LevelUps(player, gains, |levelUps|).gains == total.gains
        invariant LevelUps(player, gains, |levelUps|).player == total.player
        invariant battle == old(battle) && screen == old(screen) && message == old(message)
        invariant currentLocation == old(currentLocation)
        decreases player.exp
      {
        var g := gains(|levelUps|);
        ghost var next := LevelOnce(player, g);
        LevelUpsStep(player, gains, |levelUps|);
        ghost var rest := LevelUps(next, gains, |levelUps| + 1).gains;
        assert levelUps + [g] + rest == levelUps + ([g] + rest);
        player := player.(exp := player.exp - player.expToLevel);
        player := player.(level := player.level + 1);
        player := player.(expToLevel := ExpForLevel(player.level));
        player := player.(maxHp := player.maxHp + g.hpGain);
        player := player.(hp := player.maxHp);
        player := player.(baseAtk := player.baseAtk + g.atkGain, baseDef := player.baseDef + g.defGain);
        assert player == next;
        levelUps := levelUps + [g];
      }
    }

    /** `_battleDefeat()`: a fifth of the gold lost, 30 % of max hp left, and the defeat recorded. */
    method BattleDefeat() returns (goldLost: int)
      modifies this
      ensures goldLost == FloorFrac(old(player.gold), 1, 5)
      ensures player == Defeat(old(player))
      ensures battle == old(battle).(defeated := true) && screen == "battle-result"
      ensures message == old(message) && currentLocation == old(currentLocation)
    {
      goldLost := FloorFrac(player.gold, 1, 5);
      player := player.(gold := player.gold - goldLost);
      player := player.(hp := FloorFrac(player.maxHp, 3, 10));
      battle := battle.(defeated := true);
      screen := "battle-result";
    }

    /**
     * `continueAfterBattle()`: to town after a defeat, back to exploring
     * otherwise; the debuffs and the poison are cleared either way.
     */
    method ContinueAfterBattle()
      modifies this
      ensures battle == old(battle).(atkDebuff := 0, defDebuff := 0, poisonTurns := 0)
      ensures old(battle.defeated) ==> screen == "town" && currentLocation == None
      ensures !old(battle.defeated) ==> screen == "explore" && currentLocation == old(currentLocation)
      ensures player == old(player) && message == old(message)
      ensures PlayerAtk(player, battle.atkDebuff) == Max(1, player.baseAtk + EquipAtk(player.equipment))
      ensures PlayerDef(player, battle.defDebuff) == Max(0, player.baseDef + EquipDef(player.equipment))
    {
      if battle.defeated {
        currentLocation := None;
        screen := "town";
      } else {
        screen := "explore";
      }
      battle := battle.(atkDebuff := 0);
      battle := battle.(defDebuff := 0);
      battle := battle.(poisonTurns := 0);
    }

    /** `_equipItem(item)`; only items with a slot get an Equip button. */
    method EquipItem(item: GameItem)
      requires item.slot.Some?
      modifies this
      ensures player == Equip(old(player), item)
      ensures battle == old(battle) && screen == old(screen) && message == old(message)
      ensures currentLocation == old(currentLocation)
    {
      var s := item.slot.value;
      if s in player.equipment {
        player := player.(inventory := player.inventory + [player.equipment[s]]);
      }
      player := player.(equipment := player.equipment[s := item]);
      player := player.(inventory := RemoveId(player.inventory, item.id));
    }

    /** `_unequipItem(slot)` */
    method UnequipItem(s: Slot)
      modifies this
      ensures player == HeroAfter(Unequip(old(player), s), old(player))
      ensures message == NoteAfter(Unequip(old(player), s), old(message))
      ensures battle == old(battle) && screen == old(screen) && currentLocation == old(currentLocation)
    {
      if |player.inventory| >= player.maxInventory {
        message := Some(InventoryFull);
        return;
      }
      if s in player.equipment {
        var item := player.equipment[s];
        player := player.(inventory := player.inventory + [item]);
        player := player.(equipment := player.equipment - {s});
      }
    }

    /** `_useItem(item)` */
    method UseItem(item: GameItem)
      modifies this
      ensures player == HeroAfter(GameReducer.UseItem(old(player), item), old(player))
      ensures message == NoteAfter(GameReducer.UseItem(old(player), item), old(message))
      ensures battle == old(battle) && screen == old(screen) && currentLocation == old(currentLocation)
    {
      if item.kind == "potion" {
        var healed := Min(item.healAmount, player.maxHp - player.hp);
        if healed == 0 {
          message := Some(HpAlreadyFull);
          return;
        }
        player := player.(hp := player.hp + healed);
        player := player.(inventory := RemoveId(player.inventory, item.id));
        message := Some(Healed(healed));
      }
    }

    /** `_sellItem(item)` */
    method SellItem(item: GameItem)
      modifies this
      ensures player == Sell(old(player), item) && message == Some(SoldFor(item.sellPrice))
      ensures battle == old(battle) && screen == old(screen) && currentLocation == old(currentLocation)
    {
      player := player.(gold := player.gold + item.sellPrice);
      player := player.(inventory := RemoveId(player.inventory, item.id));
      message := Some(SoldFor(item.sellPrice));
    }

    /**
     * `_buyItem(item)`: gold, then capacity; a purchase draws one id from
     * `Data._uid()` for the copy it appends.
     */
    method BuyItem(item: GameItem, now: nat)
      modifies this, data
      ensures var o := Buy(old(player), item, UidText(data.uidCounter, now));
        player == HeroAfter(o, old(player)) && message == NoteAfter(o, old(message)) &&
        data.uidCounter == old(data.uidCounter) + (if o.Changed? then 1 else 0)
      ensures battle == old(battle) && screen == old(screen) && currentLocation == old(currentLocation)
    {
      if player.gold < item.buyPrice {
        message := Some(NotEnoughGold);
        return;
      }
      if |player.inventory| >= player.maxInventory {
        message := Some(InventoryFull);
        return;
      }
      player := player.(gold := player.gold - item.buyPrice);
      var id := data.Uid(now);
      player := player.(inventory := player.inventory + [Bought(item, id)]);
      message := Some(Purchased(item.name));
    }
  }
}
