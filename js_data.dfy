/**
 * The `Data` object of the older client (`js/data.js`). Its helpers compute
 * the same values as the newer data module; what is its own is the
 * `_uidCounter` field that every generated item advances, and a monster
 * lookup without a null check.
 */
module JsData {
  import opened Common
  import opened GameTypes
  import opened Utils
  import opened Scaling
  import opened GameData

  /**
   * `Data.scaleMonster(monsterId, areaLevel)`: there is no check for an
   * unknown id (reading `base.name` of `undefined` throws), so the id must
   * be in the table.
   */
  function ScaleMonster(monsters: map<string, MonsterBase>, id: string, areaLevel: int, goldBonus: int): (m: Monster)
    requires id in monsters && 0 <= goldBonus < 5
    ensures Scaling.ScaleMonster(monsters, id, areaLevel, goldBonus) == Some(m)
    ensures m.hp == m.maxHp && m.level == areaLevel && m.id == id
  {
    Scaling.ScaleMonster(monsters, id, areaLevel, goldBonus).value
  }

  class Data {
    var uidCounter: nat

    constructor ()
      ensures uidCounter == 0
    {
      uidCounter := 0;
    }

    /** `_uid()`: pre-increments `_uidCounter` and stamps the clock. */
    method Uid(now: nat) returns (id: string)
      modifies this
      ensures uidCounter == old(uidCounter) + 1
      ensures id == UidText(uidCounter, now)
    {
      uidCounter := uidCounter + 1;
      id := UidText(uidCounter, now);
    }

    /**
     * `generateItem(dropType, monsterLevel)`: a uid is drawn only once the
     * template is found, so an unknown type leaves the counter alone.
     */
    method GenerateItem(templates: map<string, ItemTemplate>, dropType: string, monsterLevel: int,
                        rarityRoll: real, now: nat) returns (r: Option<GameItem>)
      requires dropType in templates ==> |templates[dropType].names| >= 1
      modifies this
      ensures uidCounter == old(uidCounter) + (if dropType in templates then 1 else 0)
      ensures r == GameData.GenerateItem(templates, dropType, monsterLevel, rarityRoll, UidText(uidCounter, now))
    {
      if dropType !in templates {
        return None;
      }
      var id := Uid(now);
      r := GameData.GenerateItem(templates, dropType, monsterLevel, rarityRoll, id);
    }

    /** `getShopItems(playerLevel)`: the loop that pushes the three potions, one uid each. */
    method GetShopItems(playerLevel: int, now: nat) returns (items: seq<GameItem>)
      modifies this
      ensures uidCounter == old(uidCounter) + 3
      ensures items == ShopItems(playerLevel,
        [UidText(old(uidCounter) + 1, now), UidText(old(uidCounter) + 2, now), UidText(old(uidCounter) + 3, now)])
    {
      items := [];
      for i := 0 to 3
        invariant uidCounter == old(uidCounter) + i
        invariant |items| == i
        invariant forall k :: 0 <= k < i ==> items[k] == ShopPotion(playerLevel, k, UidText(old(uidCounter) + k + 1, now))
      {
        var id := Uid(now);
        items := items + [ShopPotion(playerLevel, i, id)];
      }
    }
  }
}
