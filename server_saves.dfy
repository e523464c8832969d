/**
 * The parts of a stored game save that the server routes read and write:
 * the player's level, gold, inventory and inventory capacity, and the items
 * in the inventory. Saves are JSON documents in the `game_saves` table; here
 * they are records in a map from user id to player.
 */
module ServerSaves {

  type UserId = nat

  /**
   * An inventory item as the server sees it. A missing or empty string field
   * is "", and a missing level is 0: the routes only ever read these through
   * JavaScript's `||` defaults, for which both are falsy.
   */
  datatype Item = Item(id: string, kind: string, slot: string, rarity: string, level: int, name: string)

  /** `player` inside a save: a missing level or capacity is 0. */
  datatype Player = Player(level: int, gold: int, inventory: seq<Item>, maxInventory: int)

  /** `player.level || 1` */
  function EffectiveLevel(p: Player): (l: int)
    ensures p.level != 0 ==> l == p.level
    ensures p.level == 0 ==> l == 1
  {
    if p.level == 0 then 1 else p.level
  }

  /** `player.maxInventory || 20` */
  function Capacity(p: Player): (c: int)
    ensures p.maxInventory != 0 ==> c == p.maxInventory
    ensures p.maxInventory == 0 ==> c == 20
  {
    if p.maxInventory == 0 then 20 else p.maxInventory
  }

  /** `inventory.findIndex(i => i.id === id)`: the first index holding that id, or -1. */
  function FindIndex(inv: seq<Item>, id: string): (r: int)
    ensures -1 <= r < |inv|
    ensures r >= 0 ==> inv[r].id == id && forall k :: 0 <= k < r ==> inv[k].id != id
    ensures r == -1 <==> forall k :: 0 <= k < |inv| ==> inv[k].id != id
  {
    if inv == [] then -1
    else if inv[0].id == id then 0
    else
      var r := FindIndex(inv[1..], id);
      assert forall k :: 1 <= k < |inv| ==> inv[k] == inv[1..][k - 1];
      if r == -1 then -1 else r + 1
  }

  /** The ids of a sequence of items, in order. */
  function Ids(items: seq<Item>): (r: seq<string>)
    ensures |r| == |items| && forall k :: 0 <= k < |items| ==> r[k] == items[k].id
  {
    if items == [] then [] else [items[0].id] + Ids(items[1..])
  }

  /** Whether `id` is the id of some item of the sequence. */
  predicate HasId(items: seq<Item>, id: string)
  {
    exists k :: 0 <= k < |items| && items[k].id == id
  }
}
