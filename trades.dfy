/**
 * Friend-to-friend barter on the game server: a player offers items and gold
 * to a friend, who accepts (adding items and gold of their own in return),
 * declines, or the offer is cancelled by its sender.
 */
module Trades {
  import opened Common
  import opened ServerSaves

  type TradeId = nat

  datatype TradeStatus = Pending | Completed | Declined | Cancelled

  /** A row of `trades`; the item lists are the JSON the clients sent. */
  datatype Trade = Trade(
    from: UserId, to: UserId, offerItems: seq<Item>, offerGold: int,
    status: TradeStatus, returnItems: seq<Item>, returnGold: int)

  datatype TradesDb = TradesDb(saves: map<UserId, Player>, trades: map<TradeId, Trade>, nextId: TradeId)

  /** What POST /send guarantees of every stored offer. */
  predicate Inv(db: TradesDb)
  {
    forall id :: id in db.trades ==>
      id < db.nextId && db.trades[id].from != db.trades[id].to &&
      db.trades[id].offerGold >= 0 && Distinct(Ids(db.trades[id].offerItems)) &&
      (db.trades[id].offerItems != [] || db.trades[id].offerGold > 0)
  }

  /** `Math.max(0, Math.floor(x || 0))` for a gold amount sent by a client (a missing amount is 0). */
  function ClampGold(x: real): (g: int)
    ensures g >= 0
    ensures x >= 0.0 ==> g == x.Floor
    ensures x < 1.0 ==> g == 0
  {
    Max(0, x.Floor)
  }

  /** Whether an accepted invite links the two users, in either direction. */
  predicate Friends(accepted: set<(UserId, UserId)>, a: UserId, b: UserId)
  {
    (a, b) in accepted || (b, a) in accepted
  }

  /** Whether every item's id occurs in the inventory (`inventory.some(i => i.id === item.id)`). */
  predicate AllHeld(items: seq<Item>, inventory: seq<Item>)
  {
    forall k :: 0 <= k < |items| ==> HasId(inventory, items[k].id)
  }

  /** `inventory.filter(i => !ids.has(i.id))` */
  function RemoveIds(inventory: seq<Item>, ids: set<string>): (r: seq<Item>)
    ensures |r| <= |inventory|
    ensures forall k :: 0 <= k < |r| ==> r[k].id !in ids && r[k] in inventory
  {
    if inventory == [] then []
    else
      var rest := RemoveIds(inventory[1..], ids);
      if inventory[0].id in ids then rest else [inventory[0]] + rest
  }

  /** `inventory.filter(i => ids.has(i.id))`, the entries the other filter drops. */
  function KeepIds(inventory: seq<Item>, ids: set<string>): (r: seq<Item>)
    ensures forall k :: 0 <= k < |r| ==> r[k].id in ids && r[k] in inventory
  {
    if inventory == [] then []
    else
      var rest := KeepIds(inventory[1..], ids);
      if inventory[0].id in ids then [inventory[0]] + rest else rest
  }

  /** The two filters split an inventory: nothing is lost and nothing is made up. */
  lemma {:induction false} SplitByIds(inventory: seq<Item>, ids: set<string>)
    ensures multiset(RemoveIds(inventory, ids)) + multiset(KeepIds(inventory, ids)) == multiset(inventory)
  {
    if inventory != [] {
      var head, tail := inventory[0], inventory[1..];
      var r, k := RemoveIds(tail, ids), KeepIds(tail, ids);
      SplitByIds(tail, ids);
      assert inventory == [head] + tail;
      assert multiset(inventory) == multiset{head} + multiset(tail);
      if head.id in ids {
        assert RemoveIds(inventory, ids) == r && KeepIds(inventory, ids) == [head] + k;
        assert multiset([head] + k) == multiset{head} + multiset(k);
      } else {
        assert RemoveIds(inventory, ids) == [head] + r && KeepIds(inventory, ids) == k;
        assert multiset([head] + r) == multiset{head} + multiset(r);
      }
    }
  }

  /**
   * When the inventory's ids are pairwise distinct, removing a set of ids that
   * all occur in it removes exactly as many entries as there are ids; this is
   * the size `senderNewSize` and `receiverNewSize` predict.
   */
  lemma {:induction false} RemoveIdsCount(inventory: seq<Item>, ids: set<string>)
    requires Distinct(Ids(inventory))
    requires forall x :: x in ids ==> HasId(inventory, x)
    ensures |RemoveIds(inventory, ids)| == |inventory| - |ids|
  {
    if inventory == [] {
      assert ids == {};
    } else {
      var head := inventory[0];
      var tail := inventory[1..];
      assert Ids(tail) == Ids(inventory)[1..];
      assert forall k :: 0 <= k < |tail| ==> tail[k].id != head.id by {
        forall k | 0 <= k < |tail| ensures tail[k].id != head.id {
          assert Ids(inventory)[0] == head.id && Ids(inventory)[k + 1] == tail[k].id;
        }
      }
      var rest := ids - {head.id};
      forall x | x in rest ensures HasId(tail, x) {
        var k :| 0 <= k < |inventory| && inventory[k].id == x;
        assert k != 0;
        assert tail[k - 1].id == x;
      }
      RemoveIdsCount(tail, rest);
      RemoveIdsSame(tail, ids, rest, head.id);
    }
  }

  /** Ids absent from the inventory do not matter to the filter. */
  lemma {:induction false} RemoveIdsSame(inventory: seq<Item>, ids: set<string>, rest: set<string>, x: string)
    requires rest == ids - {x}
    requires forall k :: 0 <= k < |inventory| ==> inventory[k].id != x
    ensures RemoveIds(inventory, ids) == RemoveIds(inventory, rest)
  {
    if inventory != [] {
      RemoveIdsSame(inventory[1..], ids, rest, x);
    }
  }

  lemma IdSetSize(items: seq<Item>)
    requires Distinct(Ids(items))
    ensures |IdSet(items)| == |items|
  {
    DistinctCard(Ids(items));
  }

  /** A sequence without repetitions has as many distinct elements as entries. */
  lemma {:induction false} DistinctCard(s: seq<string>)
    requires Distinct(s)
    ensures |set x | x in s| == |s|
  {
    if s != [] {
      var t := s[1..];
      assert Distinct(t);
      DistinctCard(t);
      assert (set x | x in s) == (set x | x in t) + {s[0]};
      forall k | 0 <= k < |t| ensures t[k] != s[0] {
        assert t[k] == s[k + 1];
      }
      assert s[0] !in t;
    }
  }

  /** The set of ids of a sequence of items, `new Set(items.map(i => i.id))`. */
  function IdSet(items: seq<Item>): set<string>
  {
    set x | x in Ids(items)
  }

  // ---------------------------------------------------------------------------
  // POST /send

  datatype SendError =
    | RecipientRequired | SelfTrade | EmptyOffer | NotFriends | NoSaveData
    | SendNotEnoughGold | DuplicateItems | ItemNotInInventory

  function SendErrorStatus(e: SendError): (code: int)
    ensures code == 403 <==> e == NotFriends
    ensures code == 400 || code == 403
  {
    if e == NotFriends then 403 else 400
  }

  /**
   * The guards of POST /send, in the order the route checks them. The route's
   * `!toUserId` refuses the id 0 as well as a missing one.
   */
  function SendCheck(db: TradesDb, accepted: set<(UserId, UserId)>, me: UserId, to: Option<UserId>,
                     items: seq<Item>, offerGold: real): (r: Option<SendError>)
    ensures r.None? <==>
      to.Some? && to.value != 0 && to.value != me && (items != [] || ClampGold(offerGold) > 0) &&
      Friends(accepted, me, to.value) && me in db.saves &&
      ClampGold(offerGold) <= db.saves[me].gold &&
      Distinct(Ids(items)) && AllHeld(items, db.saves[me].inventory)
  {
    if to.None? || to.value == 0 then Some(RecipientRequired)
    else if to.value == me then Some(SelfTrade)
    else
      var gold := ClampGold(offerGold);
      if items == [] && gold == 0 then Some(EmptyOffer)
      else if !Friends(accepted, me, to.value) then Some(NotFriends)
      else if me !in db.saves then Some(NoSaveData)
      else if gold > db.saves[me].gold then Some(SendNotEnoughGold)
      else if !Distinct(Ids(items)) then Some(DuplicateItems)
      else if !AllHeld(items, db.saves[me].inventory) then Some(ItemNotInInventory)
      else None
  }

  /** A recipient id of 0 is falsy, so it is refused as a missing recipient (400) before any other guard. */
  lemma ZeroRecipientRequired(db: TradesDb, accepted: set<(UserId, UserId)>, me: UserId,
                              items: seq<Item>, offerGold: real)
    ensures SendCheck(db, accepted, me, Some(0), items, offerGold) == Some(RecipientRequired)
    ensures SendErrorStatus(RecipientRequired) == 400
    ensures SendSpec(db, accepted, me, Some(0), items, offerGold) == (db, Err(RecipientRequired))
  {
  }

  /** POST /send: a successful offer inserts a pending trade and changes no save. */
  function SendSpec(db: TradesDb, accepted: set<(UserId, UserId)>, me: UserId, to: Option<UserId>,
                    items: seq<Item>, offerGold: real): (TradesDb, Result<TradeId, SendError>)
  {
    match SendCheck(db, accepted, me, to, items, offerGold)
    case Some(e) => (db, Err(e))
    case None =>
      var t := Trade(me, to.value, items, ClampGold(offerGold), Pending, [], 0);
      (db.(trades := db.trades[db.nextId := t], nextId := db.nextId + 1), Ok(db.nextId))
  }

  lemma SendKeepsInv(db: TradesDb, accepted: set<(UserId, UserId)>, me: UserId, to: Option<UserId>,
                     items: seq<Item>, offerGold: real)
    requires Inv(db)
    ensures var (db', r) := SendSpec(db, accepted, me, to, items, offerGold);
      Inv(db') && db'.saves == db.saves &&
      (r.Ok? ==> r.value !in db.trades && db'.trades[r.value].status == Pending &&
                 Friends(accepted, db'.trades[r.value].from, db'.trades[r.value].to))
  {
  }

  // ---------------------------------------------------------------------------
  // POST /:id/accept

  datatype AcceptError =
    | TradeNotFound | NotYourTrade | AlreadyHandled | SaveMissing
    | SenderLacksItems | SenderLacksGold
    | DuplicateReturnItems | ReturnItemNotFound | AcceptNotEnoughGold
    | SenderTooFull | ReceiverTooFull

  function AcceptErrorStatus(e: AcceptError): (code: int)
    ensures code == 404 <==> e == TradeNotFound
    ensures code == 403 <==> e == NotYourTrade
    ensures code in {400, 403, 404}
  {
    match e
    case TradeNotFound => 404
    case NotYourTrade => 403
    case _ => 400
  }

  /** The guards of POST /:id/accept, in the order the route checks them. */
  function AcceptCheck(db: TradesDb, me: UserId, id: TradeId, rItems: seq<Item>, rGold: int): (r: Option<AcceptError>)
    ensures r.None? <==>
      id in db.trades && db.trades[id].to == me && db.trades[id].status == Pending &&
      db.trades[id].from in db.saves && me in db.saves &&
      AllHeld(db.trades[id].offerItems, db.saves[db.trades[id].from].inventory) &&
      db.trades[id].offerGold <= db.saves[db.trades[id].from].gold &&
      Distinct(Ids(rItems)) && AllHeld(rItems, db.saves[me].inventory) && rGold <= db.saves[me].gold &&
      |db.saves[db.trades[id].from].inventory| - |db.trades[id].offerItems| + |rItems|
        <= Capacity(db.saves[db.trades[id].from]) &&
      |db.saves[me].inventory| - |rItems| + |db.trades[id].offerItems| <= Capacity(db.saves[me])
    ensures r == Some(SenderLacksItems) <==>
      id in db.trades && db.trades[id].to == me && db.trades[id].status == Pending &&
      db.trades[id].from in db.saves && me in db.saves &&
      !AllHeld(db.trades[id].offerItems, db.saves[db.trades[id].from].inventory)
  {
    if id !in db.trades then Some(TradeNotFound)
    else
      var t := db.trades[id];
      if t.to != me then Some(NotYourTrade)
      else if t.status != Pending then Some(AlreadyHandled)
      else if t.from !in db.saves || me !in db.saves then Some(SaveMissing)
      else
        var s := db.saves[t.from];
        var rc := db.saves[me];
        if !AllHeld(t.offerItems, s.inventory) then Some(SenderLacksItems)
        else if t.offerGold > s.gold then Some(SenderLacksGold)
        else if !Distinct(Ids(rItems)) then Some(DuplicateReturnItems)
        else if !AllHeld(rItems, rc.inventory) then Some(ReturnItemNotFound)
        else if rGold > rc.gold then Some(AcceptNotEnoughGold)
        else if |s.inventory| - |t.offerItems| + |rItems| > Capacity(s) then Some(SenderTooFull)
        else if |rc.inventory| - |rItems| + |t.offerItems| > Capacity(rc) then Some(ReceiverTooFull)
        else None
  }

  /**
   * POST /:id/accept as written: each side drops the entries whose ids it
   * gives away and receives the item objects the other side's client sent.
   */
  function AcceptSpec(db: TradesDb, me: UserId, id: TradeId, returnItems: seq<Item>, returnGold: real)
    : (TradesDb, Result<(), AcceptError>)
  {
    var rGold := ClampGold(returnGold);
    match AcceptCheck(db, me, id, returnItems, rGold)
    case Some(e) =>
      if e == SenderLacksItems || e == SenderLacksGold then
        (db.(trades := db.trades[id := db.trades[id].(status := Cancelled)]), Err(e))
      else (db, Err(e))
    case None =>
      var t := db.trades[id];
      var s := db.saves[t.from];
      var rc := db.saves[me];
      var s' := s.(inventory := RemoveIds(s.inventory, IdSet(t.offerItems)) + returnItems,
                   gold := s.gold - t.offerGold + rGold);
      var rc' := rc.(inventory := RemoveIds(rc.inventory, IdSet(returnItems)) + t.offerItems,
                     gold := rc.gold - rGold + t.offerGold);
      (db.(saves := db.saves[t.from := s'][me := rc'],
           trades := db.trades[id := t.(status := Completed, returnItems := returnItems, returnGold := rGold)]),
       Ok(()))
  }

  /**
   * A completed trade keeps the two players' combined gold, leaves neither
   * below zero, gives each side the other's items and marks the trade
   * completed.
   */
  lemma AcceptCompletes(db: TradesDb, me: UserId, id: TradeId, returnItems: seq<Item>, returnGold: real)
    requires Inv(db)
    requires AcceptCheck(db, me, id, returnItems, ClampGold(returnGold)).None?
    requires db.saves[db.trades[id].from].gold >= 0 && db.saves[me].gold >= 0
    ensures var (db', r) := AcceptSpec(db, me, id, returnItems, returnGold);
      var t := db.trades[id];
      r.Ok? &&
      db'.saves[t.from].gold + db'.saves[me].gold == db.saves[t.from].gold + db.saves[me].gold &&
      db'.saves[t.from].gold >= 0 && db'.saves[me].gold >= 0 &&
      db'.saves[t.from].inventory == RemoveIds(db.saves[t.from].inventory, IdSet(t.offerItems)) + returnItems &&
      db'.saves[me].inventory == RemoveIds(db.saves[me].inventory, IdSet(returnItems)) + t.offerItems &&
      db'.trades[id].status == Completed &&
      (forall u :: u in db.saves && u != me && u != t.from ==> db'.saves[u] == db.saves[u])
  {
  }

  /**
   * When both inventories hold pairwise-distinct ids, each side ends with
   * exactly the size the route predicted, so neither exceeds its capacity.
   */
  lemma AcceptRespectsCapacity(db: TradesDb, me: UserId, id: TradeId, returnItems: seq<Item>, returnGold: real)
    requires Inv(db)
    requires AcceptCheck(db, me, id, returnItems, ClampGold(returnGold)).None?
    requires Distinct(Ids(db.saves[db.trades[id].from].inventory)) && Distinct(Ids(db.saves[me].inventory))
    ensures var db' := AcceptSpec(db, me, id, returnItems, returnGold).0;
      var t := db.trades[id];
      |db'.saves[t.from].inventory| <= Capacity(db.saves[t.from]) &&
      |db'.saves[me].inventory| <= Capacity(db.saves[me])
  {
    var t := db.trades[id];
    var s := db.saves[t.from];
    var rc := db.saves[me];
    IdSetSize(t.offerItems);
    IdSetSize(returnItems);
    forall x | x in IdSet(t.offerItems) ensures HasId(s.inventory, x) {
      var k :| 0 <= k < |t.offerItems| && Ids(t.offerItems)[k] == x;
    }
    forall x | x in IdSet(returnItems) ensures HasId(rc.inventory, x) {
      var k :| 0 <= k < |returnItems| && Ids(returnItems)[k] == x;
    }
    RemoveIdsCount(s.inventory, IdSet(t.offerItems));
    RemoveIdsCount(rc.inventory, IdSet(returnItems));
  }

  /** An offer the sender can no longer cover is cancelled, and no save changes. */
  lemma StaleOfferCancelled(db: TradesDb, me: UserId, id: TradeId, returnItems: seq<Item>, returnGold: real)
    requires AcceptCheck(db, me, id, returnItems, ClampGold(returnGold)) in {Some(SenderLacksItems), Some(SenderLacksGold)}
    ensures var (db', r) := AcceptSpec(db, me, id, returnItems, returnGold);
      r.Err? && db'.saves == db.saves && db'.trades[id].status == Cancelled &&
      db.trades[id].status == Pending
  {
  }

  // ---------------------------------------------------------------------------
  // The item-forgery finding

  /**
   * The intended accept: the items handed over are the stored inventory
   * entries carrying the agreed ids, not whatever objects the clients sent.
   */
  function AcceptSpecCorrected(db: TradesDb, me: UserId, id: TradeId, returnItems: seq<Item>, returnGold: real)
    : (TradesDb, Result<(), AcceptError>)
  {
    var rGold := ClampGold(returnGold);
    match AcceptCheck(db, me, id, returnItems, rGold)
    case Some(e) =>
      if e == SenderLacksItems || e == SenderLacksGold then
        (db.(trades := db.trades[id := db.trades[id].(status := Cancelled)]), Err(e))
      else (db, Err(e))
    case None =>
      var t := db.trades[id];
      var s := db.saves[t.from];
      var rc := db.saves[me];
      var given := KeepIds(s.inventory, IdSet(t.offerItems));
      var returned := KeepIds(rc.inventory, IdSet(returnItems));
      var s' := s.(inventory := RemoveIds(s.inventory, IdSet(t.offerItems)) + returned,
                   gold := s.gold - t.offerGold + rGold);
      var rc' := rc.(inventory := RemoveIds(rc.inventory, IdSet(returnItems)) + given,
                     gold := rc.gold - rGold + t.offerGold);
      (db.(saves := db.saves[t.from := s'][me := rc'],
           trades := db.trades[id := t.(status := Completed, returnItems := returned, returnGold := rGold)]),
       Ok(()))
  }

  /** With the correction a trade only moves items: the two inventories together hold exactly what they held. */
  lemma CorrectedAcceptConservesItems(db: TradesDb, me: UserId, id: TradeId, returnItems: seq<Item>, returnGold: real)
    requires Inv(db)
    requires AcceptCheck(db, me, id, returnItems, ClampGold(returnGold)).None?
    ensures var (db', r) := AcceptSpecCorrected(db, me, id, returnItems, returnGold);
      var t := db.trades[id];
      r.Ok? &&
      multiset(db'.saves[t.from].inventory) + multiset(db'.saves[me].inventory) ==
        multiset(db.saves[t.from].inventory) + multiset(db.saves[me].inventory) &&
      db'.saves[t.from].gold + db'.saves[me].gold == db.saves[t.from].gold + db.saves[me].gold
  {
    var t := db.trades[id];
    SplitByIds(db.saves[t.from].inventory, IdSet(t.offerItems));
    SplitByIds(db.saves[me].inventory, IdSet(returnItems));
  }

  /**
   * As written, a receiver can send back an object that reuses the id of a
   * worthless item of theirs but has any other contents; the sender receives
   * that object, which neither inventory held.
   */
  lemma ForgedReturnItem()
    ensures
      var stick := Item("x1", "", "weapon", "Common", 1, "Stick");
      var forged := Item("x1", "", "weapon", "Legendary", 50, "Excalibur");
      var gem := Item("g1", "", "", "Common", 1, "Gem");
      var sender := Player(10, 100, [gem], 20);
      var receiver := Player(10, 100, [stick], 20);
      var db := TradesDb(map[1 := sender, 2 := receiver], map[0 := Trade(1, 2, [gem], 0, Pending, [], 0)], 1);
      var db' := AcceptSpec(db, 2, 0, [forged], 0.0).0;
      Inv(db) && AcceptCheck(db, 2, 0, [forged], 0).None? &&
      forged in db'.saves[1].inventory &&
      forged !in db.saves[1].inventory && forged !in db.saves[2].inventory
  {
    var stick := Item("x1", "", "weapon", "Common", 1, "Stick");
    var forged := Item("x1", "", "weapon", "Legendary", 50, "Excalibur");
    var gem := Item("g1", "", "", "Common", 1, "Gem");
    var sender := Player(10, 100, [gem], 20);
    var receiver := Player(10, 100, [stick], 20);
    var db := TradesDb(map[1 := sender, 2 := receiver], map[0 := Trade(1, 2, [gem], 0, Pending, [], 0)], 1);
    assert Ids([gem]) == ["g1"];
    assert Ids([forged]) == ["x1"];
    assert HasId([gem], gem.id);
    assert [stick][0].id == forged.id;
    assert HasId([stick], forged.id);
    assert AcceptCheck(db, 2, 0, [forged], 0).None?;
    var db' := AcceptSpec(db, 2, 0, [forged], 0.0).0;
    assert IdSet([gem]) == {"g1"};
    assert IdSet([forged]) == {"x1"};
    assert RemoveIds([gem], {"g1"}) == [];
    assert db'.saves[1].inventory == [forged];
  }

  // ---------------------------------------------------------------------------
  // POST /:id/decline and POST /:id/cancel

  datatype CloseError = CloseNotFound | CloseNotYours | CloseAlreadyHandled

  function CloseErrorStatus(e: CloseError): (code: int)
    ensures code == 404 <==> e == CloseNotFound
    ensures code == 403 <==> e == CloseNotYours
  {
    match e
    case CloseNotFound => 404
    case CloseNotYours => 403
    case CloseAlreadyHandled => 400
  }

  /** Decline (by the recipient) or cancel (by the sender) a pending trade. */
  function CloseSpec(db: TradesDb, me: UserId, id: TradeId, byRecipient: bool): (TradesDb, Result<(), CloseError>)
  {
    if id !in db.trades then (db, Err(CloseNotFound))
    else
      var t := db.trades[id];
      if (if byRecipient then t.to else t.from) != me then (db, Err(CloseNotYours))
      else if t.status != Pending then (db, Err(CloseAlreadyHandled))
      else (db.(trades := db.trades[id := t.(status := if byRecipient then Declined else Cancelled)]), Ok(()))
  }

  /** Decline and cancel only ever move a pending trade of the right party, and never touch a save. */
  lemma CloseOnlyPending(db: TradesDb, me: UserId, id: TradeId, byRecipient: bool)
    ensures var (db', r) := CloseSpec(db, me, id, byRecipient);
      db'.saves == db.saves &&
      (r.Ok? <==> id in db.trades && db.trades[id].status == Pending &&
                  me == (if byRecipient then db.trades[id].to else db.trades[id].from)) &&
      (r.Ok? ==> db'.trades == db.trades[id := db.trades[id].(status := if byRecipient then Declined else Cancelled)]) &&
      (r.Err? ==> db' == db)
  {
  }

  /** Only pending trades ever change status, and every route keeps the stored-offer invariant. */
  predicate SettledTradesKept(db: TradesDb, db': TradesDb)
  {
    db.trades.Keys <= db'.trades.Keys &&
    forall id :: id in db.trades && db.trades[id].status != Pending ==> db'.trades[id] == db.trades[id]
  }

  lemma SendKeepsSettled(db: TradesDb, accepted: set<(UserId, UserId)>, me: UserId, to: Option<UserId>,
                         items: seq<Item>, gold: real)
    requires Inv(db)
    ensures SettledTradesKept(db, SendSpec(db, accepted, me, to, items, gold).0)
  {
  }

  lemma AcceptKeepsSettled(db: TradesDb, me: UserId, id: TradeId, items: seq<Item>, gold: real)
    requires Inv(db)
    ensures SettledTradesKept(db, AcceptSpec(db, me, id, items, gold).0) && Inv(AcceptSpec(db, me, id, items, gold).0)
  {
    var db' := AcceptSpec(db, me, id, items, gold).0;
    var rGold := ClampGold(gold);
    var c := AcceptCheck(db, me, id, items, rGold);
    if c.None? {
      var t := db.trades[id];
      assert db'.trades == db.trades[id := t.(status := Completed, returnItems := items, returnGold := rGold)];
      PendingUpdateKeeps(db, db', id, t.(status := Completed, returnItems := items, returnGold := rGold));
    } else if c.value == SenderLacksItems || c.value == SenderLacksGold {
      assert id in db.trades && db.trades[id].status == Pending;
      assert db'.trades == db.trades[id := db.trades[id].(status := Cancelled)];
      PendingUpdateKeeps(db, db', id, db.trades[id].(status := Cancelled));
    } else {
      assert db' == db;
    }
  }

  /** Replacing a pending trade by one with the same parties and offer keeps the invariant and every settled trade. */
  lemma PendingUpdateKeeps(db: TradesDb, db': TradesDb, id: TradeId, t': Trade)
    requires Inv(db) && id in db.trades && db.trades[id].status == Pending
    requires t'.from == db.trades[id].from && t'.to == db.trades[id].to
    requires t'.offerItems == db.trades[id].offerItems && t'.offerGold == db.trades[id].offerGold
    requires db'.trades == db.trades[id := t'] && db'.nextId == db.nextId
    ensures SettledTradesKept(db, db') && Inv(db')
  {
  }

  lemma CloseKeepsSettled(db: TradesDb, me: UserId, id: TradeId, byRecipient: bool)
    requires Inv(db)
    ensures SettledTradesKept(db, CloseSpec(db, me, id, byRecipient).0) && Inv(CloseSpec(db, me, id, byRecipient).0)
  {
    var (db', r) := CloseSpec(db, me, id, byRecipient);
    if r.Ok? {
      var t' := db.trades[id].(status := if byRecipient then Declined else Cancelled);
      assert db'.trades == db.trades[id := t'];
      PendingUpdateKeeps(db, db', id, t');
    } else {
      assert db' == db;
    }
  }

  // ---------------------------------------------------------------------------
  // The routes over the tables

  class TradeRoutes {
    var saves: map<UserId, Player>
    var trades: map<TradeId, Trade>
    var nextId: TradeId

    function Db(): TradesDb
      reads this
    {
      TradesDb(saves, trades, nextId)
    }

    constructor (saves0: map<UserId, Player>)
      ensures Db() == TradesDb(saves0, map[], 0) && Inv(Db())
    {
      saves := saves0;
      trades := map[];
      nextId := 0;
    }

    /** POST /send; `accepted` holds the (from, to) pairs of the accepted invites. */
    method Send(me: UserId, accepted: set<(UserId, UserId)>, to: Option<UserId>, offerItems: seq<Item>, offerGold: real)
      returns (r: Result<TradeId, SendError>)
      modifies this
      ensures (Db(), r) == SendSpec(old(Db()), accepted, me, to, offerItems, offerGold)
    {
      if to.None? || to.value == 0 {
        return Err(RecipientRequired);
      }
      if to.value == me {
        return Err(SelfTrade);
      }
      var gold := ClampGold(offerGold);
      if |offerItems| == 0 && gold == 0 {
        return Err(EmptyOffer);
      }
      if !Friends(accepted, me, to.value) {
        return Err(NotFriends);
      }
      if me !in saves {
        return Err(NoSaveData);
      }
      var player := saves[me];
      if gold > player.gold {
        return Err(SendNotEnoughGold);
      }
      var offerItemIds := Ids(offerItems);
      if !Distinct(offerItemIds) {
        return Err(DuplicateItems);
      }
      var k := 0;
      while k < |offerItemIds|
        invariant 0 <= k <= |offerItemIds|
        invariant forall j :: 0 <= j < k ==> HasId(player.inventory, offerItems[j].id)
      {
        if FindIndex(player.inventory, offerItemIds[k]) == -1 {
          return Err(ItemNotInInventory);
        }
        k := k + 1;
      }
      trades := trades[nextId := Trade(me, to.value, offerItems, gold, Pending, [], 0)];
      r := Ok(nextId);
      nextId := nextId + 1;
    }

    /** POST /:id/accept, as written. */
    method Accept(me: UserId, id: TradeId, returnItems: seq<Item>, returnGold: real) returns (r: Result<(), AcceptError>)
      modifies this
      ensures (Db(), r) == AcceptSpec(old(Db()), me, id, returnItems, returnGold)
    {
      if id !in trades {
        return Err(TradeNotFound);
      }
      var trade := trades[id];
      if trade.to != me {
        return Err(NotYourTrade);
      }
      if trade.status != Pending {
        return Err(AlreadyHandled);
      }
      var rGold := ClampGold(returnGold);
      if trade.from !in saves || me !in saves {
        return Err(SaveMissing);
      }
      var senderPlayer := saves[trade.from];
      var receiverPlayer := saves[me];
      if !AllHeld(trade.offerItems, senderPlayer.inventory) {
        trades := trades[id := trade.(status := Cancelled)];
        return Err(SenderLacksItems);
      }
      if trade.offerGold > senderPlayer.gold {
        trades := trades[id := trade.(status := Cancelled)];
        return Err(SenderLacksGold);
      }
      if !Distinct(Ids(returnItems)) {
        return Err(DuplicateReturnItems);
      }
      if !AllHeld(returnItems, receiverPlayer.inventory) {
        return Err(ReturnItemNotFound);
      }
      if rGold > receiverPlayer.gold {
        return Err(AcceptNotEnoughGold);
      }
      var senderNewSize := |senderPlayer.inventory| - |trade.offerItems| + |returnItems|;
      var receiverNewSize := |receiverPlayer.inventory| - |returnItems| + |trade.offerItems|;
      if senderNewSize > Capacity(senderPlayer) {
        return Err(SenderTooFull);
      }
      if receiverNewSize > Capacity(receiverPlayer) {
        return Err(ReceiverTooFull);
      }
      senderPlayer := senderPlayer.(inventory := RemoveIds(senderPlayer.inventory, IdSet(trade.offerItems)) + returnItems);
      senderPlayer := senderPlayer.(gold := senderPlayer.gold - trade.offerGold + rGold);
      receiverPlayer := receiverPlayer.(inventory := RemoveIds(receiverPlayer.inventory, IdSet(returnItems)) + trade.offerItems);
      receiverPlayer := receiverPlayer.(gold := receiverPlayer.gold - rGold + trade.offerGold);
      saves := saves[trade.from := senderPlayer];
      saves := saves[me := receiverPlayer];
      trades := trades[id := trade.(status := Completed, returnItems := returnItems, returnGold := rGold)];
      r := Ok(());
    }

    /** POST /:id/decline (byRecipient) and POST /:id/cancel (by the sender). */
    method Close(me: UserId, id: TradeId, byRecipient: bool) returns (r: Result<(), CloseError>)
      modifies this
      ensures (Db(), r) == CloseSpec(old(Db()), me, id, byRecipient)
    {
      if id !in trades {
        return Err(CloseNotFound);
      }
      var trade := trades[id];
      var party := if byRecipient then trade.to else trade.from;
      if party != me {
        return Err(CloseNotYours);
      }
      if trade.status != Pending {
        return Err(CloseAlreadyHandled);
      }
      trades := trades[id := trade.(status := if byRecipient then Declined else Cancelled)];
      r := Ok(());
    }
  }
}
