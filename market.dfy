/**
 * The player market of the game server: listing an inventory item for sale,
 * buying another player's listing and cancelling one's own listing. Each
 * route is a chain of guards followed by one update of the saves and the
 * `market_listings` table.
 */
module Market {
  import opened Common
  import opened ServerSaves

  const MinPrice: int := 10
  const MaxPrice: int := 999999
  const MaxActiveListings: int := 8
  const MinLevel: int := 10

  type ListingId = nat

  datatype Status = Active | Sold | Cancelled

  /** A row of `market_listings`; `buyer` is `buyer_user_id`, set when the listing is sold. */
  datatype Listing = Listing(
    seller: UserId, item: Item, price: int, category: string, rarity: string,
    itemLevel: int, itemName: string, status: Status, buyer: Option<UserId>)

  /** The server tables the market touches; `nextId` is the next autoincrement row id. */
  datatype MarketDb = MarketDb(saves: map<UserId, Player>, listings: map<ListingId, Listing>, nextId: ListingId)

  /** What the routes keep true of the listings table. */
  predicate Inv(db: MarketDb)
  {
    forall id :: id in db.listings ==>
      id < db.nextId &&
      MinPrice <= db.listings[id].price <= MaxPrice &&
      (db.listings[id].status == Sold <==> db.listings[id].buyer.Some?) &&
      (db.listings[id].buyer.Some? ==> db.listings[id].buyer.value != db.listings[id].seller)
  }

  // ---------------------------------------------------------------------------
  // Fees and categories

  /** `Math.max(1, Math.floor(intPrice * 0.05))` */
  function ListingFee(intPrice: int): (fee: int)
    ensures fee >= 1
    ensures fee == 1 || (fee * 20 <= intPrice < (fee + 1) * 20)
    ensures intPrice >= 20 ==> fee * 20 <= intPrice < (fee + 1) * 20
  {
    Max(1, intPrice / 20)
  }

  /** `Math.max(1, Math.floor(price * 0.10))` */
  function SaleTax(price: int): (tax: int)
    ensures tax >= 1
    ensures price >= 10 ==> tax * 10 <= price < (tax + 1) * 10
    ensures price >= 10 ==> tax < price
  {
    Max(1, price / 10)
  }

  const Categories: set<string> :=
    {"potions", "energy-drinks", "weapons", "shields", "helmets", "armor", "boots", "accessories", "misc"}

  const GearSlots: set<string> := {"weapon", "shield", "helmet", "armor", "boots", "accessory"}

  /** `getItemCategory`: the type is looked at before the slot; anything unknown is 'misc'. */
  function ItemCategory(item: Item): (c: string)
    ensures c in Categories
    ensures c == "misc" <==> item.kind != "potion" && item.kind != "energy-drink" && item.slot !in GearSlots
    ensures item.kind == "potion" ==> c == "potions"
    ensures item.kind == "energy-drink" ==> c == "energy-drinks"
    ensures item.kind != "potion" && item.kind != "energy-drink" && item.slot in GearSlots ==> SlotOfCategory(c) == item.slot
  {
    if item.kind == "potion" then "potions"
    else if item.kind == "energy-drink" then "energy-drinks"
    else if item.slot == "weapon" then "weapons"
    else if item.slot == "shield" then "shields"
    else if item.slot == "helmet" then "helmets"
    else if item.slot == "armor" then "armor"
    else if item.slot == "boots" then "boots"
    else if item.slot == "accessory" then "accessories"
    else "misc"
  }

  /** Different gear slots land in different categories, so a category filter finds exactly one slot. */
  lemma GearCategoriesDistinct(a: Item, b: Item)
    requires a.kind != "potion" && a.kind != "energy-drink" && b.kind != "potion" && b.kind != "energy-drink"
    requires a.slot in GearSlots && b.slot in GearSlots
    ensures ItemCategory(a) == ItemCategory(b) <==> a.slot == b.slot
  {
    SlotRecovered(a);
    SlotRecovered(b);
  }

  /** The gear slot a category was named after; "" for the categories no slot leads to. */
  function SlotOfCategory(c: string): (slot: string)
    ensures slot in GearSlots <==> c in Categories - {"potions", "energy-drinks", "misc"}
  {
    if c == "weapons" then "weapon"
    else if c == "shields" then "shield"
    else if c == "helmets" then "helmet"
    else if c == "armor" then "armor"
    else if c == "boots" then "boots"
    else if c == "accessories" then "accessory"
    else ""
  }

  /** A gear item's category names its slot, whatever its type (a 'sword' is in 'weapons' by its slot). */
  lemma SlotRecovered(a: Item)
    requires a.kind != "potion" && a.kind != "energy-drink" && a.slot in GearSlots
    ensures SlotOfCategory(ItemCategory(a)) == a.slot
  {
  }

  /** A dropped sword, whose type is 'sword' and whose slot is 'weapon', is listed under 'weapons'. */
  lemma SwordIsWeapon(a: Item)
    requires a.kind == "sword" && a.slot == "weapon"
    ensures ItemCategory(a) == "weapons"
  {
  }

  /** `SELECT COUNT(*) … WHERE seller_user_id = ? AND status = 'active'` */
  function ActiveIds(listings: map<ListingId, Listing>, user: UserId): set<ListingId>
  {
    set id | id in listings && listings[id].seller == user && listings[id].status == Active
  }

  function CountActive(listings: map<ListingId, Listing>, user: UserId): nat
  {
    |ActiveIds(listings, user)|
  }

  // ---------------------------------------------------------------------------
  // POST /list

  datatype ListError =
    | ItemRequired | PriceOutOfRange | NoSaveData | LevelTooLow
    | TooManyListings | ItemNotInInventory | CannotAffordFee

  datatype ListOk = ListOk(listingId: ListingId, fee: int, newGold: int)

  /** The HTTP status of a refused listing. */
  function ListErrorStatus(e: ListError): (code: int)
    ensures code == 403 <==> e == LevelTooLow
    ensures code == 400 || code == 403
  {
    if e == LevelTooLow then 403 else 400
  }

  /** What a successful listing will do: which inventory slot it takes, at what price and fee. */
  datatype ListPlan = ListPlan(index: nat, intPrice: int, fee: int)

  /** The guards of POST /list, in the order the route checks them. */
  function ListCheck(db: MarketDb, user: UserId, itemId: string, price: real): (r: Result<ListPlan, ListError>)
    ensures r.Ok? <==>
      itemId != "" && MinPrice as real <= price <= MaxPrice as real && user in db.saves &&
      EffectiveLevel(db.saves[user]) >= MinLevel && CountActive(db.listings, user) < MaxActiveListings &&
      FindIndex(db.saves[user].inventory, itemId) >= 0 &&
      db.saves[user].gold >= ListingFee(price.Floor)
    ensures r.Ok? ==>
      r.value.index < |db.saves[user].inventory| && db.saves[user].inventory[r.value.index].id == itemId &&
      r.value.intPrice == price.Floor && MinPrice <= r.value.intPrice <= MaxPrice &&
      r.value.fee == ListingFee(r.value.intPrice) && 1 <= r.value.fee <= db.saves[user].gold
    ensures r == Err(ItemRequired) <==> itemId == ""
    ensures r == Err(PriceOutOfRange) <==> itemId != "" && (price < MinPrice as real || price > MaxPrice as real)
  {
    if itemId == "" then Err(ItemRequired)
    else if price < MinPrice as real || price > MaxPrice as real then Err(PriceOutOfRange)
    else if user !in db.saves then Err(NoSaveData)
    else
      var player := db.saves[user];
      if EffectiveLevel(player) < MinLevel then Err(LevelTooLow)
      else if CountActive(db.listings, user) >= MaxActiveListings then Err(TooManyListings)
      else
        var index := FindIndex(player.inventory, itemId);
        if index == -1 then Err(ItemNotInInventory)
        else
          var fee := ListingFee(price.Floor);
          if player.gold < fee then Err(CannotAffordFee)
          else Ok(ListPlan(index, price.Floor, fee))
  }

  /** The row `createListing` inserts for an item. */
  function NewListing(seller: UserId, item: Item, intPrice: int): (l: Listing)
    ensures l.status == Active && l.buyer == None && l.seller == seller && l.price == intPrice && l.item == item
    ensures l.category in Categories && l.rarity != "" && l.itemLevel != 0 && l.itemName != ""
  {
    Listing(seller, item, intPrice, ItemCategory(item),
            if item.rarity == "" then "Common" else item.rarity,
            if item.level == 0 then 1 else item.level,
            if item.name == "" then "Unknown Item" else item.name,
            Active, None)
  }

  /** POST /list as a transition of the tables, with the response. */
  function ListSpec(db: MarketDb, user: UserId, itemId: string, price: real): (MarketDb, Result<ListOk, ListError>)
  {
    match ListCheck(db, user, itemId, price)
    case Err(e) => (db, Err(e))
    case Ok(plan) =>
      var p := db.saves[user];
      var p' := p.(inventory := RemoveAt(p.inventory, plan.index), gold := p.gold - plan.fee);
      var l := NewListing(user, p.inventory[plan.index], plan.intPrice);
      (MarketDb(db.saves[user := p'], db.listings[db.nextId := l], db.nextId + 1),
       Ok(ListOk(db.nextId, plan.fee, p'.gold)))
  }

  /**
   * A successful listing takes exactly the one inventory entry, lowers gold
   * by exactly the fee without going below zero, adds one active listing of
   * that item at the floored price and touches no other save.
   */
  lemma {:induction false} ListSucceeds(db: MarketDb, user: UserId, itemId: string, price: real)
    requires Inv(db)
    requires ListCheck(db, user, itemId, price).Ok?
    ensures var (db', r) := ListSpec(db, user, itemId, price);
      var p := db.saves[user];
      var p' := db'.saves[user];
      var plan := ListCheck(db, user, itemId, price).value;
      r.Ok? && r.value.fee == ListingFee(price.Floor) &&
      db'.saves.Keys == db.saves.Keys &&
      (forall u :: u in db.saves && u != user ==> db'.saves[u] == db.saves[u]) &&
      |p'.inventory| == |p.inventory| - 1 &&
      multiset(p'.inventory) + multiset{p.inventory[plan.index]} == multiset(p.inventory) &&
      p.inventory[plan.index].id == itemId &&
      p'.gold == p.gold - r.value.fee >= 0 &&
      r.value.listingId !in db.listings &&
      db'.listings == db.listings[r.value.listingId := db'.listings[r.value.listingId]] &&
      db'.listings[r.value.listingId].status == Active &&
      db'.listings[r.value.listingId].price == price.Floor &&
      CountActive(db'.listings, user) == CountActive(db.listings, user) + 1 <= MaxActiveListings
  {
    var (db', r) := ListSpec(db, user, itemId, price);
    var id := db.nextId;
    assert id !in db.listings;
    assert ActiveIds(db'.listings, user) == ActiveIds(db.listings, user) + {id};
    assert id !in ActiveIds(db.listings, user);
  }

  // ---------------------------------------------------------------------------
  // POST /:id/buy

  datatype BuyError =
    | ListingNotFound | NoLongerAvailable | OwnListing | BuyerNoSave | BuyerLevelTooLow
    | NotEnoughGold | InventoryFull | SellerDataMissing

  function BuyErrorStatus(e: BuyError): (code: int)
    ensures e == ListingNotFound <==> code == 404
    ensures e == BuyerLevelTooLow <==> code == 403
    ensures e == SellerDataMissing <==> code == 500
    ensures code in {400, 403, 404, 500}
  {
    match e
    case ListingNotFound => 404
    case BuyerLevelTooLow => 403
    case SellerDataMissing => 500
    case _ => 400
  }

  datatype BuyOk = BuyOk(item: Item, price: int, saleTax: int, newGold: int)

  /** The guards of POST /:id/buy, in the order the route checks them. */
  function BuyCheck(db: MarketDb, buyer: UserId, id: ListingId): (r: Option<BuyError>)
    ensures r.None? <==>
      id in db.listings && db.listings[id].status == Active && db.listings[id].seller != buyer &&
      buyer in db.saves && EffectiveLevel(db.saves[buyer]) >= MinLevel &&
      db.saves[buyer].gold >= db.listings[id].price &&
      |db.saves[buyer].inventory| < Capacity(db.saves[buyer]) &&
      db.listings[id].seller in db.saves
    ensures r == Some(ListingNotFound) <==> id !in db.listings
  {
    if id !in db.listings then Some(ListingNotFound)
    else
      var l := db.listings[id];
      if l.status != Active then Some(NoLongerAvailable)
      else if l.seller == buyer then Some(OwnListing)
      else if buyer !in db.saves then Some(BuyerNoSave)
      else
        var b := db.saves[buyer];
        if EffectiveLevel(b) < MinLevel then Some(BuyerLevelTooLow)
        else if b.gold < l.price then Some(NotEnoughGold)
        else if |b.inventory| >= Capacity(b) then Some(InventoryFull)
        else if l.seller !in db.saves then Some(SellerDataMissing)
        else None
  }

  /** POST /:id/buy as a transition of the tables, with the response. */
  function BuySpec(db: MarketDb, buyer: UserId, id: ListingId): (MarketDb, Result<BuyOk, BuyError>)
  {
    match BuyCheck(db, buyer, id)
    case Some(e) => (db, Err(e))
    case None =>
      var l := db.listings[id];
      var b := db.saves[buyer];
      var s := db.saves[l.seller];
      var tax := SaleTax(l.price);
      var b' := b.(gold := b.gold - l.price, inventory := b.inventory + [l.item]);
      var s' := s.(gold := s.gold + (l.price - tax));
      (db.(saves := db.saves[buyer := b'][l.seller := s'],
           listings := db.listings[id := l.(status := Sold, buyer := Some(buyer))]),
       Ok(BuyOk(l.item, l.price, tax, b'.gold)))
  }

  /**
   * A purchase moves `price` gold away from the buyer and credits the seller
   * with the price less the sale tax, so the two players together lose
   * exactly the tax; the buyer's inventory gains the listed item, and the
   * listing becomes sold to that buyer.
   */
  lemma BuySucceeds(db: MarketDb, buyer: UserId, id: ListingId)
    requires Inv(db)
    requires BuyCheck(db, buyer, id).None?
    ensures var (db', r) := BuySpec(db, buyer, id);
      var l := db.listings[id];
      r.Ok? && r.value.saleTax == SaleTax(l.price) &&
      db'.saves[buyer].gold == db.saves[buyer].gold - l.price >= 0 &&
      db'.saves[l.seller].gold == db.saves[l.seller].gold + l.price - r.value.saleTax &&
      db'.saves[buyer].gold + db'.saves[l.seller].gold ==
        db.saves[buyer].gold + db.saves[l.seller].gold - r.value.saleTax &&
      0 < r.value.saleTax < l.price &&
      db'.saves[buyer].inventory == db.saves[buyer].inventory + [l.item] &&
      |db'.saves[buyer].inventory| <= Capacity(db'.saves[buyer]) &&
      db'.saves[l.seller].inventory == db.saves[l.seller].inventory &&
      db'.listings[id].status == Sold && db'.listings[id].buyer == Some(buyer) &&
      (forall u :: u in db.saves && u != buyer && u != l.seller ==> db'.saves[u] == db.saves[u])
  {
  }

  // ---------------------------------------------------------------------------
  // POST /:id/cancel

  datatype CancelError = CancelNotFound | NotYourListing | NotActive | CancelNoSave | CancelInventoryFull

  function CancelErrorStatus(e: CancelError): (code: int)
    ensures e == CancelNotFound <==> code == 404
    ensures e == NotYourListing <==> code == 403
    ensures code in {400, 403, 404}
  {
    match e
    case CancelNotFound => 404
    case NotYourListing => 403
    case _ => 400
  }

  function CancelCheck(db: MarketDb, user: UserId, id: ListingId): (r: Option<CancelError>)
    ensures r.None? <==>
      id in db.listings && db.listings[id].seller == user && db.listings[id].status == Active &&
      user in db.saves && |db.saves[user].inventory| < Capacity(db.saves[user])
  {
    if id !in db.listings then Some(CancelNotFound)
    else
      var l := db.listings[id];
      if l.seller != user then Some(NotYourListing)
      else if l.status != Active then Some(NotActive)
      else if user !in db.saves then Some(CancelNoSave)
      else if |db.saves[user].inventory| >= Capacity(db.saves[user]) then Some(CancelInventoryFull)
      else None
  }

  /** POST /:id/cancel as a transition of the tables; the response carries the returned item. */
  function CancelSpec(db: MarketDb, user: UserId, id: ListingId): (MarketDb, Result<Item, CancelError>)
  {
    match CancelCheck(db, user, id)
    case Some(e) => (db, Err(e))
    case None =>
      var l := db.listings[id];
      var p := db.saves[user];
      (db.(saves := db.saves[user := p.(inventory := p.inventory + [l.item])],
           listings := db.listings[id := l.(status := Cancelled)]),
       Ok(l.item))
  }

  /** Only the seller can cancel, only an active listing, and the item goes back to the seller's inventory. */
  lemma CancelReturnsItem(db: MarketDb, user: UserId, id: ListingId)
    requires CancelCheck(db, user, id).None?
    ensures var (db', r) := CancelSpec(db, user, id);
      r == Ok(db.listings[id].item) &&
      db.listings[id].seller == user &&
      db'.saves[user].inventory == db.saves[user].inventory + [db.listings[id].item] &&
      db'.saves[user].gold == db.saves[user].gold &&
      db'.listings[id].status == Cancelled &&
      CountActive(db'.listings, user) == CountActive(db.listings, user) - 1
  {
    var db' := CancelSpec(db, user, id).0;
    assert ActiveIds(db.listings, user) == ActiveIds(db'.listings, user) + {id};
  }

  // ---------------------------------------------------------------------------
  // Properties shared by the three routes

  /** A listing that is sold or cancelled never changes again, and no listing disappears. */
  predicate ClosedListingsKept(db: MarketDb, db': MarketDb)
  {
    db.listings.Keys <= db'.listings.Keys &&
    forall id :: id in db.listings && db.listings[id].status != Active ==> db'.listings[id] == db.listings[id]
  }

  lemma RoutesKeepInvariant(db: MarketDb, user: UserId, itemId: string, price: real, id: ListingId)
    requires Inv(db)
    ensures Inv(ListSpec(db, user, itemId, price).0) && ClosedListingsKept(db, ListSpec(db, user, itemId, price).0)
    ensures Inv(BuySpec(db, user, id).0) && ClosedListingsKept(db, BuySpec(db, user, id).0)
    ensures Inv(CancelSpec(db, user, id).0) && ClosedListingsKept(db, CancelSpec(db, user, id).0)
  {
    ListKeepsInvariant(db, user, itemId, price);
    BuyKeepsInvariant(db, user, id);
    CancelKeepsInvariant(db, user, id);
  }

  lemma ListKeepsInvariant(db: MarketDb, user: UserId, itemId: string, price: real)
    requires Inv(db)
    ensures Inv(ListSpec(db, user, itemId, price).0) && ClosedListingsKept(db, ListSpec(db, user, itemId, price).0)
  {
  }

  lemma BuyKeepsInvariant(db: MarketDb, user: UserId, id: ListingId)
    requires Inv(db)
    ensures Inv(BuySpec(db, user, id).0) && ClosedListingsKept(db, BuySpec(db, user, id).0)
  {
  }

  lemma CancelKeepsInvariant(db: MarketDb, user: UserId, id: ListingId)
    requires Inv(db)
    ensures Inv(CancelSpec(db, user, id).0) && ClosedListingsKept(db, CancelSpec(db, user, id).0)
  {
  }

  /** A refused request changes nothing. */
  lemma RefusalsChangeNothing(db: MarketDb, user: UserId, itemId: string, price: real, id: ListingId)
    ensures ListSpec(db, user, itemId, price).1.Err? ==> ListSpec(db, user, itemId, price).0 == db
    ensures BuySpec(db, user, id).1.Err? ==> BuySpec(db, user, id).0 == db
    ensures CancelSpec(db, user, id).1.Err? ==> CancelSpec(db, user, id).0 == db
  {
  }

  // ---------------------------------------------------------------------------
  // The routes, step by step over the tables

  class MarketRoutes {
    var saves: map<UserId, Player>
    var listings: map<ListingId, Listing>
    var nextId: ListingId

    function Db(): MarketDb
      reads this
    {
      MarketDb(saves, listings, nextId)
    }

    constructor (saves0: map<UserId, Player>)
      ensures Db() == MarketDb(saves0, map[], 0) && Inv(Db())
    {
      saves := saves0;
      listings := map[];
      nextId := 0;
    }

    method List(user: UserId, itemId: string, price: real) returns (r: Result<ListOk, ListError>)
      modifies this
      ensures (Db(), r) == ListSpec(old(Db()), user, itemId, price)
    {
      if itemId == "" {
        return Err(ItemRequired);
      }
      if price < MinPrice as real || price > MaxPrice as real {
        return Err(PriceOutOfRange);
      }
      var intPrice := price.Floor;
      if user !in saves {
        return Err(NoSaveData);
      }
      var player := saves[user];
      if EffectiveLevel(player) < MinLevel {
        return Err(LevelTooLow);
      }
      if CountActive(listings, user) >= MaxActiveListings {
        return Err(TooManyListings);
      }
      var itemIndex := FindIndex(player.inventory, itemId);
      if itemIndex == -1 {
        return Err(ItemNotInInventory);
      }
      var item := player.inventory[itemIndex];
      var listingFee := ListingFee(intPrice);
      if player.gold < listingFee {
        return Err(CannotAffordFee);
      }
      player := player.(inventory := RemoveAt(player.inventory, itemIndex));
      player := player.(gold := player.gold - listingFee);
      saves := saves[user := player];
      var listingId := nextId;
      listings := listings[listingId := NewListing(user, item, intPrice)];
      nextId := nextId + 1;
      r := Ok(ListOk(listingId, listingFee, player.gold));
    }

    method Buy(buyer: UserId, id: ListingId) returns (r: Result<BuyOk, BuyError>)
      modifies this
      ensures (Db(), r) == BuySpec(old(Db()), buyer, id)
    {
      if id !in listings {
        return Err(ListingNotFound);
      }
      var listing := listings[id];
      if listing.status != Active {
        return Err(NoLongerAvailable);
      }
      if listing.seller == buyer {
        return Err(OwnListing);
      }
      if buyer !in saves {
        return Err(BuyerNoSave);
      }
      var buyerPlayer := saves[buyer];
      if EffectiveLevel(buyerPlayer) < MinLevel {
        return Err(BuyerLevelTooLow);
      }
      if buyerPlayer.gold < listing.price {
        return Err(NotEnoughGold);
      }
      if |buyerPlayer.inventory| >= Capacity(buyerPlayer) {
        return Err(InventoryFull);
      }
      if listing.seller !in saves {
        return Err(SellerDataMissing);
      }
      var sellerPlayer := saves[listing.seller];
      var saleTax := SaleTax(listing.price);
      var sellerProceeds := listing.price - saleTax;
      buyerPlayer := buyerPlayer.(gold := buyerPlayer.gold - listing.price);
      buyerPlayer := buyerPlayer.(inventory := buyerPlayer.inventory + [listing.item]);
      sellerPlayer := sellerPlayer.(gold := sellerPlayer.gold + sellerProceeds);
      saves := saves[buyer := buyerPlayer];
      saves := saves[listing.seller := sellerPlayer];
      listings := listings[id := listing.(status := Sold, buyer := Some(buyer))];
      r := Ok(BuyOk(listing.item, listing.price, saleTax, buyerPlayer.gold));
    }

    method Cancel(user: UserId, id: ListingId) returns (r: Result<Item, CancelError>)
      modifies this
      ensures (Db(), r) == CancelSpec(old(Db()), user, id)
    {
      if id !in listings {
        return Err(CancelNotFound);
      }
      var listing := listings[id];
      if listing.seller != user {
        return Err(NotYourListing);
      }
      if listing.status != Active {
        return Err(NotActive);
      }
      if user !in saves {
        return Err(CancelNoSave);
      }
      var player := saves[user];
      if |player.inventory| >= Capacity(player) {
        return Err(CancelInventoryFull);
      }
      player := player.(inventory := player.inventory + [listing.item]);
      saves := saves[user := player];
      listings := listings[id := listing.(status := Cancelled)];
      r := Ok(listing.item);
    }
  }
}
