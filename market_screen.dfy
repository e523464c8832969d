/**
 * The pure helpers of the market screen of the client: sorting the listings
 * the server returned, naming an item's category, and the price check the
 * screen makes before it sends a listing request.
 */
module MarketScreen {
  import opened Common
  import opened GameTypes
  import Market
  import ServerSaves

  /** A listing as the browse tab receives it; `id` stands for the rest of the row. */
  datatype ClientListing = ClientListing(id: nat, price: int, itemLevel: int, rarity: string)

  // ---------------------------------------------------------------------------
  // sortListings(listings, sortBy)

  /** The comparators of `sortListings`; 'newest' and any unknown key do not sort. */
  datatype SortKey = PriceLow | PriceHigh | LevelHigh | LevelLow | ByRarity

  function ParseSortKey(sortBy: string): (k: Option<SortKey>)
    ensures k == None <==>
      sortBy !in {"price-low", "price-high", "level-high", "level-low", "rarity"}
  {
    if sortBy == "price-low" then Some(PriceLow)
    else if sortBy == "price-high" then Some(PriceHigh)
    else if sortBy == "level-high" then Some(LevelHigh)
    else if sortBy == "level-low" then Some(LevelLow)
    else if sortBy == "rarity" then Some(ByRarity)
    else None
  }

  /** `RARITY_ORDER[rarity] || 0` */
  function RarityRank(rarity: string): (r: int)
    ensures 0 <= r <= 5
    ensures r == 0 <==> rarity !in {"Legendary", "Epic", "Rare", "Uncommon", "Common"}
  {
    if rarity == "Legendary" then 5
    else if rarity == "Epic" then 4
    else if rarity == "Rare" then 3
    else if rarity == "Uncommon" then 2
    else if rarity == "Common" then 1
    else 0
  }

  /**
   * Each comparator is `(a, b) => Key(a) - Key(b)`, so the array ends up in
   * ascending order of this key.
   */
  function Key(k: SortKey, l: ClientListing): int
  {
    match k
    case PriceLow => l.price
    case PriceHigh => -l.price
    case LevelHigh => -l.itemLevel
    case LevelLow => l.itemLevel
    case ByRarity => -RarityRank(l.rarity)
  }

  predicate SortedBy(k: SortKey, s: seq<ClientListing>)
  {
    forall i, j :: 0 <= i < j < |s| ==> Key(k, s[i]) <= Key(k, s[j])
  }

  /** The listings of `s` whose key is `v`, in the order of `s`. */
  function WithKey(k: SortKey, s: seq<ClientListing>, v: int): seq<ClientListing>
  {
    if s == [] then []
    else (if Key(k, s[0]) == v then [s[0]] else []) + WithKey(k, s[1..], v)
  }

  /**
   * Places x after every element whose key does not exceed its own: on a
   * sorted sequence, x goes behind the elements with an equal key.
   */
  function Insert(k: SortKey, x: ClientListing, s: seq<ClientListing>): (r: seq<ClientListing>)
    ensures multiset(r) == multiset(s) + multiset{x}
  {
    if s == [] then [x]
    else if Key(k, x) < Key(k, s[0]) then [x] + s
    else
      assert s == [s[0]] + s[1..];
      [s[0]] + Insert(k, x, s[1..])
  }

  /** Every key of an insertion is one of the keys inserted into. */
  lemma InsertKeysFrom(k: SortKey, x: ClientListing, s: seq<ClientListing>, b: int)
    requires b <= Key(k, x) && forall i :: 0 <= i < |s| ==> b <= Key(k, s[i])
    ensures forall i :: 0 <= i < |Insert(k, x, s)| ==> b <= Key(k, Insert(k, x, s)[i])
  {
    var t := Insert(k, x, s);
    forall i | 0 <= i < |t|
      ensures b <= Key(k, t[i])
    {
      assert t[i] in multiset(t);
      if t[i] != x {
        assert t[i] in multiset(s);
      }
    }
  }

  /** A head no larger than every key of a sorted tail gives a sorted sequence. */
  lemma ConsSorted(k: SortKey, y: ClientListing, t: seq<ClientListing>)
    requires SortedBy(k, t) && forall i :: 0 <= i < |t| ==> Key(k, y) <= Key(k, t[i])
    ensures SortedBy(k, [y] + t)
  {
    var r := [y] + t;
    forall i, j | 0 <= i < j < |r|
      ensures Key(k, r[i]) <= Key(k, r[j])
    {
      assert r[j] == t[j - 1];
      if i > 0 {
        assert r[i] == t[i - 1];
      }
    }
  }

  /** Insertion keeps a sorted sequence sorted. */
  lemma {:induction false} InsertSorted(k: SortKey, x: ClientListing, s: seq<ClientListing>)
    requires SortedBy(k, s)
    ensures SortedBy(k, Insert(k, x, s))
  {
    if s == [] {
      assert Insert(k, x, s) == [x];
    } else if Key(k, x) < Key(k, s[0]) {
      assert Insert(k, x, s) == [x] + s;
      ConsSorted(k, x, s);
    } else {
      SortedTail(k, s);
      InsertSorted(k, x, s[1..]);
      assert forall i :: 0 <= i < |s[1..]| ==> s[1..][i] == s[i + 1];
      InsertKeysFrom(k, x, s[1..], Key(k, s[0]));
      ConsSorted(k, s[0], Insert(k, x, s[1..]));
      InsertUnfold(k, x, s);
    }
  }

  /**
   * `Array.prototype.sort` with one of the comparators: a stable sort, here
   * insertion of each listing in turn, left to right.
   */
  function Sort(k: SortKey, s: seq<ClientListing>): (r: seq<ClientListing>)
    ensures multiset(r) == multiset(s)
    ensures SortedBy(k, r)
  {
    if s == [] then []
    else
      assert s == s[..|s| - 1] + [s[|s| - 1]];
      InsertSorted(k, s[|s| - 1], Sort(k, s[..|s| - 1]));
      Insert(k, s[|s| - 1], Sort(k, s[..|s| - 1]))
  }

  /** `sortListings(listings, sortBy)`: sorts a copy; the input array is a value and stays as it was. */
  function SortListings(listings: seq<ClientListing>, sortBy: string): (r: seq<ClientListing>)
    ensures multiset(r) == multiset(listings)
    ensures ParseSortKey(sortBy).Some? ==> SortedBy(ParseSortKey(sortBy).value, r)
    ensures ParseSortKey(sortBy).None? ==> r == listings
  {
    match ParseSortKey(sortBy)
    case None => listings
    case Some(k) => Sort(k, listings)
  }

  lemma {:induction false} WithKeyAppend(k: SortKey, a: seq<ClientListing>, b: seq<ClientListing>, v: int)
    ensures WithKey(k, a + b, v) == WithKey(k, a, v) + WithKey(k, b, v)
  {
    if a == [] {
      assert a + b == b;
    } else {
      assert (a + b)[0] == a[0] && (a + b)[1..] == a[1..] + b;
      WithKeyAppend(k, a[1..], b, v);
    }
  }

  lemma {:induction false} WithKeyNone(k: SortKey, s: seq<ClientListing>, v: int)
    requires forall i :: 0 <= i < |s| ==> Key(k, s[i]) != v
    ensures WithKey(k, s, v) == []
  {
    if s != [] {
      WithKeyNone(k, s[1..], v);
    }
  }

  lemma WithKeyCons(k: SortKey, x: ClientListing, s: seq<ClientListing>, v: int)
    ensures WithKey(k, [x] + s, v) == (if Key(k, x) == v then [x] else []) + WithKey(k, s, v)
  {
    assert ([x] + s)[0] == x && ([x] + s)[1..] == s;
  }

  lemma WithKeyUnfold(k: SortKey, s: seq<ClientListing>, v: int)
    requires s != []
    ensures WithKey(k, s, v) == (if Key(k, s[0]) == v then [s[0]] else []) + WithKey(k, s[1..], v)
  {
  }

  lemma SortedTail(k: SortKey, s: seq<ClientListing>)
    requires SortedBy(k, s) && s != []
    ensures SortedBy(k, s[1..])
  {
    var s' := s[1..];
    forall i, j | 0 <= i < j < |s'|
      ensures Key(k, s'[i]) <= Key(k, s'[j])
    {
      assert s'[i] == s[i + 1] && s'[j] == s[j + 1];
    }
  }

  lemma InsertUnfold(k: SortKey, x: ClientListing, s: seq<ClientListing>)
    requires s != [] && Key(k, x) >= Key(k, s[0])
    ensures Insert(k, x, s) == [s[0]] + Insert(k, x, s[1..])
  {
  }

  /** Putting the same listing in front of two sequences keeps a relation between their runs. */
  lemma WithKeyConsBoth(k: SortKey, y: ClientListing, a: seq<ClientListing>, b: seq<ClientListing>, v: int, tail: seq<ClientListing>)
    requires WithKey(k, a, v) == WithKey(k, b, v) + tail
    ensures WithKey(k, [y] + a, v) == WithKey(k, [y] + b, v) + tail
  {
    var head := if Key(k, y) == v then [y] else [];
    WithKeyCons(k, y, a, v);
    WithKeyCons(k, y, b, v);
    assert head + (WithKey(k, b, v) + tail) == (head + WithKey(k, b, v)) + tail;
  }

  /** One step of InsertStable: x passes over the head of s. */
  lemma InsertStableStep(k: SortKey, x: ClientListing, s: seq<ClientListing>, v: int)
    requires s != [] && Key(k, x) >= Key(k, s[0])
    requires WithKey(k, Insert(k, x, s[1..]), v) == WithKey(k, s[1..], v) + (if Key(k, x) == v then [x] else [])
    ensures WithKey(k, Insert(k, x, s), v) == WithKey(k, s, v) + (if Key(k, x) == v then [x] else [])
  {
    InsertUnfold(k, x, s);
    WithKeyConsBoth(k, s[0], Insert(k, x, s[1..]), s[1..], v, if Key(k, x) == v then [x] else []);
    assert [s[0]] + s[1..] == s;
  }

  /** Inserting into a sorted sequence puts x last among the elements with its key. */
  lemma {:induction false} InsertStable(k: SortKey, x: ClientListing, s: seq<ClientListing>, v: int)
    requires SortedBy(k, s)
    ensures WithKey(k, Insert(k, x, s), v) == WithKey(k, s, v) + (if Key(k, x) == v then [x] else [])
  {
    if s == [] {
      assert Insert(k, x, s) == [x] + [];
      WithKeyCons(k, x, [], v);
    } else if Key(k, x) < Key(k, s[0]) {
      assert Insert(k, x, s) == [x] + s;
      WithKeyCons(k, x, s, v);
      if Key(k, x) == v {
        assert forall i :: 0 <= i < |s| ==> Key(k, s[0]) <= Key(k, s[i]);
        WithKeyNone(k, s, v);
      }
    } else {
      SortedTail(k, s);
      InsertStable(k, x, s[1..], v);
      InsertStableStep(k, x, s, v);
    }
  }

  lemma SortUnfold(k: SortKey, s: seq<ClientListing>)
    requires s != []
    ensures Sort(k, s) == Insert(k, s[|s| - 1], Sort(k, s[..|s| - 1]))
  {
  }

  /** Appending one listing adds it to the end of its key's run. */
  lemma WithKeySnoc(k: SortKey, init: seq<ClientListing>, x: ClientListing, v: int)
    ensures WithKey(k, init + [x], v) == WithKey(k, init, v) + (if Key(k, x) == v then [x] else [])
  {
    WithKeyAppend(k, init, [x], v);
    WithKeyCons(k, x, [], v);
    assert [x] + [] == [x];
  }

  /** The sort is stable: listings with equal keys keep their order. */
  lemma {:induction false} SortStable(k: SortKey, s: seq<ClientListing>, v: int)
    ensures WithKey(k, Sort(k, s), v) == WithKey(k, s, v)
  {
    if s != [] {
      var init, x := s[..|s| - 1], s[|s| - 1];
      var tail := if Key(k, x) == v then [x] else [];
      assert s == init + [x];
      calc {
        WithKey(k, Sort(k, s), v);
      == { SortUnfold(k, s); }
        WithKey(k, Insert(k, x, Sort(k, init)), v);
      == { InsertStable(k, x, Sort(k, init), v); }
        WithKey(k, Sort(k, init), v) + tail;
      == { SortStable(k, init, v); }
        WithKey(k, init, v) + tail;
      == { WithKeySnoc(k, init, x, v); }
        WithKey(k, s, v);
      }
    }
  }

  /**
   * What `sortListings` returns: a permutation of its input, ordered as the
   * sort key asks, equal keys in their original order; 'newest' and any
   * unknown key give the input order.
   */
  lemma SortListingsMeaning(listings: seq<ClientListing>, sortBy: string)
    ensures var r := SortListings(listings, sortBy);
      multiset(r) == multiset(listings) &&
      (sortBy == "price-low" ==> forall i, j :: 0 <= i < j < |r| ==> r[i].price <= r[j].price) &&
      (sortBy == "price-high" ==> forall i, j :: 0 <= i < j < |r| ==> r[i].price >= r[j].price) &&
      (sortBy == "level-high" ==> forall i, j :: 0 <= i < j < |r| ==> r[i].itemLevel >= r[j].itemLevel) &&
      (sortBy == "level-low" ==> forall i, j :: 0 <= i < j < |r| ==> r[i].itemLevel <= r[j].itemLevel) &&
      (sortBy == "rarity" ==>
        forall i, j :: 0 <= i < j < |r| ==> RarityRank(r[i].rarity) >= RarityRank(r[j].rarity)) &&
      (ParseSortKey(sortBy) == None ==> r == listings)
  {
  }

  /** Among listings with the same key value, the sorted order is the input order. */
  lemma SortListingsStable(listings: seq<ClientListing>, sortBy: string, v: int)
    requires ParseSortKey(sortBy).Some?
    ensures var k := ParseSortKey(sortBy).value;
      WithKey(k, SortListings(listings, sortBy), v) == WithKey(k, listings, v)
  {
    SortStable(ParseSortKey(sortBy).value, listings, v);
  }

  // ---------------------------------------------------------------------------
  // getItemCategory(item), categoryLabel(cat)

  function SlotName(s: Slot): string
  {
    match s
    case Weapon => "weapon"
    case Shield => "shield"
    case Helmet => "helmet"
    case Armor => "armor"
    case Boots => "boots"
    case Accessory => "accessory"
  }

  /** `getItemCategory(item)` of the screen: the type first, then the slot, else 'misc'. */
  function ItemCategory(item: GameItem): (c: string)
    ensures c == "misc" <==> item.kind != "potion" && item.kind != "energy-drink" && item.slot == None
    ensures item.kind == "potion" ==> c == "potions"
    ensures item.kind == "energy-drink" ==> c == "energy-drinks"
  {
    if item.kind == "potion" then "potions"
    else if item.kind == "energy-drink" then "energy-drinks"
    else match item.slot
      case Some(Weapon) => "weapons"
      case Some(Shield) => "shields"
      case Some(Helmet) => "helmets"
      case Some(Armor) => "armor"
      case Some(Boots) => "boots"
      case Some(Accessory) => "accessories"
      case None => "misc"
  }

  /** The item as the server stores it when the screen lists it. */
  function ServerItem(item: GameItem): ServerSaves.Item
  {
    ServerSaves.Item(item.id, item.kind, if item.slot.Some? then SlotName(item.slot.value) else "",
      item.rarity, item.level, item.name)
  }

  /** The screen shows the same category the server stores with the listing. */
  lemma CategoryAgreesWithServer(item: GameItem)
    ensures ItemCategory(item) == Market.ItemCategory(ServerItem(item))
  {
  }

  datatype CategoryEntry = CategoryEntry(id: string, name: string)

  /** `MARKET_CATEGORIES` without the icons. */
  const MarketCategories: seq<CategoryEntry> := [
    CategoryEntry("all", "All Items"), CategoryEntry("weapons", "Weapons"),
    CategoryEntry("shields", "Shields"), CategoryEntry("helmets", "Helmets"),
    CategoryEntry("armor", "Armor"), CategoryEntry("boots", "Boots"),
    CategoryEntry("accessories", "Accessories"), CategoryEntry("potions", "Potions"),
    CategoryEntry("energy-drinks", "Energy Drinks")]

  /** `MARKET_CATEGORIES.find(c => c.id === cat)` from index i on. */
  function FindCategory(table: seq<CategoryEntry>, cat: string): (r: Option<CategoryEntry>)
    ensures r.Some? ==> r.value in table && r.value.id == cat
    ensures r.None? <==> forall i :: 0 <= i < |table| ==> table[i].id != cat
  {
    if table == [] then None
    else if table[0].id == cat then Some(table[0])
    else FindCategory(table[1..], cat)
  }

  /** `categoryLabel(cat)`: the table's label, or the id itself when the table has no such entry. */
  function CategoryLabel(cat: string): (shown: string)
    ensures (forall i :: 0 <= i < |MarketCategories| ==> MarketCategories[i].id != cat) ==> shown == cat
    ensures (exists i :: 0 <= i < |MarketCategories| && MarketCategories[i].id == cat) ==>
      CategoryEntry(cat, shown) in MarketCategories
  {
    match FindCategory(MarketCategories, cat)
    case Some(e) => e.name
    case None => cat
  }

  /** The table lookup finds the first entry with the id. */
  lemma {:induction false} FindCategoryAt(table: seq<CategoryEntry>, cat: string, i: nat)
    requires i < |table| && table[i].id == cat
    requires forall j :: 0 <= j < i ==> table[j].id != cat
    ensures FindCategory(table, cat) == Some(table[i])
  {
    if i > 0 {
      FindCategoryAt(table[1..], cat, i - 1);
    }
  }

  lemma MiscNotInTable()
    ensures forall i :: 0 <= i < |MarketCategories| ==> MarketCategories[i].id != "misc"
  {
  }

  lemma {:induction false} LabelsOfTable(i: nat)
    requires 1 <= i < |MarketCategories|
    ensures CategoryLabel(MarketCategories[i].id) == MarketCategories[i].name != MarketCategories[i].id
  {
    FindCategoryAt(MarketCategories, MarketCategories[i].id, i);
  }

  /**
   * Every category an item can have, except 'misc', is in the table, so its
   * label is the table's; 'misc' has no entry and shows as itself.
   */
  lemma ItemCategoryLabelled(item: GameItem)
    ensures var c := ItemCategory(item);
      (c == "misc" ==> CategoryLabel(c) == "misc") &&
      (c != "misc" ==> CategoryEntry(c, CategoryLabel(c)) in MarketCategories && CategoryLabel(c) != c)
  {
    var c := ItemCategory(item);
    var i: nat :=
      if c == "weapons" then 1 else if c == "shields" then 2 else if c == "helmets" then 3
      else if c == "armor" then 4 else if c == "boots" then 5 else if c == "accessories" then 6
      else if c == "potions" then 7 else if c == "energy-drinks" then 8 else 0;
    if i == 0 {
      MiscNotInTable();
    } else {
      LabelsOfTable(i);
    }
  }

  // ---------------------------------------------------------------------------
  // handleListItem(): the price check before the request

  /**
   * What the screen does when "List" is pressed. `hasItem` is whether an item
   * is chosen, `text` the price field and `number` what `Number(text)` gives,
   * None for NaN.
   */
  datatype ListAction = NoAction | MinPriceError | MaxPriceError | SendListing(price: int)

  function ListItemAction(hasItem: bool, text: string, number: Option<real>): (a: ListAction)
    ensures a.SendListing? <==>
      hasItem && text != "" && number.Some? &&
      Market.MinPrice <= number.value.Floor <= Market.MaxPrice
    ensures a.SendListing? ==> a.price == number.value.Floor
    ensures a == MinPriceError <==>
      hasItem && text != "" && (number.None? || number.value.Floor < Market.MinPrice)
    ensures a == MaxPriceError <==>
      hasItem && text != "" && number.Some? && number.value.Floor > Market.MaxPrice
  {
    if !hasItem || text == "" then NoAction
    else if number.None? || number.value.Floor < 10 then MinPriceError
    else if number.value.Floor > 999999 then MaxPriceError
    else SendListing(number.value.Floor)
  }

  /**
   * A price the screen sends passes the server's own price guard, and the
   * server keeps it unchanged when it floors it: the client check never lets
   * through a price the route would refuse as out of range.
   */
  lemma ClientPriceAcceptedByServer(hasItem: bool, text: string, number: Option<real>,
                                    db: Market.MarketDb, user: ServerSaves.UserId, itemId: string)
    requires ListItemAction(hasItem, text, number).SendListing?
    requires itemId != ""
    ensures var p := ListItemAction(hasItem, text, number).price;
      Market.ListCheck(db, user, itemId, p as real) != Err(Market.PriceOutOfRange) &&
      (p as real).Floor == p
  {
  }
}
