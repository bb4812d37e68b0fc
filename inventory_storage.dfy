/**
 * The in-memory store of the inventory server: users, categories,
 * locations and inventory items, each kept in an insertion-ordered map
 * keyed by an id drawn from its own counter, plus the dashboard queries.
 *
 * A map whose keys are never re-set to a new position is modelled as the
 * sequence of its values in insertion order. Prices are whole cents and
 * timestamps are milliseconds, handed in by the caller as `now`.
 */
module InventoryStorage {
  import opened Seqs

  /** A JavaScript value of a nullable numeric column: the key may be missing, `null`, or a number. */
  datatype JsNumber = Undefined | Null | Num(n: int)

  datatype User = User(id: int, username: string, password: string, name: string, role: string)
  datatype InsertUser = InsertUser(username: string, password: string, name: string, role: string)

  datatype Category = Category(id: int, name: string)
  datatype Location = Location(id: int, name: string)

  datatype Item = Item(
    id: int, name: string, sku: string, description: Option<string>,
    categoryId: Option<int>, locationId: Option<int>, quantity: int,
    priceCents: Option<int>, lowStockThreshold: JsNumber,
    lastUpdated: int, createdAt: int, barcode: Option<string>)

  datatype InsertItem = InsertItem(
    name: string, sku: string, description: Option<string>,
    categoryId: Option<int>, locationId: Option<int>, quantity: int,
    priceCents: Option<int>, lowStockThreshold: JsNumber, barcode: Option<string>)

  /** One field of a partial update: left as it is, or given a new value. */
  datatype Patch<T> = Keep | Set(value: T)

  datatype ItemUpdate = ItemUpdate(
    name: Patch<string>, sku: Patch<string>, description: Patch<Option<string>>,
    categoryId: Patch<Option<int>>, locationId: Patch<Option<int>>, quantity: Patch<int>,
    priceCents: Patch<Option<int>>, lowStockThreshold: Patch<JsNumber>, barcode: Patch<Option<string>>)

  /** An item with the names of its category and location, when those resolve. */
  datatype ItemWithDetails = ItemWithDetails(item: Item, categoryName: Option<string>, locationName: Option<string>)

  datatype InventorySummary = InventorySummary(totalItems: int, lowStockCount: int, totalValueCents: int, openOrders: int)

  /** Ids strictly increase along the sequence and all lie in `1 .. counter - 1`. */
  ghost predicate IdsFresh<T>(s: seq<T>, id: T -> int, counter: int)
  {
    counter >= 1
    && (forall i, j :: 0 <= i < j < |s| ==> id(s[i]) < id(s[j]))
    && (forall x :: x in s ==> 1 <= id(x) < counter)
  }

  function UserId(u: User): int { u.id }
  function CategoryId(c: Category): int { c.id }
  function LocationId(l: Location): int { l.id }
  function ItemId(x: Item): int { x.id }

  /** Removing elements keeps the ids fresh. */
  lemma {:induction false} FilterIdsFresh<T>(s: seq<T>, p: T -> bool, id: T -> int, counter: int)
    requires IdsFresh(s, id, counter)
    ensures IdsFresh(Filter(s, p), id, counter)
  {
    if s != [] {
      FilterIdsFresh(s[1..], p, id, counter);
      var r := Filter(s, p);
      var rest := Filter(s[1..], p);
      forall x | x in s[1..] ensures id(s[0]) < id(x) {
        var m :| 0 <= m < |s[1..]| && s[1..][m] == x;
        assert s[m + 1] == x;
      }
      if p(s[0]) {
        assert r == [s[0]] + rest;
        forall i, j | 0 <= i < j < |r| ensures id(r[i]) < id(r[j]) {
          if i == 0 {
            assert r[j] == rest[j - 1];
            assert r[j] in rest;
          } else {
            assert r[i] == rest[i - 1] && r[j] == rest[j - 1];
          }
        }
      }
    }
  }

  /** Adding an element with the counter as id, and bumping the counter, keeps the ids fresh. */
  lemma AppendIdsFresh<T>(s: seq<T>, x: T, id: T -> int, counter: int)
    requires IdsFresh(s, id, counter) && id(x) == counter
    ensures IdsFresh(s + [x], id, counter + 1)
  {
    var r := s + [x];
    forall i, j | 0 <= i < j < |r| ensures id(r[i]) < id(r[j]) {
      assert r[i] == s[i] && s[i] in s;
      if j < |s| {
        assert r[j] == s[j];
      }
    }
  }

  /** A new item: the input's fields, the given id, and both timestamps set to `now`. */
  function NewItem(input: InsertItem, id: int, now: int): Item
  {
    Item(id, input.name, input.sku, input.description, input.categoryId, input.locationId, input.quantity,
         input.priceCents, input.lowStockThreshold, now, now, input.barcode)
  }

  function ApplyPatch<T>(old_value: T, p: Patch<T>): T
  {
    if p.Set? then p.value else old_value
  }

  /** `{ ...existingItem, ...updates, lastUpdated: now }` */
  function ApplyUpdate(x: Item, u: ItemUpdate, now: int): (r: Item)
    ensures r.id == x.id && r.createdAt == x.createdAt && r.lastUpdated == now
    ensures u.name.Keep? ==> r.name == x.name
    ensures u.name.Set? ==> r.name == u.name.value
    ensures u.quantity.Keep? ==> r.quantity == x.quantity
    ensures u.quantity.Set? ==> r.quantity == u.quantity.value
    ensures u.lowStockThreshold.Keep? ==> r.lowStockThreshold == x.lowStockThreshold
    ensures u.lowStockThreshold.Set? ==> r.lowStockThreshold == u.lowStockThreshold.value
    ensures u.sku.Keep? ==> r.sku == x.sku
    ensures u.sku.Set? ==> r.sku == u.sku.value
    ensures u.description.Keep? ==> r.description == x.description
    ensures u.description.Set? ==> r.description == u.description.value
    ensures u.categoryId.Keep? ==> r.categoryId == x.categoryId
    ensures u.categoryId.Set? ==> r.categoryId == u.categoryId.value
    ensures u.locationId.Keep? ==> r.locationId == x.locationId
    ensures u.locationId.Set? ==> r.locationId == u.locationId.value
    ensures u.priceCents.Keep? ==> r.priceCents == x.priceCents
    ensures u.priceCents.Set? ==> r.priceCents == u.priceCents.value
    ensures u.barcode.Keep? ==> r.barcode == x.barcode
    ensures u.barcode.Set? ==> r.barcode == u.barcode.value
    ensures u == ItemUpdate(Keep, Keep, Keep, Keep, Keep, Keep, Keep, Keep, Keep) ==> r == x.(lastUpdated := now)
  {
    x.(name := ApplyPatch(x.name, u.name), sku := ApplyPatch(x.sku, u.sku),
       description := ApplyPatch(x.description, u.description),
       categoryId := ApplyPatch(x.categoryId, u.categoryId), locationId := ApplyPatch(x.locationId, u.locationId),
       quantity := ApplyPatch(x.quantity, u.quantity), priceCents := ApplyPatch(x.priceCents, u.priceCents),
       lowStockThreshold := ApplyPatch(x.lowStockThreshold, u.lowStockThreshold),
       barcode := ApplyPatch(x.barcode, u.barcode), lastUpdated := now)
  }

  /** `value || 0` for a nullable number. */
  function OrZero(v: JsNumber): int
  {
    if v.Num? then v.n else 0
  }

  /**
   * The server's low-stock test: `threshold !== null && quantity < (threshold || 0)`.
   * A missing (undefined) threshold passes the first test and compares with 0.
   */
  predicate IsLowStockStored(x: Item)
  {
    x.lowStockThreshold != Null && x.quantity < OrZero(x.lowStockThreshold)
  }

  /** What the server's test means, case by case. */
  lemma LowStockStoredCases(x: Item)
    ensures x.lowStockThreshold.Num? ==> (IsLowStockStored(x) <==> x.quantity < x.lowStockThreshold.n)
    ensures x.lowStockThreshold.Null? ==> !IsLowStockStored(x)
    ensures x.lowStockThreshold.Undefined? ==> (IsLowStockStored(x) <==> x.quantity < 0)
  {
  }

  /** `(item.price || 0) * item.quantity`, summed with `reduce` from the left. */
  function TotalValue(items: seq<Item>): int
  {
    if items == [] then 0
    else
      var x := items[|items| - 1];
      TotalValue(items[..|items| - 1]) + (if x.priceCents.Some? then x.priceCents.value else 0) * x.quantity
  }

  /** The total over two runs of items is the sum of their totals. */
  lemma {:induction false} TotalValueAppend(a: seq<Item>, b: seq<Item>)
    ensures TotalValue(a + b) == TotalValue(a) + TotalValue(b)
  {
    if b != [] {
      assert (a + b)[..|a + b| - 1] == a + b[..|b| - 1];
      TotalValueAppend(a, b[..|b| - 1]);
    } else {
      assert a + b == a;
    }
  }

  /** With no negative prices or quantities the total is not negative. */
  lemma {:induction false} TotalValueNonNegative(items: seq<Item>)
    requires forall i :: 0 <= i < |items| ==> items[i].quantity >= 0
    requires forall i :: 0 <= i < |items| ==> items[i].priceCents.Some? ==> items[i].priceCents.value >= 0
    ensures TotalValue(items) >= 0
  {
    if items != [] {
      TotalValueNonNegative(items[..|items| - 1]);
    }
  }

  /** Attaches category and location names; an id of 0 or null is not looked up. */
  function EnrichWith(categories: seq<Category>, locations: seq<Location>, x: Item): (r: ItemWithDetails)
    ensures r.item == x
    ensures r.categoryName.Some? <==>
              x.categoryId.Some? && x.categoryId.value != 0 && exists c :: c in categories && c.id == x.categoryId.value
    ensures r.categoryName.Some? ==> exists c :: c in categories && c.id == x.categoryId.value && c.name == r.categoryName.value
    ensures r.locationName.Some? <==>
              x.locationId.Some? && x.locationId.value != 0 && exists l :: l in locations && l.id == x.locationId.value
    ensures r.locationName.Some? ==> exists l :: l in locations && l.id == x.locationId.value && l.name == r.locationName.value
  {
    var category := if x.categoryId.Some? && x.categoryId.value != 0
                    then Find(categories, (c: Category) => c.id == x.categoryId.value) else None;
    var location := if x.locationId.Some? && x.locationId.value != 0
                    then Find(locations, (l: Location) => l.id == x.locationId.value) else None;
    ItemWithDetails(x, if category.Some? then Some(category.value.name) else None,
                       if location.Some? then Some(location.value.name) else None)
  }

  // ---------------------------------------------------------------------------
  // Ordering by recency

  /** Most recently updated first. */
  predicate NewestFirst(s: seq<Item>)
  {
    forall i, j :: 0 <= i < j < |s| ==> s[i].lastUpdated >= s[j].lastUpdated
  }

  /** Inserts `x` after every element at least as recent, as a stable sort places it. */
  function InsertByRecency(s: seq<Item>, x: Item): (r: seq<Item>)
    requires NewestFirst(s)
    ensures NewestFirst(r)
    ensures multiset(r) == multiset(s) + multiset{x}
  {
    if s == [] then [x]
    else if s[|s| - 1].lastUpdated >= x.lastUpdated then s + [x]
    else
      var front := InsertByRecency(s[..|s| - 1], x);
      assert s == s[..|s| - 1] + [s[|s| - 1]];
      forall y | y in front ensures y.lastUpdated >= s[|s| - 1].lastUpdated {
        assert y in multiset(front);
      }
      front + [s[|s| - 1]]
  }

  /** `sort((a, b) => b.lastUpdated - a.lastUpdated)`: newest first, same elements. */
  function SortByRecency(s: seq<Item>): (r: seq<Item>)
    ensures NewestFirst(r)
    ensures multiset(r) == multiset(s)
  {
    if s == [] then []
    else
      assert s == s[..|s| - 1] + [s[|s| - 1]];
      InsertByRecency(SortByRecency(s[..|s| - 1]), s[|s| - 1])
  }

  /**
   * The items sorted newest first, then `slice(0, limit)`: at most `limit`
   * of them for a non-negative limit, all but the last `-limit` for a
   * negative one. The kept items are drawn from the input, and no item left
   * out is more recent than any kept one.
   */
  function MostRecent(items: seq<Item>, limit: int): (r: seq<Item>)
    ensures |r| <= |items|
    ensures limit >= 0 ==> |r| == if limit <= |items| then limit else |items|
    ensures limit < 0 ==> |r| == if |items| + limit >= 0 then |items| + limit else 0
    ensures NewestFirst(r)
    ensures multiset(r) <= multiset(items)
    ensures forall x, y :: x in multiset(items) - multiset(r) && y in r ==> x.lastUpdated <= y.lastUpdated
  {
    var sorted := SortByRecency(items);
    RecentPrefixIsNewest(sorted, SliceEnd(|sorted|, limit));
    Slice(sorted, limit)
  }

  /** A prefix of a newest-first list is a sub-multiset of it, and nothing after the prefix is newer than anything in it. */
  lemma RecentPrefixIsNewest(s: seq<Item>, n: nat)
    requires NewestFirst(s) && n <= |s|
    ensures multiset(s[..n]) <= multiset(s)
    ensures forall x, y :: x in multiset(s) - multiset(s[..n]) && y in s[..n] ==> x.lastUpdated <= y.lastUpdated
  {
    assert s == s[..n] + s[n..];
    assert multiset(s) == multiset(s[..n]) + multiset(s[n..]);
    forall x, y | x in multiset(s) - multiset(s[..n]) && y in s[..n] ensures x.lastUpdated <= y.lastUpdated {
      assert x in multiset(s[n..]);
      var j :| 0 <= j < |s[n..]| && s[n..][j] == x;
      var i :| 0 <= i < n && s[..n][i] == y;
      assert s[i] == y && s[n + j] == x;
    }
  }

  /** A limit covering the whole list keeps every item, newest first. */
  lemma MostRecentKeepsAll(items: seq<Item>, limit: int)
    requires limit >= |items|
    ensures multiset(MostRecent(items, limit)) == multiset(items)
  {
    var sorted := SortByRecency(items);
    assert |sorted| == |multiset(sorted)| == |multiset(items)| == |items|;
    assert sorted[..SliceEnd(|sorted|, limit)] == sorted;
    assert MostRecent(items, limit) == sorted;
  }

  // ---------------------------------------------------------------------------
  // The store

  class MemStorage {
    var users: seq<User>
    var categories: seq<Category>
    var locations: seq<Location>
    var inventoryItems: seq<Item>
    var userIdCounter: int
    var categoryIdCounter: int
    var locationIdCounter: int
    var inventoryIdCounter: int

    /** Every collection's ids increase in insertion order and stay below its counter. */
    ghost predicate Valid()
      reads this
    {
      IdsFresh(users, UserId, userIdCounter)
      && IdsFresh(categories, CategoryId, categoryIdCounter)
      && IdsFresh(locations, LocationId, locationIdCounter)
      && IdsFresh(inventoryItems, ItemId, inventoryIdCounter)
    }

    /**
     * Starts all counters at 1, then creates the two users, four categories,
     * four locations and five items. The one timestamp `now` stands for every
     * `new Date()` the seeding takes.
     */
    constructor (now: int)
      ensures Valid()
      ensures users == DefaultUsers
      ensures categories == DefaultCategories
      ensures locations == DefaultLocations
      ensures inventoryItems == DefaultItems(now)
      ensures userIdCounter == 3 && categoryIdCounter == 5 && locationIdCounter == 5 && inventoryIdCounter == 6
    {
      users, categories, locations, inventoryItems := [], [], [], [];
      userIdCounter, categoryIdCounter, locationIdCounter, inventoryIdCounter := 1, 1, 1, 1;
      new;
      SeedDirectory();
      SeedItems(now);
    }

    /** The seeding of users, categories and locations the constructor runs on the empty store. */
    method SeedDirectory()
      requires Valid() && users == [] && categories == [] && locations == []
      requires userIdCounter == 1 && categoryIdCounter == 1 && locationIdCounter == 1
      modifies this`users, this`categories, this`locations
      modifies this`userIdCounter, this`categoryIdCounter, this`locationIdCounter
      ensures Valid()
      ensures users == DefaultUsers && categories == DefaultCategories && locations == DefaultLocations
      ensures userIdCounter == 3 && categoryIdCounter == 5 && locationIdCounter == 5
    {
      SeedUsers();
      SeedCategories();
      SeedLocations();
    }

    /** The default admin and staff users. */
    method SeedUsers()
      requires Valid() && users == [] && userIdCounter == 1
      modifies this`users, this`userIdCounter
      ensures Valid() && userIdCounter == 3
      ensures users == DefaultUsers
    {
      var _ := CreateUser(InsertUser("admin", "admin123", "Admin User", "admin"));
      var _ := CreateUser(InsertUser("staff", "staff123", "Staff User", "staff"));
    }

    /** The default categories, created one by one in list order. */
    method SeedCategories()
      requires Valid() && categories == [] && categoryIdCounter == 1
      modifies this`categories, this`categoryIdCounter
      ensures Valid() && categoryIdCounter == 5
      ensures categories == DefaultCategories
    {
      var names := ["Electronics", "Accessories", "Furniture", "Office Supplies"];
      for i := 0 to |names|
        invariant Valid() && categoryIdCounter == i + 1
        invariant categories == seq(i, k requires 0 <= k < i => Category(k + 1, names[k]))
      {
        var _ := CreateCategory(names[i]);
      }
    }

    /** The default locations, created one by one in list order. */
    method SeedLocations()
      requires Valid() && locations == [] && locationIdCounter == 1
      modifies this`locations, this`locationIdCounter
      ensures Valid() && locationIdCounter == 5
      ensures locations == DefaultLocations
    {
      var places := ["Warehouse A", "Warehouse B", "Office Storage", "Front Shelf"];
      for i := 0 to |places|
        invariant Valid() && locationIdCounter == i + 1
        invariant locations == seq(i, k requires 0 <= k < i => Location(k + 1, places[k]))
      {
        var _ := CreateLocation(places[i]);
      }
    }

    /** The five sample items. */
    method SeedItems(now: int)
      requires Valid() && inventoryItems == [] && inventoryIdCounter == 1
      modifies this`inventoryItems, this`inventoryIdCounter
      ensures Valid() && inventoryIdCounter == 6
      ensures inventoryItems == DefaultItems(now)
    {
      var samples := [Keyboard, Cable, Lamp, Mouse, Adapter];
      for i := 0 to |samples|
        invariant Valid() && inventoryIdCounter == i + 1
        invariant inventoryItems == seq(i, k requires 0 <= k < i => NewItem(samples[k], k + 1, now))
      {
        var _ := CreateInventoryItem(samples[i], now);
      }
    }

    /** `users.get(id)` */
    function GetUser(id: int): (r: Option<User>)
      reads this
      ensures r.Some? ==> r.value in users && r.value.id == id
      ensures r.None? ==> forall u :: u in users ==> u.id != id
    {
      Find(users, (u: User) => u.id == id)
    }

    /** The first user, in insertion order, with that user name. */
    function GetUserByUsername(username: string): (r: Option<User>)
      reads this
      ensures r.Some? ==> r.value in users && r.value.username == username
      ensures r.Some? ==> exists i :: 0 <= i < |users| && users[i] == r.value &&
                                      forall j :: 0 <= j < i ==> users[j].username != username
      ensures r.None? ==> forall u :: u in users ==> u.username != username
    {
      Find(users, (u: User) => u.username == username)
    }

    method CreateUser(input: InsertUser) returns (user: User)
      requires Valid()
      modifies this`users, this`userIdCounter
      ensures Valid()
      ensures user == User(old(userIdCounter), input.username, input.password, input.name, input.role)
      ensures users == old(users) + [user] && userIdCounter == old(userIdCounter) + 1
    {
      var id := userIdCounter;
      userIdCounter := userIdCounter + 1;
      user := User(id, input.username, input.password, input.name, input.role);
      AppendIdsFresh(users, user, UserId, id);
      users := users + [user];
    }

    /** The stored categories in insertion order, which in a valid store is ascending id order. */
    function GetCategories(): (r: seq<Category>)
      reads this
      ensures Valid() ==> forall i, j :: 0 <= i < j < |r| ==> r[i].id < r[j].id
      ensures Valid() ==> forall x :: x in r ==> 1 <= x.id < categoryIdCounter
    {
      categories
    }

    function GetCategoryById(id: int): (r: Option<Category>)
      reads this
      ensures r.Some? ==> r.value in categories && r.value.id == id
      ensures r.None? ==> forall c :: c in categories ==> c.id != id
    {
      Find(categories, (c: Category) => c.id == id)
    }

    method CreateCategory(name: string) returns (category: Category)
      requires Valid()
      modifies this`categories, this`categoryIdCounter
      ensures Valid()
      ensures category == Category(old(categoryIdCounter), name)
      ensures categories == old(categories) + [category] && categoryIdCounter == old(categoryIdCounter) + 1
    {
      var id := categoryIdCounter;
      categoryIdCounter := categoryIdCounter + 1;
      category := Category(id, name);
      AppendIdsFresh(categories, category, CategoryId, id);
      categories := categories + [category];
    }

    /** The stored locations in insertion order, which in a valid store is ascending id order. */
    function GetLocations(): (r: seq<Location>)
      reads this
      ensures Valid() ==> forall i, j :: 0 <= i < j < |r| ==> r[i].id < r[j].id
      ensures Valid() ==> forall x :: x in r ==> 1 <= x.id < locationIdCounter
    {
      locations
    }

    function GetLocationById(id: int): (r: Option<Location>)
      reads this
      ensures r.Some? ==> r.value in locations && r.value.id == id
      ensures r.None? ==> forall l :: l in locations ==> l.id != id
    {
      Find(locations, (l: Location) => l.id == id)
    }

    method CreateLocation(name: string) returns (location: Location)
      requires Valid()
      modifies this`locations, this`locationIdCounter
      ensures Valid()
      ensures location == Location(old(locationIdCounter), name)
      ensures locations == old(locations) + [location] && locationIdCounter == old(locationIdCounter) + 1
    {
      var id := locationIdCounter;
      locationIdCounter := locationIdCounter + 1;
      location := Location(id, name);
      AppendIdsFresh(locations, location, LocationId, id);
      locations := locations + [location];
    }

    function Enrich(x: Item): ItemWithDetails
      reads this
    {
      EnrichWith(categories, locations, x)
    }

    /** Every item, enriched, in insertion order. */
    function GetInventoryItems(): (r: seq<ItemWithDetails>)
      reads this
      ensures |r| == |inventoryItems|
      ensures forall i :: 0 <= i < |r| ==> r[i] == Enrich(inventoryItems[i])
    {
      var cs, ls := categories, locations;
      Map(inventoryItems, (x: Item) => EnrichWith(cs, ls, x))
    }

    function GetInventoryItemById(id: int): (r: Option<ItemWithDetails>)
      reads this
      ensures r.Some? ==> r.value.item in inventoryItems && r.value.item.id == id && r.value == Enrich(r.value.item)
      ensures r.None? ==> forall x :: x in inventoryItems ==> x.id != id
    {
      var found := Find(inventoryItems, (x: Item) => x.id == id);
      if found.None? then None else Some(Enrich(found.value))
    }

    /** The first item, in insertion order, with that SKU. */
    function GetInventoryItemBySku(sku: string): (r: Option<ItemWithDetails>)
      reads this
      ensures r.Some? ==> r.value.item in inventoryItems && r.value.item.sku == sku && r.value == Enrich(r.value.item)
      ensures r.Some? ==> exists i :: 0 <= i < |inventoryItems| && inventoryItems[i] == r.value.item &&
                                      forall j :: 0 <= j < i ==> inventoryItems[j].sku != sku
      ensures r.None? ==> forall x :: x in inventoryItems ==> x.sku != sku
    {
      var found := Find(inventoryItems, (x: Item) => x.sku == sku);
      if found.None? then None else Some(Enrich(found.value))
    }

    method CreateInventoryItem(input: InsertItem, now: int) returns (item: Item)
      requires Valid()
      modifies this`inventoryItems, this`inventoryIdCounter
      ensures Valid()
      ensures item == NewItem(input, old(inventoryIdCounter), now)
      ensures forall x :: x in old(inventoryItems) ==> x.id < item.id
      ensures inventoryItems == old(inventoryItems) + [item] && inventoryIdCounter == old(inventoryIdCounter) + 1
    {
      var id := inventoryIdCounter;
      inventoryIdCounter := inventoryIdCounter + 1;
      item := NewItem(input, id, now);
      AppendIdsFresh(inventoryItems, item, ItemId, id);
      inventoryItems := inventoryItems + [item];
    }

    /** Merges the supplied fields into the stored item, in place; an unknown id changes nothing. */
    method UpdateInventoryItem(id: int, updates: ItemUpdate, now: int) returns (r: Option<Item>)
      requires Valid()
      modifies this`inventoryItems
      ensures Valid()
      ensures (forall x :: x in old(inventoryItems) ==> x.id != id) ==> r.None? && inventoryItems == old(inventoryItems)
      ensures r.Some? ==> exists i :: 0 <= i < |old(inventoryItems)| && old(inventoryItems)[i].id == id
                            && r.value == ApplyUpdate(old(inventoryItems)[i], updates, now)
                            && inventoryItems == old(inventoryItems)[i := r.value]
      ensures r.None? ==> inventoryItems == old(inventoryItems)
      ensures r.None? <==> forall x :: x in old(inventoryItems) ==> x.id != id
    {
      var found := FindIndex(inventoryItems, (x: Item) => x.id == id);
      if found.None? {
        r := None;
        return;
      }
      var i := found.value;
      var updated := ApplyUpdate(inventoryItems[i], updates, now);
      inventoryItems := inventoryItems[i := updated];
      r := Some(updated);
    }

    /** `Map.delete`: true exactly when the id was present; afterwards it is absent. */
    method DeleteInventoryItem(id: int) returns (deleted: bool)
      requires Valid()
      modifies this`inventoryItems
      ensures Valid()
      ensures deleted <==> exists x :: x in old(inventoryItems) && x.id == id
      ensures inventoryItems == Filter(old(inventoryItems), (x: Item) => x.id != id)
      ensures forall x :: x in inventoryItems ==> x.id != id
    {
      deleted := Find(inventoryItems, (x: Item) => x.id == id).Some?;
      FilterIdsFresh(inventoryItems, (x: Item) => x.id != id, ItemId, inventoryIdCounter);
      inventoryItems := Filter(inventoryItems, (x: Item) => x.id != id);
    }

    function GetLowStockItems(): (r: seq<ItemWithDetails>)
      reads this
      ensures |r| == Count(inventoryItems, IsLowStockStored)
      ensures forall i :: 0 <= i < |r| ==>
                r[i].item in inventoryItems && IsLowStockStored(r[i].item) && r[i] == Enrich(r[i].item)
      ensures |r| == |Filter(inventoryItems, IsLowStockStored)|
      ensures forall i :: 0 <= i < |r| ==> r[i] == Enrich(Filter(inventoryItems, IsLowStockStored)[i])
    {
      var cs, ls := categories, locations;
      Map(Filter(inventoryItems, IsLowStockStored), (x: Item) => EnrichWith(cs, ls, x))
    }

    /** The `limit` most recently updated items, newest first, enriched. */
    function GetRecentlyUpdatedItems(limit: int): (r: seq<ItemWithDetails>)
      reads this
      ensures |r| == |MostRecent(inventoryItems, limit)|
      ensures forall i :: 0 <= i < |r| ==> r[i] == Enrich(MostRecent(inventoryItems, limit)[i])
    {
      var cs, ls := categories, locations;
      Map(MostRecent(inventoryItems, limit), (x: Item) => EnrichWith(cs, ls, x))
    }

    function GetInventorySummary(): (s: InventorySummary)
      reads this
      ensures s.totalItems == |inventoryItems|
      ensures s.lowStockCount == |GetLowStockItems()| <= s.totalItems
      ensures s.totalValueCents == TotalValue(inventoryItems)
      ensures s.openOrders == 7
    {
      InventorySummary(|inventoryItems|, Count(inventoryItems, IsLowStockStored), TotalValue(inventoryItems), 7)
    }

    /** The low-stock list holds every low-stock item of the store, and nothing else. */
    lemma LowStockItemsExact(x: Item)
      ensures (exists i :: 0 <= i < |GetLowStockItems()| && GetLowStockItems()[i].item == x)
              <==> x in inventoryItems && IsLowStockStored(x)
    {
      var f := Filter(inventoryItems, IsLowStockStored);
      FilterMembership(inventoryItems, IsLowStockStored, x);
      if x in f {
        var i :| 0 <= i < |f| && f[i] == x;
        assert GetLowStockItems()[i].item == x;
      }
    }
  }

  const DefaultUsers := [User(1, "admin", "admin123", "Admin User", "admin"),
                         User(2, "staff", "staff123", "Staff User", "staff")]
  const DefaultCategories := [Category(1, "Electronics"), Category(2, "Accessories"),
                              Category(3, "Furniture"), Category(4, "Office Supplies")]
  const DefaultLocations := [Location(1, "Warehouse A"), Location(2, "Warehouse B"),
                             Location(3, "Office Storage"), Location(4, "Front Shelf")]

  function DefaultItems(now: int): seq<Item>
  {
    [NewItem(Keyboard, 1, now), NewItem(Cable, 2, now), NewItem(Lamp, 3, now),
     NewItem(Mouse, 4, now), NewItem(Adapter, 5, now)]
  }

  const Keyboard := InsertItem("Wireless Keyboard", "KB-WL001", Some("Bluetooth wireless keyboard"), Some(1), Some(1),
                               24, Some(4599), Num(10), Some("123456789012"))
  const Cable := InsertItem("USB-C Cable", "CA-UC100", Some("USB-C to USB-A charging cable"), Some(2), Some(4),
                            8, Some(1250), Num(15), Some("223456789012"))
  const Lamp := InsertItem("Desk Lamp", "LT-DK220", Some("Adjustable LED desk lamp"), Some(3), Some(3),
                           32, Some(2999), Num(10), Some("323456789012"))
  const Mouse := InsertItem("Wireless Mouse", "MS-WL200", Some("Wireless optical mouse"), Some(1), Some(4),
                            5, Some(2299), Num(8), Some("423456789012"))
  const Adapter := InsertItem("HDMI Adapter", "AD-HD001", Some("HDMI to USB-C adapter"), Some(2), Some(2),
                              3, Some(1850), Num(10), Some("523456789012"))

  /** Filtering five elements of which the second, fourth and fifth pass. */
  lemma FilterFive<T>(a: T, b: T, c: T, e: T, f: T, p: T -> bool)
    requires !p(a) && p(b) && !p(c) && p(e) && p(f)
    ensures Filter([a, b, c, e, f], p) == [b, e, f]
  {
    assert [f][1..] == [];
    assert Filter([f], p) == [f];
    assert [e, f][1..] == [f];
    assert Filter([e, f], p) == [e, f];
    assert [c, e, f][1..] == [e, f];
    assert Filter([c, e, f], p) == [e, f];
    assert [b, c, e, f][1..] == [c, e, f];
    assert Filter([b, c, e, f], p) == [b, e, f];
    assert [a, b, c, e, f][1..] == [b, c, e, f];
  }

  /** Of the five sample items the cable, the mouse and the adapter are low on stock. */
  lemma SeedLowStock(now: int)
    ensures Filter(DefaultItems(now), IsLowStockStored) == [NewItem(Cable, 2, now), NewItem(Mouse, 4, now), NewItem(Adapter, 5, now)]
  {
    var a, b, c, e, f := NewItem(Keyboard, 1, now), NewItem(Cable, 2, now), NewItem(Lamp, 3, now),
                         NewItem(Mouse, 4, now), NewItem(Adapter, 5, now);
    assert !IsLowStockStored(a) && IsLowStockStored(b) && !IsLowStockStored(c);
    assert IsLowStockStored(e) && IsLowStockStored(f);
    FilterFive(a, b, c, e, f, IsLowStockStored);
  }

  /** The sample stock is worth 2333.89 in total. */
  lemma SeedTotalValue(now: int)
    ensures TotalValue(DefaultItems(now)) == 233389
  {
    var d := DefaultItems(now);
    assert TotalValue(d[..1]) == 110376 by { assert d[..1][..0] == []; }
    assert TotalValue(d[..2]) == 120376 by { assert d[..2][..1] == d[..1]; }
    assert TotalValue(d[..3]) == 216344 by { assert d[..3][..2] == d[..2]; }
    assert TotalValue(d[..4]) == 227839 by { assert d[..4][..3] == d[..3]; }
    assert d[..5][..4] == d[..4] && d[..5] == d;
  }

  /** A fresh store continues numbering items at 6. */
  method SeededStore(now: int) returns (item: Item)
    ensures item == NewItem(Keyboard, 6, now)
  {
    var s := new MemStorage(now);
    item := s.CreateInventoryItem(Keyboard, now);
  }
}
