/**
 * The menu routes: the public listing and single-item lookup with happy-hour pricing, and
 * the admin-only create, update and soft delete.
 */
module MenuRoutes {
  import opened Base
  import opened Text
  import opened Collections
  import opened Collaborators
  import opened HappyHour
  import opened MenuModel
  import opened AuthMiddleware
  import opened Db

  /** A stored item together with its id. */
  datatype Entry = Entry(id: nat, item: MenuItem)

  /** An item as the routes answer it: the document plus `currentPrice` and `isHappyHour`. */
  datatype PricedItem = PricedItem(entry: Entry, currentPrice: int, isHappyHour: bool)

  datatype MenuListing = MenuListing(count: nat, isHappyHour: bool, data: seq<PricedItem>)

  const MenuItemNotFound: string := "Menu item not found"

  /**
   * The price decoration: the happy-hour price and `isHappyHour = true` together, exactly
   * when happy hour is on and the item has a truthy happy-hour price.
   */
  function ResolvePrice(e: Entry, happy: bool): (p: PricedItem)
    ensures p.entry == e
    ensures p.isHappyHour <==> happy && HasHappyPrice(e.item)
    ensures p.isHappyHour ==> p.currentPrice == e.item.happyHourPrice.value
    ensures !p.isHappyHour ==> p.currentPrice == e.item.price
  {
    if happy && HasHappyPrice(e.item) then PricedItem(e, e.item.happyHourPrice.value, true)
    else PricedItem(e, e.item.price, false)
  }

  /** The decorated price is the one checkout charges for the same item at the same hour. */
  lemma ResolvePriceIsCheckoutPrice(e: Entry, happy: bool)
    ensures ResolvePrice(e, happy).currentPrice == CurrentPrice(e.item, happy)
  {
  }

  /** The collection with the ids the documents are stored under. */
  function Entries(menu: seq<MenuItem>): (es: seq<Entry>)
    ensures |es| == |menu| && forall i :: 0 <= i < |menu| ==> es[i] == Entry(i, menu[i])
  {
    seq(|menu|, i requires 0 <= i < |menu| => Entry(i, menu[i]))
  }

  /** The listing's query: available items, of the given category when a non-empty one is given. */
  predicate Listed(e: Entry, category: Option<string>) {
    && e.item.isAvailable
    && (category.Some? && category.value != "" ==> CategoryName(e.item.category) == category.value)
  }

  /** The listing's sort: by category name, then by item name. */
  predicate MenuLe(a: Entry, b: Entry) {
    var ca, cb := CategoryName(a.item.category), CategoryName(b.item.category);
    if ca != cb then StrLe(ca, cb) else StrLe(a.item.name, b.item.name)
  }

  lemma MenuLeTransitive(a: Entry, b: Entry, c: Entry)
    requires MenuLe(a, b) && MenuLe(b, c)
    ensures MenuLe(a, c)
  {
    var ca, cb, cc := CategoryName(a.item.category), CategoryName(b.item.category), CategoryName(c.item.category);
    if ca != cb && cb != cc {
      StrLeTransitive(ca, cb, cc);
      if ca == cc {
        StrLeAntisymmetric(ca, cb);
      }
    } else if ca == cb && cb == cc {
      StrLeTransitive(a.item.name, b.item.name, c.item.name);
    }
  }

  /** The category-then-name order is total and transitive, so the listing can be sorted by it. */
  lemma MenuLeTotalPreorder()
    ensures TotalPreorder(MenuLe)
  {
    forall a: Entry, b: Entry ensures MenuLe(a, b) || MenuLe(b, a) {
      StrLeTotal(CategoryName(a.item.category), CategoryName(b.item.category));
      StrLeTotal(a.item.name, b.item.name);
    }
    forall a: Entry, b: Entry, c: Entry | MenuLe(a, b) && MenuLe(b, c) ensures MenuLe(a, c) {
      MenuLeTransitive(a, b, c);
    }
  }

  /** The listed entries, in listing order. */
  function ListedEntries(menu: seq<MenuItem>, category: Option<string>): seq<Entry> {
    Sort(Filter(Entries(menu), e => Listed(e, category)), MenuLe)
  }

  /** GET /: the query, the sort, and the price decoration of each listed item. */
  function ListMenu(menu: seq<MenuItem>, category: Option<string>, hour: int, cfg: Config): (r: MenuListing)
    ensures r.count == |r.data| && r.isHappyHour == IsHappyHour(hour, cfg)
    ensures |r.data| == |ListedEntries(menu, category)|
    ensures forall k :: 0 <= k < |r.data| ==>
      r.data[k] == ResolvePrice(ListedEntries(menu, category)[k], IsHappyHour(hour, cfg))
  {
    var es := ListedEntries(menu, category);
    var happy := IsHappyHour(hour, cfg);
    var data := seq(|es|, k requires 0 <= k < |es| => ResolvePrice(es[k], happy));
    MenuListing(|data|, happy, data)
  }

  /**
   * The listing holds exactly the stored items that match the query, each under its own id
   * and unchanged.
   */
  lemma ListMenuContents(menu: seq<MenuItem>, category: Option<string>, hour: int, cfg: Config)
    ensures var d := ListMenu(menu, category, hour, cfg).data;
      forall k :: 0 <= k < |d| ==>
        d[k].entry.id < |menu| && d[k].entry.item == menu[d[k].entry.id] && Listed(d[k].entry, category)
    ensures var d := ListMenu(menu, category, hour, cfg).data;
      forall id :: 0 <= id < |menu| && Listed(Entry(id, menu[id]), category) ==>
        exists k :: 0 <= k < |d| && d[k].entry.id == id
  {
    var es := ListedEntries(menu, category);
    var d := ListMenu(menu, category, hour, cfg).data;
    forall k | 0 <= k < |d|
      ensures d[k].entry.id < |menu| && d[k].entry.item == menu[d[k].entry.id] && Listed(d[k].entry, category)
    {
      assert d[k].entry == es[k];
      ListedEntrySound(menu, category, k);
    }
    forall id | 0 <= id < |menu| && Listed(Entry(id, menu[id]), category)
      ensures exists k :: 0 <= k < |d| && d[k].entry.id == id
    {
      var k := ListedEntryComplete(menu, category, id);
      assert d[k].entry == es[k];
    }
  }

  /** A listed entry is a stored item under its own id that matches the query. */
  lemma ListedEntrySound(menu: seq<MenuItem>, category: Option<string>, k: nat)
    requires k < |ListedEntries(menu, category)|
    ensures var e := ListedEntries(menu, category)[k];
      e.id < |menu| && e.item == menu[e.id] && Listed(e, category)
  {
    var es := Entries(menu);
    var fl := Filter(es, e => Listed(e, category));
    var so := Sort(fl, MenuLe);
    PermutationMember(so, fl, k);
    var j :| 0 <= j < |fl| && fl[j] == so[k];
    var i :| 0 <= i < |es| && es[i] == fl[j];
  }

  /** A stored item that matches the query is listed. */
  lemma ListedEntryComplete(menu: seq<MenuItem>, category: Option<string>, id: nat) returns (k: nat)
    requires id < |menu| && Listed(Entry(id, menu[id]), category)
    ensures k < |ListedEntries(menu, category)| && ListedEntries(menu, category)[k].id == id
  {
    var es := Entries(menu);
    var p := e => Listed(e, category);
    var fl := Filter(es, p);
    var so := Sort(fl, MenuLe);
    assert p(es[id]);
    assert es[id] in fl;
    assert es[id] in multiset(so);
    k :| 0 <= k < |so| && so[k] == es[id];
  }

  /** The listing is in category-then-name order. */
  lemma ListMenuSorted(menu: seq<MenuItem>, category: Option<string>, hour: int, cfg: Config)
    ensures var d := ListMenu(menu, category, hour, cfg).data;
      forall i, j :: 0 <= i < j < |d| ==> MenuLe(d[i].entry, d[j].entry)
  {
    MenuLeTotalPreorder();
    SortSorted(Filter(Entries(menu), e => Listed(e, category)), MenuLe);
  }

  /** GET /:id: any stored item, available or not, with its price decoration; else 404. */
  function GetMenuItem(menu: seq<MenuItem>, id: nat, hour: int, cfg: Config): (r: Response<PricedItem>)
    ensures r.Err? <==> id >= |menu|
    ensures r.Err? ==> r.status == NotFound && r.message == MenuItemNotFound
    ensures r.Ok? ==> r.value == ResolvePrice(Entry(id, menu[id]), IsHappyHour(hour, cfg))
  {
    if id >= |menu| then Err(NotFound, MenuItemNotFound)
    else Ok(ResolvePrice(Entry(id, menu[id]), IsHappyHour(hour, cfg)))
  }

  /** The soft delete: the item stays, marked unavailable; nothing else changes. */
  function SoftDelete(menu: seq<MenuItem>, id: nat): (r: seq<MenuItem>)
    requires id < |menu|
    ensures |r| == |menu| && !r[id].isAvailable
    ensures forall i :: 0 <= i < |menu| && i != id ==> r[i] == menu[i]
    ensures r[id] == menu[id].(isAvailable := false)
  {
    menu[id := menu[id].(isAvailable := false)]
  }

  /** A deleted item drops out of the listing but is still served by id. */
  lemma SoftDeletedItemUnlisted(menu: seq<MenuItem>, id: nat, category: Option<string>, hour: int, cfg: Config)
    requires id < |menu|
    ensures var d := ListMenu(SoftDelete(menu, id), category, hour, cfg).data;
      forall k :: 0 <= k < |d| ==> d[k].entry.id != id
    ensures GetMenuItem(SoftDelete(menu, id), id, hour, cfg).Ok?
    ensures GetMenuItem(SoftDelete(menu, id), id, hour, cfg).value.entry.item == menu[id].(isAvailable := false)
  {
    ListMenuContents(SoftDelete(menu, id), category, hour, cfg);
  }

  /** The route validators of POST /: trimmed name and description, price at least 0, a listed category. */
  predicate CreateRequestValid(f: MenuFields) {
    && RequiredText(f.name) && RequiredText(f.description)
    && f.price.Some? && f.price.value >= 0
    && f.category.Some? && ParseCategory(f.category.value).Some?
  }

  /**
   * POST /: the admin gate, the route validators (400), then the schema (500 for what only
   * the schema checks, a negative happy-hour price); the new item is appended.
   */
  method CreateItem(db: Store, header: Option<string>, crypto: Crypto, f: MenuFields) returns (r: Response<Entry>)
    requires db.Valid()
    modifies db
    ensures db.Valid()
    ensures db.orders == old(db.orders) && db.users == old(db.users)
    ensures Gate(old(db.users), header, crypto, AdminOnly).Reject? ==>
      r == Err(Gate(old(db.users), header, crypto, AdminOnly).status, Gate(old(db.users), header, crypto, AdminOnly).message)
    ensures Gate(old(db.users), header, crypto, AdminOnly).Proceed? && !CreateRequestValid(f) ==>
      r == Err(BadRequest, InvalidRequest)
    ensures Gate(old(db.users), header, crypto, AdminOnly).Proceed? && CreateRequestValid(f) && CreateMenuItem(f).None? ==>
      r == Err(ServerError, SchemaValidationFailed)
    ensures r.Ok? <==>
      Gate(old(db.users), header, crypto, AdminOnly).Proceed? && CreateRequestValid(f) && CreateMenuItem(f).Some?
    ensures r.Ok? ==> r.value == Entry(|old(db.menu)|, CreateMenuItem(f).value) && db.menu == old(db.menu) + [r.value.item]
    ensures r.Err? ==> db.menu == old(db.menu)
  {
    var gate := Gate(db.users, header, crypto, AdminOnly);
    if gate.Reject? {
      return Err(gate.status, gate.message);
    }
    if !CreateRequestValid(f) {
      return Err(BadRequest, InvalidRequest);
    }
    var item := CreateMenuItem(f);
    if item.None? {
      return Err(ServerError, SchemaValidationFailed);
    }
    r := Ok(Entry(|db.menu|, item.value));
    ValidMenuUpdate(db.menu, |db.menu|, item.value);
    db.menu := db.menu + [item.value];
  }

  /** Only the happy-hour price is left for the schema to reject once the route validators pass. */
  lemma CreateSchemaRejection(f: MenuFields)
    requires CreateRequestValid(f)
    ensures CreateMenuItem(f).None? <==> f.happyHourPrice.Some? && f.happyHourPrice.value < 0
  {
  }

  /**
   * PUT /:id: the admin gate; the update validators run on the given fields first (500), then
   * a missing id gives 404; otherwise only the given fields are replaced.
   */
  method UpdateItem(db: Store, header: Option<string>, crypto: Crypto, id: nat, f: MenuFields) returns (r: Response<Entry>)
    requires db.Valid()
    modifies db
    ensures db.Valid()
    ensures db.orders == old(db.orders) && db.users == old(db.users)
    ensures Gate(old(db.users), header, crypto, AdminOnly).Reject? ==>
      r == Err(Gate(old(db.users), header, crypto, AdminOnly).status, Gate(old(db.users), header, crypto, AdminOnly).message)
    ensures Gate(old(db.users), header, crypto, AdminOnly).Proceed? && !UpdateAccepted(f) ==>
      r == Err(ServerError, SchemaValidationFailed)
    ensures Gate(old(db.users), header, crypto, AdminOnly).Proceed? && UpdateAccepted(f) && id >= |old(db.menu)| ==>
      r == Err(NotFound, MenuItemNotFound)
    ensures r.Ok? <==>
      Gate(old(db.users), header, crypto, AdminOnly).Proceed? && UpdateAccepted(f) && id < |old(db.menu)|
    ensures r.Ok? ==>
      && r.value == Entry(id, UpdateMenuItem(old(db.menu)[id], f).value)
      && db.menu == old(db.menu)[id := r.value.item]
    ensures r.Err? ==> db.menu == old(db.menu)
  {
    var gate := Gate(db.users, header, crypto, AdminOnly);
    if gate.Reject? {
      return Err(gate.status, gate.message);
    }
    if !UpdateAccepted(f) {
      return Err(ServerError, SchemaValidationFailed);
    }
    if id >= |db.menu| {
      return Err(NotFound, MenuItemNotFound);
    }
    UpdateKeepsValid(db.menu[id], f);
    var updated := UpdateMenuItem(db.menu[id], f).value;
    ValidMenuUpdate(db.menu, id, updated);
    db.menu := db.menu[id := updated];
    r := Ok(Entry(id, updated));
  }

  /** DELETE /:id: the admin gate, 404 for a missing id, otherwise the soft delete. */
  method DeleteItem(db: Store, header: Option<string>, crypto: Crypto, id: nat) returns (r: Response<string>)
    requires db.Valid()
    modifies db
    ensures db.Valid()
    ensures db.orders == old(db.orders) && db.users == old(db.users)
    ensures Gate(old(db.users), header, crypto, AdminOnly).Reject? ==>
      r == Err(Gate(old(db.users), header, crypto, AdminOnly).status, Gate(old(db.users), header, crypto, AdminOnly).message)
    ensures Gate(old(db.users), header, crypto, AdminOnly).Proceed? && id >= |old(db.menu)| ==>
      r == Err(NotFound, MenuItemNotFound)
    ensures r.Ok? <==> Gate(old(db.users), header, crypto, AdminOnly).Proceed? && id < |old(db.menu)|
    ensures r.Ok? ==> r.value == "Menu item deleted" && db.menu == SoftDelete(old(db.menu), id)
    ensures r.Err? ==> db.menu == old(db.menu)
  {
    var gate := Gate(db.users, header, crypto, AdminOnly);
    if gate.Reject? {
      return Err(gate.status, gate.message);
    }
    if id >= |db.menu| {
      return Err(NotFound, MenuItemNotFound);
    }
    ValidMenuUpdate(db.menu, id, db.menu[id].(isAvailable := false));
    db.menu := db.menu[id := db.menu[id].(isAvailable := false)];
    r := Ok("Menu item deleted");
  }
}
