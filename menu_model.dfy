/**
 * The menu-item schema: its fields, the category enumeration, the setters (trim), the
 * defaults and the validators that creation and update run; and the happy-hour price
 * rule that both the menu routes and the checkout apply to an item.
 */
module MenuModel {
  import opened Base
  import opened Text

  datatype Category =
    | Breakfast | Brunch | Lunch | Dinner | CoffeeAndDrinks
    | CocktailsBeerWine | VegetarianAndHealthy | KidsMenu

  function CategoryName(c: Category): string {
    match c
    case Breakfast => "Breakfast"
    case Brunch => "Brunch"
    case Lunch => "Lunch"
    case Dinner => "Dinner"
    case CoffeeAndDrinks => "Coffee & Drinks"
    case CocktailsBeerWine => "Cocktails, Beer, Wine"
    case VegetarianAndHealthy => "Vegetarian & Healthy Options"
    case KidsMenu => "Kids Menu"
  }

  const AllCategories: seq<Category> :=
    [Breakfast, Brunch, Lunch, Dinner, CoffeeAndDrinks, CocktailsBeerWine, VegetarianAndHealthy, KidsMenu]

  /** The `enum` validator of `category` (and the route's `isIn` list): exactly eight names. */
  function ParseCategory(s: string): (r: Option<Category>)
    ensures r.Some? ==> CategoryName(r.value) == s
    ensures r.None? ==> forall c: Category :: CategoryName(c) != s
  {
    if s == "Breakfast" then Some(Breakfast)
    else if s == "Brunch" then Some(Brunch)
    else if s == "Lunch" then Some(Lunch)
    else if s == "Dinner" then Some(Dinner)
    else if s == "Coffee & Drinks" then Some(CoffeeAndDrinks)
    else if s == "Cocktails, Beer, Wine" then Some(CocktailsBeerWine)
    else if s == "Vegetarian & Healthy Options" then Some(VegetarianAndHealthy)
    else if s == "Kids Menu" then Some(KidsMenu)
    else None
  }

  /** Every category is accepted under its own name, and the eight names are distinct. */
  lemma CategoryRoundTrip(c: Category)
    ensures ParseCategory(CategoryName(c)) == Some(c)
    ensures c in AllCategories
  {
  }

  lemma CategoryNameInjective(c: Category, d: Category)
    requires CategoryName(c) == CategoryName(d)
    ensures c == d
  {
    CategoryRoundTrip(c);
    CategoryRoundTrip(d);
  }

  /** A stored menu item; prices are in cents. */
  datatype MenuItem = MenuItem(
    name: string,
    description: string,
    price: int,
    category: Category,
    imageUrl: string,
    isVegetarian: bool,
    isGlutenFree: bool,
    isKids: bool,
    isAvailable: bool,
    happyHourPrice: Option<int>)

  /** The fields a request body may carry; an absent field is `None`. */
  datatype MenuFields = MenuFields(
    name: Option<string>,
    description: Option<string>,
    price: Option<int>,
    category: Option<string>,
    imageUrl: Option<string>,
    isVegetarian: Option<bool>,
    isGlutenFree: Option<bool>,
    isKids: Option<bool>,
    isAvailable: Option<bool>,
    happyHourPrice: Option<int>)

  /** What the schema guarantees of every stored item. */
  ghost predicate ValidMenuItem(m: MenuItem) {
    && m.name != "" && Trimmed(m.name)
    && m.description != "" && Trimmed(m.description)
    && m.price >= 0
    && (m.happyHourPrice.Some? ==> m.happyHourPrice.value >= 0)
  }

  /** A required string passes when present and non-empty after its `trim` setter. */
  predicate RequiredText(s: Option<string>) {
    s.Some? && Trim(s.value) != ""
  }

  predicate NonNegative(p: Option<int>) {
    p.Some? ==> p.value >= 0
  }

  function OrDefault<T>(o: Option<T>, d: T): T {
    if o.Some? then o.value else d
  }

  /**
   * Document creation: setters, then defaults, then validation. `None` is the schema's
   * ValidationError.
   */
  function CreateMenuItem(f: MenuFields): (r: Option<MenuItem>)
    ensures r.Some? <==>
      && RequiredText(f.name) && RequiredText(f.description)
      && f.price.Some? && f.price.value >= 0
      && f.category.Some? && ParseCategory(f.category.value).Some?
      && NonNegative(f.happyHourPrice)
    ensures r.Some? ==> ValidMenuItem(r.value)
    ensures r.Some? ==>
      && r.value.name == Trim(f.name.value) && r.value.description == Trim(f.description.value)
      && r.value.price == f.price.value && CategoryName(r.value.category) == f.category.value
      && r.value.happyHourPrice == f.happyHourPrice
  {
    if RequiredText(f.name) && RequiredText(f.description)
       && f.price.Some? && f.price.value >= 0
       && f.category.Some? && ParseCategory(f.category.value).Some?
       && NonNegative(f.happyHourPrice)
    then
      Some(MenuItem(
        Trim(f.name.value), Trim(f.description.value), f.price.value,
        ParseCategory(f.category.value).value,
        OrDefault(f.imageUrl, ""),
        OrDefault(f.isVegetarian, false), OrDefault(f.isGlutenFree, false), OrDefault(f.isKids, false),
        OrDefault(f.isAvailable, true),
        f.happyHourPrice))
    else None
  }

  /** Left unset, an item is available, carries no dietary flags and has an empty image URL. */
  lemma CreateMenuItemDefaults(f: MenuFields)
    requires CreateMenuItem(f).Some?
    requires f.imageUrl.None? && f.isVegetarian.None? && f.isGlutenFree.None? && f.isKids.None?
    requires f.isAvailable.None?
    ensures var m := CreateMenuItem(f).value;
      m.isAvailable && !m.isVegetarian && !m.isGlutenFree && !m.isKids && m.imageUrl == ""
  {
  }

  /** A text field after an update: the trimmed new value when one is given. */
  function PatchText(current: string, given: Option<string>): (r: string)
    ensures given.Some? ==> r == Trim(given.value) && Trimmed(r)
    ensures given.None? ==> r == current
  {
    if given.Some? then Trim(given.value) else current
  }

  /** The update validators: each given field is checked by its own validators only. */
  predicate UpdateAccepted(f: MenuFields) {
    && (f.name.Some? ==> RequiredText(f.name))
    && (f.description.Some? ==> RequiredText(f.description))
    && NonNegative(f.price)
    && (f.category.Some? ==> ParseCategory(f.category.value).Some?)
    && NonNegative(f.happyHourPrice)
  }

  /**
   * `findByIdAndUpdate(id, body, { runValidators: true })`: only the fields in the body are
   * replaced; the trim setters apply to them and their own validators run on them.
   */
  function UpdateMenuItem(m: MenuItem, f: MenuFields): (r: Option<MenuItem>)
    ensures r.Some? <==> UpdateAccepted(f)
    ensures r.Some? ==>
      && r.value.name == PatchText(m.name, f.name)
      && r.value.description == PatchText(m.description, f.description)
      && r.value.price == OrDefault(f.price, m.price)
      && (f.category.None? ==> r.value.category == m.category)
      && (f.category.Some? ==> CategoryName(r.value.category) == f.category.value)
      && r.value.imageUrl == OrDefault(f.imageUrl, m.imageUrl)
      && r.value.isVegetarian == OrDefault(f.isVegetarian, m.isVegetarian)
      && r.value.isGlutenFree == OrDefault(f.isGlutenFree, m.isGlutenFree)
      && r.value.isKids == OrDefault(f.isKids, m.isKids)
      && r.value.isAvailable == OrDefault(f.isAvailable, m.isAvailable)
      && r.value.happyHourPrice == (if f.happyHourPrice.Some? then f.happyHourPrice else m.happyHourPrice)
  {
    if UpdateAccepted(f) then
      Some(MenuItem(
        PatchText(m.name, f.name),
        PatchText(m.description, f.description),
        OrDefault(f.price, m.price),
        if f.category.Some? then ParseCategory(f.category.value).value else m.category,
        OrDefault(f.imageUrl, m.imageUrl),
        OrDefault(f.isVegetarian, m.isVegetarian),
        OrDefault(f.isGlutenFree, m.isGlutenFree),
        OrDefault(f.isKids, m.isKids),
        OrDefault(f.isAvailable, m.isAvailable),
        if f.happyHourPrice.Some? then f.happyHourPrice else m.happyHourPrice))
    else None
  }

  /** An accepted update keeps a valid item valid. */
  lemma UpdateKeepsValid(m: MenuItem, f: MenuFields)
    requires ValidMenuItem(m) && UpdateAccepted(f)
    ensures ValidMenuItem(UpdateMenuItem(m, f).value)
  {
    var r := UpdateMenuItem(m, f).value;
    assert r.name != "" && Trimmed(r.name);
    assert r.description != "" && Trimmed(r.description);
  }

  /** An update with an empty body changes nothing. */
  lemma EmptyUpdateIsIdentity(m: MenuItem)
    ensures UpdateMenuItem(m, MenuFields(None, None, None, None, None, None, None, None, None, None)) == Some(m)
  {
  }

  /** `item.happyHourPrice` is truthy: present and not zero. */
  predicate HasHappyPrice(m: MenuItem) {
    m.happyHourPrice.Some? && m.happyHourPrice.value != 0
  }

  /**
   * The price an item is sold at: its happy-hour price while happy hour is on and the item
   * has a truthy one, its regular price otherwise. A happy-hour price of 0 falls back.
   */
  function CurrentPrice(m: MenuItem, happy: bool): (p: int)
    ensures happy && HasHappyPrice(m) ==> p == m.happyHourPrice.value
    ensures !(happy && HasHappyPrice(m)) ==> p == m.price
  {
    if happy && HasHappyPrice(m) then m.happyHourPrice.value else m.price
  }

  /** Prices of a stored item are never negative, whatever the hour. */
  lemma CurrentPriceNonNegative(m: MenuItem, happy: bool)
    requires ValidMenuItem(m)
    ensures CurrentPrice(m, happy) >= 0
  {
  }
}
