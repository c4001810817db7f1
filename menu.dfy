/** The menu catalogue: flavours, toppings and containers with their
    prices, kept as a list and rewritten whole to `menu.json` on change. */
module Menu {
  import opened Results
  import opened Json
  import opened Lookup
  import opened Store

  const MenuFile := "menu.json"

  /** One sellable item. The category is one of "flavor", "topping" or
      "container" by convention; nothing enforces it. */
  datatype MenuItem = MenuItem(itemId: string, name: string, price: int, category: string)

  function ItemKey(m: MenuItem): string {
    m.itemId
  }

  /** The first item with identifier `itemId`: later items with the same
      identifier are never found. */
  function FindItem(items: seq<MenuItem>, itemId: string): Option<MenuItem> {
    Find(items, ItemKey, itemId)
  }

  /** `MenuItem.to_dict`. */
  function EncodeMenuItem(m: MenuItem): Json {
    JObj(map[
      "item_id" := JStr(m.itemId),
      "name" := JStr(m.name),
      "price" := JInt(m.price),
      "category" := JStr(m.category)])
  }

  /** `MenuItem.from_dict`: all four keys are required. */
  function DecodeMenuItem(doc: Json): (r: Result<MenuItem, DecodeError>)
    ensures !doc.JObj? ==> r == Err(NotAnObject)
    ensures doc.JObj? && "item_id" !in doc.fields ==> r == Err(MissingKey("item_id"))
  {
    var itemId :- StrField(doc, "item_id");
    var name :- StrField(doc, "name");
    var price :- IntField(doc, "price");
    var category :- StrField(doc, "category");
    Ok(MenuItem(itemId, name, price, category))
  }

  /** `MenuItem.from_dict(m.to_dict())` is `m`. */
  lemma MenuItemRoundTrip(m: MenuItem)
    ensures DecodeMenuItem(EncodeMenuItem(m)) == Ok(m)
  {
  }

  /** The whole of `menu.json` for a list of items. */
  function EncodeMenu(items: seq<MenuItem>): Json {
    JArr(EncodeAll(items, EncodeMenuItem))
  }

  /** `load_menu`: every entry of the document is read back with `from_dict`. */
  function DecodeMenu(doc: Json): Result<seq<MenuItem>, DecodeError> {
    var elems :- Elements(doc);
    DecodeAll(elems, DecodeMenuItem)
  }

  /** Saving the menu and loading it again gives the same list of items. */
  lemma MenuRoundTrip(items: seq<MenuItem>)
    ensures DecodeMenu(EncodeMenu(items)) == Ok(items)
  {
    forall i | 0 <= i < |items|
      ensures DecodeMenuItem(EncodeMenuItem(items[i])) == Ok(items[i])
    {
      MenuItemRoundTrip(items[i]);
    }
    DecodeEncodeAll(items, EncodeMenuItem, DecodeMenuItem);
  }

  /** `get_items_by_category`: the items of one category, in menu order. */
  function InCategory(items: seq<MenuItem>, category: string): (r: seq<MenuItem>)
    ensures forall m :: m in r <==> m in items && m.category == category
    ensures |r| <= |items|
  {
    if items == [] then []
    else if items[0].category == category then [items[0]] + InCategory(items[1..], category)
    else InCategory(items[1..], category)
  }

  /** Filtering distributes over concatenation, so the listing of a menu is
      the listing of its first part followed by that of the rest: the
      original order is kept and nothing is listed twice. */
  lemma {:induction false} InCategoryAppend(a: seq<MenuItem>, b: seq<MenuItem>, category: string)
    ensures InCategory(a + b, category) == InCategory(a, category) + InCategory(b, category)
  {
    if a == [] {
      assert a + b == b;
    } else {
      assert (a + b)[1..] == a[1..] + b;
      InCategoryAppend(a[1..], b, category);
    }
  }

  /** The listing of a single item is that item when it is in the category
      and nothing otherwise; with InCategoryAppend this pins down the
      listing of every menu. */
  lemma InCategorySingle(m: MenuItem, category: string)
    ensures InCategory([m], category) == if m.category == category then [m] else []
  {
  }

  class MenuManager {
    const store: FileStore
    var menuItems: seq<MenuItem>

    /** A manager over an already loaded list of items. */
    constructor(store: FileStore, menuItems: seq<MenuItem>)
      ensures this.store == store && this.menuItems == menuItems
    {
      this.store := store;
      this.menuItems := menuItems;
    }

    /** `MenuManager()`: loads `menu.json` (an empty menu when the file does
        not exist); an entry that cannot be read makes construction fail. */
    static method Open(store: FileStore) returns (r: Result<MenuManager, DecodeError>)
      ensures r.Ok? <==> DecodeMenu(store.Load(MenuFile)).Ok?
      ensures r.Ok? ==> fresh(r.value) && r.value.store == store
      ensures r.Ok? ==> r.value.menuItems == DecodeMenu(store.Load(MenuFile)).value
    {
      var items := DecodeMenu(store.Load(MenuFile));
      if items.Err? {
        return Err(items.error);
      }
      var m := new MenuManager(store, items.value);
      r := Ok(m);
    }

    /** `save_menu`. */
    method SaveMenu() returns (ok: bool)
      modifies store
      ensures store.files == Written(old(store.files), MenuFile, EncodeMenu(menuItems), ok)
    {
      ok := store.Save(MenuFile, EncodeMenu(menuItems));
    }

    /** `add_menu_item`: appends the item at the end, with no check that its
        identifier is new, then saves the menu. */
    method AddMenuItem(itemId: string, name: string, price: int, category: string) returns (ok: bool)
      modifies this, store
      ensures menuItems == old(menuItems) + [MenuItem(itemId, name, price, category)]
      ensures store.files == Written(old(store.files), MenuFile, EncodeMenu(menuItems), ok)
    {
      menuItems := menuItems + [MenuItem(itemId, name, price, category)];
      ok := SaveMenu();
    }

    /** `get_items_by_category`. */
    function GetItemsByCategory(category: string): seq<MenuItem>
      reads this
    {
      InCategory(menuItems, category)
    }

    /** `get_item_by_id`: a scan from the front that stops at the first item
        with that identifier. */
    method GetItemById(itemId: string) returns (r: Option<MenuItem>)
      ensures r == FindItem(menuItems, itemId)
      ensures r.Some? ==> r.value in menuItems && r.value.itemId == itemId
      ensures r.None? <==> forall m :: m in menuItems ==> m.itemId != itemId
    {
      var i := 0;
      while i < |menuItems|
        invariant 0 <= i <= |menuItems|
        invariant forall j :: 0 <= j < i ==> menuItems[j].itemId != itemId
      {
        if menuItems[i].itemId == itemId {
          FirstIndexUnique(menuItems, ItemKey, itemId, i);
          return Some(menuItems[i]);
        }
        i := i + 1;
      }
      return None;
    }
  }

  /** Adding an item whose identifier is already on the menu changes no
      lookup: the earlier item keeps shadowing the new one. */
  lemma AddDuplicateIsShadowed(items: seq<MenuItem>, m: MenuItem, itemId: string)
    requires FindItem(items, m.itemId).Some?
    ensures FindItem(items + [m], itemId) == FindItem(items, itemId)
  {
    FirstIndexUnique(items, ItemKey, m.itemId, FirstIndex(items, ItemKey, m.itemId).value);
    FindAppendShadowed(items, m, ItemKey, itemId);
  }

  /** Adding an item with a new identifier makes exactly that item the
      result of a lookup of its identifier. */
  lemma AddFreshIsFound(items: seq<MenuItem>, m: MenuItem)
    requires FindItem(items, m.itemId).None?
    ensures FindItem(items + [m], m.itemId) == Some(m)
  {
    FirstIndexAppend(items, m, ItemKey, m.itemId);
    assert (items + [m])[|items|] == m;
  }
}
