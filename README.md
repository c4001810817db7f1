# Ice-cream shop point of sale: a verified model

This project models the core of a small point-of-sale program for an ice-cream shop. The core has three managers, each holding a Python list of records that is scanned from the front. The whole list is rewritten to its JSON file when the menu or the ledger changes, and when an order is placed or its status is updated; creating an order, adding a line to it and computing its total save nothing:

- **Menu catalogue** (`menu.py`): `MenuItem` records and `MenuManager`. The manager looks an item up by identifier (the first match wins), lists one category in menu order, and appends new items with no duplicate check.
- **Customer ledger** (`customer.py`): `Customer` objects, each with an append-only history of order identifiers, and `CustomerManager`. The manager adds customers, finds the first customer with an identifier, and appends an order to that customer's history.
- **Order book** (`order.py`): `OrderItem` lines, `Order` objects and `OrderManager`.
  - An order is created "pending" with an identifier "ORD" plus four digits.
  - Lines are appended to it.
  - Its total is priced from the menu; unknown items count 0.
  - Placing an order records it in the customer's history and saves the book.
  - Its status can be set to any string.
  - The details view resolves the customer name ("Unknown" when absent) and keeps only the lines whose item is on the menu.

`file_manager.py` is replaced by an abstract data directory, `Store.FileStore`. It is a map from file name to JSON document:

- a missing file reads as an empty list;
- a write either succeeds or reports `false` and changes nothing.

The three managers share one directory.

Layout:

| file | module | contents |
|---|---|---|
| `results.dfy` | `Results` | `Option`, `Result` |
| `lookup.dfy` | `Lookup` | first-match lookup by key (`FirstIndex`, `Find`) shared by the three managers |
| `json.dfy` | `Json` | JSON values, `dict[key]` / `dict.get`, list codecs, Python iteration over a loaded document |
| `store.dfy` | `Store` | the data directory |
| `menu.dfy` | `Menu` | `MenuItem`, its codec, category filtering, `MenuManager` |
| `customer.dfy` | `Customers` | `CustomerState`, `Customer`, `CustomerManager` |
| `order.dfy` | `Orders` | `OrderItem`, `OrderState`, pricing, identifiers, `Order`, details, `OrderManager` |

The design is as follows:

- **Classes and values.**
  - Objects that the source updates in place are classes: `Order`, `Customer` and the three managers. An order returned by `create_order` is the same object that sits in the book.
  - Records that are never mutated are datatypes: `OrderItem` and `MenuItem`.
  - `OrderState` and `CustomerState` are the values that `to_dict` writes and `from_dict` reads.
- **Decoding errors.** A missing key is Python's `KeyError`: decoding gives `Err(MissingKey(..))`, and the manager's constructor (`Open`) fails.
- **Behaviour as the code has it.**
  - `update_customer_order_history` skips an unknown customer; nothing is created for it (customer.py:60-65).
  - A malformed entry in a data file makes loading fail, because `from_dict` runs outside the `try` of `load_from_file` (order.py:80-83, menu.py:37-40, customer.py:36-39).
  - Menu and customer identifiers are not checked for uniqueness (menu.py:47-51, customer.py:46-51).

## Model

| member | source | states |
|---|---|---|
| Lookup.FirstIndex | menu.py:57-62 | the position found is a match and nothing before it matches; no position means no element matches |
| Lookup.Find | customer.py:53-58 | a result exists exactly when some element has the key; the result is an element of the list with that key, at a position with no match before it |
| Lookup.FirstIndexUnique | order.py:114-119 | the first matching position is the one the front-to-back scan stops at |
| Lookup.FirstIndexAppend | menu.py:47-62 | appending never changes an existing first match; the new element is found only when nothing earlier has its key |
| Lookup.FindAppendShadowed | menu.py:47-62 | appending an element whose key is already present changes no lookup |
| Json.Elements | order.py:80-83 | iterating a loaded document: a list gives its elements, a number is an error, anything else that is accepted gives nothing |
| Json.EncodeAll | order.py:85-88 | a list comprehension of `to_dict` has one document per record |
| Json.EncodeAllAt | order.py:85-88 | the i-th document is the i-th record's `to_dict` |
| Json.DecodeAll | order.py:80-83 | the list reads back exactly when every entry does, with one record per entry, each that entry's `from_dict` |
| Json.DecodeEncodeAll | order.py:80-88 | a list written out and read back is the same list when each record round-trips |
| Store.ReadAfterWrite | file_manager.py:16-37 | after a successful save, loading that file gives what was saved and other files are untouched |
| Store.FileStore.constructor | file_manager.py:7-9 | a data directory with the given files |
| Store.FileStore.Load | file_manager.py:27-37 | a missing file loads as an empty list, an existing one as its document |
| Store.FileStore.Save | file_manager.py:16-25 | the file holds the document when the save reports success, and nothing changes when it reports failure |
| Menu.DecodeMenuItem | menu.py:19-26 | something other than a dictionary, or one without "item_id", is refused |
| Menu.MenuItemRoundTrip | menu.py:11-26 | `from_dict(to_dict(m))` is `m`: identifier, name, price and category |
| Menu.EncodeMenuItem | menu.py:11-17 | `to_dict`; its inverse is stated by MenuItemRoundTrip |
| Menu.MenuRoundTrip | menu.py:37-45 | saving the menu and loading it again gives the same items in order |
| Menu.EncodeMenu | menu.py:42-45 | the document `save_menu` writes; SaveMenu writes it and MenuRoundTrip reads it back |
| Menu.DecodeMenu | menu.py:37-40 | what `load_menu` reads; MenuManager.Open holds exactly its items and MenuRoundTrip inverts EncodeMenu |
| Menu.InCategory | menu.py:53-55 | an item is listed exactly when it is on the menu with that category; the listing is no longer than the menu |
| Menu.InCategoryAppend | menu.py:53-55 | the listing of a menu is the listing of its first part followed by that of the rest, so menu order is kept |
| Menu.InCategorySingle | menu.py:53-55 | one item is listed when its category matches and dropped otherwise |
| Menu.FindItem | menu.py:57-62 | the first item with an identifier; GetItemById is proved equal to it, and AddDuplicateIsShadowed and AddFreshIsFound state how adding an item changes it |
| Menu.MenuManager.GetItemsByCategory | menu.py:53-55 | the category listing of the current menu; InCategory and its lemmas state its properties |
| Menu.MenuManager.constructor | menu.py:31-35 | a manager over the given store and items |
| Menu.MenuManager.Open | menu.py:32-40 | construction succeeds exactly when `menu.json` reads back, and then holds exactly its items |
| Menu.MenuManager.SaveMenu | menu.py:42-45 | `menu.json` holds the encoded menu when the save succeeds |
| Menu.MenuManager.AddMenuItem | menu.py:47-51 | exactly one item is appended at the end, earlier items are unchanged, the menu is saved |
| Menu.MenuManager.GetItemById | menu.py:57-62 | the scan returns the first item with the identifier, or nothing exactly when no item has it |
| Menu.AddDuplicateIsShadowed | menu.py:47-62 | after adding an item whose identifier exists, every lookup returns what it returned before |
| Menu.AddFreshIsFound | menu.py:47-62 | after adding an item with a new identifier, looking up that identifier returns the new item |
| Customers.DecodeCustomer | customer.py:17-24 | something other than a dictionary is refused |
| Customers.CustomerRoundTrip | customer.py:10-24 | `from_dict(to_dict(c))` reproduces the identifier, the name and the history in order |
| Customers.EncodeCustomer | customer.py:10-15 | `to_dict`; its inverse is stated by CustomerRoundTrip |
| Customers.Customer.ToDict | customer.py:10-15 | `to_dict` of the customer's current state; CustomerRoundTrip reads it back and CustomerManager.CustomersDocAt shows the ledger document is built from it |
| Customers.MissingHistoryIsEmpty | customer.py:23 | any dictionary with a string identifier and name but no "order_history", whatever other keys it has, reads back as that customer with an empty history |
| Customers.Customer.constructor | customer.py:5-8 | a new customer has the given identifier and name and an empty history |
| Customers.Customer.FromDict | customer.py:17-24 | a new object exists exactly when the document decodes, and its state is the decoded record |
| Customers.Customer.AddOrderToHistory | customer.py:26-28 | exactly one identifier is appended at the end of the history |
| Customers.CustomerStates | customer.py:41-44 | one record per customer |
| Customers.CustomerStatesAt | customer.py:41-44 | the i-th record is the i-th customer's state |
| Customers.CustomersRoundTrip | customer.py:36-44 | saving the ledger and loading it again gives the same records |
| Customers.EncodeCustomers | customer.py:41-44 | the document `save_customers` writes; SaveCustomers writes it and CustomersRoundTrip reads it back |
| Customers.DecodeCustomers | customer.py:36-39 | what `load_customers` reads; CustomerManager.Open holds one object per decoded record and CustomersRoundTrip inverts EncodeCustomers |
| Customers.OrderRecorded | customer.py:60-65 | between two states, only the first customer with the identifier gained the order at the end of its history, and nothing was saved when there is none; UpdateCustomerOrderHistory and PlaceOrder ensure it |
| Customers.CustomerManager.constructor | customer.py:31-34 | a manager over the given store and customers |
| Customers.CustomerManager.Open | customer.py:31-39 | construction succeeds exactly when `customers.json` reads back; then there is one new and distinct customer object per entry, with that entry's record |
| Customers.CustomerManager.SaveCustomers | customer.py:41-44 | `customers.json` holds the encoded ledger when the save succeeds |
| Customers.CustomerManager.CustomersDocAt | customer.py:41-44 | the saved ledger document is a list with one entry per customer, the i-th being that customer's `to_dict` |
| Customers.CustomerManager.AddCustomer | customer.py:46-51 | exactly one new customer with an empty history is appended, with no duplicate check, and the ledger is saved |
| Customers.CustomerManager.FindCustomerById | customer.py:53-58 | the scan returns the first customer with the identifier, or nothing exactly when no customer has it |
| Customers.CustomerManager.UpdateCustomerOrderHistory | customer.py:60-65 | only the first matching customer gains the order at the end of its history; for an unknown identifier no customer changes and nothing is saved |
| Orders.DecodeOrderItem | order.py:17-22 | something other than a dictionary is refused |
| Orders.OrderItemRoundTrip | order.py:11-22 | `from_dict(to_dict(line))` is `line` |
| Orders.MissingQuantityIsOne | order.py:21 | any line item dictionary with a string item identifier but no "quantity", whatever other keys it has, reads back with quantity 1 |
| Orders.DecodeOrder | order.py:43-53 | something other than a dictionary is refused |
| Orders.OrderRoundTrip | order.py:33-53 | `from_dict(to_dict(o))` reproduces the identifier, customer, date, lines in order, status and total |
| Orders.EncodeOrderItem | order.py:11-15 | `to_dict` of a line; its inverse is stated by OrderItemRoundTrip |
| Orders.EncodeOrder | order.py:33-41 | `to_dict` of an order; its inverse is stated by OrderRoundTrip |
| Orders.Order.ToDict | order.py:33-41 | `to_dict` of the order's current state; OrderRoundTrip reads it back and OrderManager.OrdersDocAt shows the book document is built from it |
| Orders.OrdersRoundTrip | order.py:80-88 | saving the order book and loading it again gives the same records |
| Orders.EncodeOrders | order.py:85-88 | the document `save_orders` writes; SaveOrders writes it and OrdersRoundTrip reads it back |
| Orders.DecodeOrders | order.py:80-83 | what `load_orders` reads; OrderManager.Open holds one object per decoded record and OrdersRoundTrip inverts EncodeOrders |
| Orders.LineAmount | order.py:63-65 | what one line adds: first-match price times quantity, 0 for an unknown item; TotalIgnoresUnknown and TotalIgnoresShadowedItem state this |
| Orders.Total | order.py:59-67 | the reference total of `calculate_total`; CalculateTotal's loop is proved to compute it, and TotalAppend, TotalIgnoresUnknown, TotalOfUnknownIsZero, TotalIgnoresShadowedItem and DetailLinesSumToTotal state its properties |
| Orders.Resolved | order.py:62-65 | a line is kept exactly when the menu knows its item |
| Orders.TotalAppend | order.py:59-67 | the total of two runs of lines is the sum of their totals |
| Orders.TotalIgnoresUnknown | order.py:62-65 | the total is the total of the known lines alone: unknown items add nothing and raise nothing |
| Orders.TotalOfUnknownIsZero | order.py:62-65 | an order made only of unknown items totals 0 |
| Orders.TotalIgnoresShadowedItem | order.py:63 | adding a menu item with an existing identifier changes no order's total |
| Orders.SampleTotal | order.py:59-67 | two F01 at 200 and one unknown ZZZ come to 400 |
| Orders.GenerateOrderId | order.py:90-92 | "ORD" followed by four decimal digits, the first non-zero, whose value is the drawn number |
| Orders.OrderIdsDifferWithDraws | order.py:90-92 | two identifiers are equal exactly when the draws are equal; nothing else prevents duplicates |
| Orders.Order.constructor | order.py:25-31 | a new order has the given identifier, customer and date, no lines, status "pending" and total 0 |
| Orders.Order.FromDict | order.py:43-53 | a new object exists exactly when the document decodes, and its state is the decoded record |
| Orders.Order.AddItem | order.py:55-57 | exactly one line is appended at the end (quantity 1 by default); nothing else in the order changes |
| Orders.Order.CalculateTotal | order.py:59-67 | the result is the menu-priced total of the lines, and it is stored as the order's total; nothing else changes |
| Orders.CalculateTotalTwice | order.py:59-67 | computing the total twice gives the same total and leaves lines and status alone |
| Orders.OrderStates | order.py:85-88 | one record per order |
| Orders.OrderStatesAt | order.py:85-88 | the i-th record is the i-th order's state |
| Orders.DetailLinesAreResolved | order.py:144-147 | one detail line per known line item, in order; line k shows the name of the first menu item with that line's identifier, the line's quantity, and price times quantity |
| Orders.DetailLinesSumToTotal | order.py:144-147 | the detail amounts add up to the total that `calculate_total` computes |
| Orders.DetailLines | order.py:144-147 | the printed lines, unknown items omitted; DetailLinesAreResolved and DetailLinesSumToTotal state what they are, and DisplayOrderDetails's loop is proved to build them |
| Orders.CustomerLabel | order.py:136-139 | the first matching customer's name, or "Unknown"; DisplayOrderDetails is proved to show it |
| Orders.OrderManager.constructor | order.py:73-78 | a manager over the given menu, ledger, store and orders, all sharing one data directory |
| Orders.OrderManager.Open | order.py:73-83 | construction succeeds exactly when `orders.json` reads back; then there is one new and distinct order object per entry, with that entry's record, and the managers share the data directory |
| Orders.OrderManager.SaveOrders | order.py:85-88 | `orders.json` holds the encoded book when the save succeeds |
| Orders.OrderManager.OrdersDocAt | order.py:85-88 | the saved book document is a list with one entry per order, the i-th being that order's `to_dict` |
| Orders.OrderManager.CreateOrder | order.py:94-99 | exactly the returned new order is appended; it is pending, empty and for the given customer; nothing is saved |
| Orders.OrderManager.PlaceOrder | order.py:101-112 | the total is set from the menu; only the first matching customer gains the order identifier; the ledger and then the book are saved; the result is the book save's; nothing is rolled back |
| Orders.OrderManager.GetOrderById | order.py:114-119 | the scan returns the first order with the identifier, or nothing exactly when no order has it |
| Orders.OrderManager.UpdateOrderStatus | order.py:121-127 | only the first match gets the new status, whatever string it is, and the book is saved; an unknown identifier gives false and changes nothing |
| Orders.OrderManager.DisplayOrderDetails | order.py:129-147 | nothing exactly for an unknown order; otherwise the order's fields, the customer's name or "Unknown", and one line per known item |
| Orders.PlaceSampleOrder | order.py:94-112 | placing two F01 at 200 plus an unknown item for the one customer gives total 400, and that customer's history gains exactly the new identifier |

## Left out

- Prices and totals are integers, not Python floats. The `:.2f` formatting of amounts is not modelled.
- Dates and order numbers are parameters:
  - `datetime.now()` becomes the `orderDate` parameter of `Order.constructor` and `OrderManager.CreateOrder`.
  - `random.randint(1000, 9999)` becomes the number `n` that the caller passes to `GenerateOrderId` and `CreateOrder`.
- Reading a data file is modelled as returning a JSON value. Parse errors and other failures that `load_from_file` turns into an empty list are not modelled. The model only has missing files, which read as an empty list.
- Orders.DecodeOrder, Orders.DecodeOrderItem, Menu.DecodeMenuItem, Customers.DecodeCustomer: decoding is typed. A value of the wrong JSON kind is refused with `WrongType`. Python would store that value in the object unchanged; for example, a non-list `order_history` would be kept as is.
- JSON booleans, `null` and floating-point numbers are not part of the JSON value type.
- Store.FileStore.Save: a failed save is assumed to leave the file as it was. Python may already have truncated it.
- The data directory is not created (`_ensure_data_directory`). The three `FileManager` objects are one shared `FileStore`.
- `append_to_file` is not used by the core and is not modelled.
- `display_order_details` is modelled only as the value it shows. Its `print` calls and the "Order not found!" message are not modelled. `display_menu`, `__str__` and `main.py` (the interactive loop) are not part of this model.
- Menu.MenuManager.GetItemsByCategory has no contract of its own. It returns `InCategory` of the menu, and that function's contract and lemmas state the property.
- Customers.CustomerManager.AddCustomer and Orders.OrderManager.PlaceOrder report the ledger save through a ghost result only. The source ignores that result.
