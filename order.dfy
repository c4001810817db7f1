/** The order book: orders with their line items, totals priced from the
    menu, generated identifiers and a free-form status, kept as a list and
    rewritten whole to `orders.json` when an order is placed or updated. */
module Orders {
  import opened Results
  import opened Json
  import opened Lookup
  import opened Store
  import opened Menu
  import opened Customers

  const OrdersFile := "orders.json"

  /** One line of an order: which menu item, and how many. Neither is
      checked when the line is added. */
  datatype OrderItem = OrderItem(itemId: string, quantity: int)

  /** `OrderItem.to_dict`. */
  function EncodeOrderItem(line: OrderItem): Json {
    JObj(map["item_id" := JStr(line.itemId), "quantity" := JInt(line.quantity)])
  }

  /** `OrderItem.from_dict`: the item identifier is required, a missing
      quantity means 1. */
  function DecodeOrderItem(doc: Json): (r: Result<OrderItem, DecodeError>)
    ensures !doc.JObj? ==> r == Err(NotAnObject)
  {
    var itemId :- StrField(doc, "item_id");
    var quantity :- FieldOr(doc, "quantity", JInt(1));
    var q :- AsInt(quantity, "quantity");
    Ok(OrderItem(itemId, q))
  }

  /** `OrderItem.from_dict(i.to_dict())` is `i`. */
  lemma OrderItemRoundTrip(line: OrderItem)
    ensures DecodeOrderItem(EncodeOrderItem(line)) == Ok(line)
  {
  }

  /** Any line item dictionary with a string item identifier but no
      "quantity" reads back with quantity 1, whatever other keys it has. */
  lemma MissingQuantityIsOne(doc: Json)
    requires doc.JObj? && "quantity" !in doc.fields
    requires "item_id" in doc.fields && doc.fields["item_id"].JStr?
    ensures DecodeOrderItem(doc) == Ok(OrderItem(doc.fields["item_id"].str, 1))
  {
  }

  /** The value of an order record, as written to and read from a file. */
  datatype OrderState = OrderState(
    orderId: string,
    customerId: string,
    orderDate: string,
    items: seq<OrderItem>,
    status: string,
    totalAmount: int)

  /** `Order.to_dict`. */
  function EncodeOrder(o: OrderState): Json {
    JObj(map[
      "order_id" := JStr(o.orderId),
      "customer_id" := JStr(o.customerId),
      "order_date" := JStr(o.orderDate),
      "items" := JArr(EncodeAll(o.items, EncodeOrderItem)),
      "status" := JStr(o.status),
      "total_amount" := JInt(o.totalAmount)])
  }

  /** `Order.from_dict`: all six keys are required; the line items are read
      one by one with `OrderItem.from_dict`. */
  function DecodeOrder(doc: Json): (r: Result<OrderState, DecodeError>)
    ensures !doc.JObj? ==> r == Err(NotAnObject)
  {
    var orderId :- StrField(doc, "order_id");
    var customerId :- StrField(doc, "customer_id");
    var orderDate :- StrField(doc, "order_date");
    var itemsDoc :- Field(doc, "items");
    var itemDocs :- Elements(itemsDoc);
    var items :- DecodeAll(itemDocs, DecodeOrderItem);
    var status :- StrField(doc, "status");
    var totalAmount :- IntField(doc, "total_amount");
    Ok(OrderState(orderId, customerId, orderDate, items, status, totalAmount))
  }

  /** `Order.from_dict(o.to_dict())` reproduces the identifier, the customer,
      the date, the line items in order, the status and the total. */
  lemma OrderRoundTrip(o: OrderState)
    ensures DecodeOrder(EncodeOrder(o)) == Ok(o)
  {
    forall i | 0 <= i < |o.items|
      ensures DecodeOrderItem(EncodeOrderItem(o.items[i])) == Ok(o.items[i])
    {
      OrderItemRoundTrip(o.items[i]);
    }
    DecodeEncodeAll(o.items, EncodeOrderItem, DecodeOrderItem);
  }

  /** The whole of `orders.json` for a list of order records. */
  function EncodeOrders(os: seq<OrderState>): Json {
    JArr(EncodeAll(os, EncodeOrder))
  }

  /** `load_orders`: every entry of the document is read with `from_dict`. */
  function DecodeOrders(doc: Json): Result<seq<OrderState>, DecodeError> {
    var elems :- Elements(doc);
    DecodeAll(elems, DecodeOrder)
  }

  /** Saving the order book and loading it again gives the same records. */
  lemma OrdersRoundTrip(os: seq<OrderState>)
    ensures DecodeOrders(EncodeOrders(os)) == Ok(os)
  {
    forall i | 0 <= i < |os|
      ensures DecodeOrder(EncodeOrder(os[i])) == Ok(os[i])
    {
      OrderRoundTrip(os[i]);
    }
    DecodeEncodeAll(os, EncodeOrder, DecodeOrder);
  }

  // ---------------------------------------------------------------------
  // Pricing

  /** What one line adds to the total: unit price times quantity when the
      menu knows the item (the first item with that identifier), nothing
      otherwise. */
  function LineAmount(line: OrderItem, menu: seq<MenuItem>): int {
    match FindItem(menu, line.itemId)
    case Some(m) => m.price * line.quantity
    case None => 0
  }

  /** The total of an order's lines, accumulated front to back. */
  function Total(items: seq<OrderItem>, menu: seq<MenuItem>): int {
    if items == [] then 0
    else Total(items[..|items| - 1], menu) + LineAmount(items[|items| - 1], menu)
  }

  /** The lines of an order whose items the menu knows, in order. */
  function Resolved(items: seq<OrderItem>, menu: seq<MenuItem>): (r: seq<OrderItem>)
    ensures forall line :: line in r <==> line in items && FindItem(menu, line.itemId).Some?
  {
    if items == [] then []
    else
      var rest := Resolved(items[..|items| - 1], menu);
      var last := items[|items| - 1];
      assert items == items[..|items| - 1] + [last];
      if FindItem(menu, last.itemId).Some? then rest + [last] else rest
  }

  /** The total of two runs of lines is the sum of their totals. */
  lemma {:induction false} TotalAppend(a: seq<OrderItem>, b: seq<OrderItem>, menu: seq<MenuItem>)
    ensures Total(a + b, menu) == Total(a, menu) + Total(b, menu)
  {
    if b == [] {
      assert a + b == a;
    } else {
      var b' := b[..|b| - 1];
      assert (a + b)[..|a + b| - 1] == a + b';
      TotalAppend(a, b', menu);
    }
  }

  /** Lines whose item the menu does not know contribute nothing and raise
      no error: the total is the total of the known lines alone. */
  lemma {:induction false} TotalIgnoresUnknown(items: seq<OrderItem>, menu: seq<MenuItem>)
    ensures Total(items, menu) == Total(Resolved(items, menu), menu)
  {
    if items != [] {
      var init := items[..|items| - 1];
      var last := items[|items| - 1];
      TotalIgnoresUnknown(init, menu);
      if FindItem(menu, last.itemId).Some? {
        TotalAppend(Resolved(init, menu), [last], menu);
        assert [last][..0] == [];
      }
    }
  }

  /** An order made only of unknown items totals 0. */
  lemma {:induction false} TotalOfUnknownIsZero(items: seq<OrderItem>, menu: seq<MenuItem>)
    requires forall line :: line in items ==> FindItem(menu, line.itemId).None?
    ensures Total(items, menu) == 0
  {
    if items != [] {
      assert forall line :: line in items[..|items| - 1] ==> line in items;
      TotalOfUnknownIsZero(items[..|items| - 1], menu);
    }
  }

  /** Adding a menu item whose identifier is already on the menu changes the
      total of no order: prices come from the first item with an identifier. */
  lemma {:induction false} TotalIgnoresShadowedItem(items: seq<OrderItem>, menu: seq<MenuItem>, m: MenuItem)
    requires FindItem(menu, m.itemId).Some?
    ensures Total(items, menu + [m]) == Total(items, menu)
  {
    if items != [] {
      TotalIgnoresShadowedItem(items[..|items| - 1], menu, m);
      AddDuplicateIsShadowed(menu, m, items[|items| - 1].itemId);
    }
  }

  /** Two Vanilla scoops (F01 at 200) and one line for an item that is not
      on the menu come to 400. */
  lemma SampleTotal()
    ensures Total([OrderItem("F01", 2), OrderItem("ZZZ", 1)],
                  [MenuItem("F01", "Vanilla", 200, "flavor")]) == 400
  {
  }

  // ---------------------------------------------------------------------
  // Order identifiers

  function DigitChar(d: int): (c: char)
    requires 0 <= d <= 9
    ensures '0' <= c <= '9' && c as int - '0' as int == d
  {
    ('0' as int + d) as char
  }

  /** The number a string of decimal digits stands for. */
  function DecimalValue(s: string): int {
    if s == [] then 0
    else DecimalValue(s[..|s| - 1]) * 10 + (s[|s| - 1] as int - '0' as int)
  }

  /** `generate_order_id`: "ORD" followed by the four decimal digits of `n`,
      a number the caller draws from 1000..9999. No check is made against
      the identifiers already in use. */
  function GenerateOrderId(n: int): (id: string)
    requires 1000 <= n <= 9999
    ensures |id| == 7 && id[..3] == "ORD"
    ensures forall k :: 3 <= k < 7 ==> '0' <= id[k] <= '9'
    ensures id[3] != '0'
    ensures DecimalValue(id[3..]) == n
  {
    var digits := [DigitChar(n / 1000), DigitChar(n / 100 % 10), DigitChar(n / 10 % 10), DigitChar(n % 10)];
    assert [digits[0]][..0] == [];
    assert DecimalValue([digits[0]]) == n / 1000;
    assert [digits[0], digits[1]][..1] == [digits[0]];
    assert DecimalValue([digits[0], digits[1]]) == n / 100;
    assert [digits[0], digits[1], digits[2]][..2] == [digits[0], digits[1]];
    assert DecimalValue([digits[0], digits[1], digits[2]]) == n / 10;
    assert digits[..3] == [digits[0], digits[1], digits[2]];
    assert DecimalValue(digits) == n;
    var id := "ORD" + digits;
    assert id[3..] == digits;
    id
  }

  /** Different draws give different identifiers, and the same draw gives
      the same one: the only protection against duplicate identifiers is
      the range of the draw. */
  lemma OrderIdsDifferWithDraws(a: int, b: int)
    requires 1000 <= a <= 9999 && 1000 <= b <= 9999
    ensures GenerateOrderId(a) == GenerateOrderId(b) <==> a == b
  {
  }

  // ---------------------------------------------------------------------
  // Orders

  class Order {
    const orderId: string
    const customerId: string
    const orderDate: string
    var items: seq<OrderItem>
    var status: string
    var totalAmount: int

    /** `Order(order_id, customer_id)`, stamped with `orderDate`: no lines,
        status "pending", total 0. */
    constructor(orderId: string, customerId: string, orderDate: string)
      ensures this.orderId == orderId && this.customerId == customerId && this.orderDate == orderDate
      ensures items == [] && status == "pending" && totalAmount == 0
    {
      this.orderId := orderId;
      this.customerId := customerId;
      this.orderDate := orderDate;
      items := [];
      status := "pending";
      totalAmount := 0;
    }

    function State(): OrderState
      reads this
    {
      OrderState(orderId, customerId, orderDate, items, status, totalAmount)
    }

    /** `Order.to_dict`. */
    function ToDict(): Json
      reads this
    {
      EncodeOrder(State())
    }

    /** `Order.from_dict`: a new order object with the document's fields, or
        the reason the document cannot be read. */
    static method FromDict(doc: Json) returns (r: Result<Order, DecodeError>)
      ensures r.Ok? <==> DecodeOrder(doc).Ok?
      ensures r.Ok? ==> fresh(r.value) && r.value.State() == DecodeOrder(doc).value
    {
      var s := DecodeOrder(doc);
      if s.Err? {
        return Err(s.error);
      }
      var o := new Order(s.value.orderId, s.value.customerId, s.value.orderDate);
      o.items := s.value.items;
      o.status := s.value.status;
      o.totalAmount := s.value.totalAmount;
      r := Ok(o);
    }

    /** `add_item`: appends one line at the end; the quantity defaults to 1
        and the total is not touched. */
    method AddItem(itemId: string, quantity: int := 1)
      modifies this`items
      ensures items == old(items) + [OrderItem(itemId, quantity)]
    {
      items := items + [OrderItem(itemId, quantity)];
    }

    /** `calculate_total`: looks every line up on the menu, adds price times
        quantity for the known ones, stores the sum and returns it. */
    method CalculateTotal(menu: MenuManager) returns (total: int)
      modifies this`totalAmount
      ensures total == Total(items, menu.menuItems)
      ensures totalAmount == total
    {
      total := 0;
      var i := 0;
      while i < |items|
        invariant 0 <= i <= |items|
        invariant total == Total(items[..i], menu.menuItems)
      {
        var found := menu.GetItemById(items[i].itemId);
        if found.Some? {
          total := total + found.value.price * items[i].quantity;
        }
        assert items[..i + 1][..i] == items[..i];
        i := i + 1;
      }
      assert items[..i] == items;
      totalAmount := total;
    }
  }

  /** Computing the total twice against the same menu gives the same total
      and leaves the lines alone. */
  method CalculateTotalTwice(order: Order, menu: MenuManager) returns (first: int, second: int)
    modifies order
    ensures first == second == order.totalAmount
    ensures order.items == old(order.items) && order.status == old(order.status)
  {
    first := order.CalculateTotal(menu);
    second := order.CalculateTotal(menu);
  }

  function OrderKey(o: Order): string {
    o.orderId
  }

  /** The records of a list of orders, in order. */
  function OrderStates(os: seq<Order>): (r: seq<OrderState>)
    reads os
    ensures |r| == |os|
  {
    if os == [] then [] else [os[0].State()] + OrderStates(os[1..])
  }

  lemma {:induction false} OrderStatesAt(os: seq<Order>, i: nat)
    requires i < |os|
    ensures OrderStates(os)[i] == os[i].State()
  {
    if i > 0 {
      OrderStatesAt(os[1..], i - 1);
    }
  }

  // ---------------------------------------------------------------------
  // Order details

  /** One printed line of an order: the item's name, the quantity and
      price times quantity. */
  datatype DetailLine = DetailLine(name: string, quantity: int, amount: int)

  /** What `display_order_details` shows for an order. */
  datatype OrderDetails = OrderDetails(
    orderId: string,
    customerName: string,
    orderDate: string,
    status: string,
    totalAmount: int,
    lines: seq<DetailLine>)

  /** The printed lines: one per line item the menu knows, in order; the
      others are left out. */
  function DetailLines(items: seq<OrderItem>, menu: seq<MenuItem>): seq<DetailLine> {
    if items == [] then []
    else
      var rest := DetailLines(items[..|items| - 1], menu);
      var last := items[|items| - 1];
      match FindItem(menu, last.itemId)
      case Some(m) => rest + [DetailLine(m.name, last.quantity, m.price * last.quantity)]
      case None => rest
  }

  function SumAmounts(lines: seq<DetailLine>): int {
    if lines == [] then 0 else SumAmounts(lines[..|lines| - 1]) + lines[|lines| - 1].amount
  }

  /** The printed lines are exactly the known line items, in order: line k
      shows the name of the first menu item with the k-th known line's item
      identifier, that line's quantity, and price times quantity. */
  lemma {:induction false} DetailLinesAreResolved(items: seq<OrderItem>, menu: seq<MenuItem>)
    ensures |DetailLines(items, menu)| == |Resolved(items, menu)|
    ensures forall k :: 0 <= k < |Resolved(items, menu)| ==>
      var line := Resolved(items, menu)[k];
      FindItem(menu, line.itemId).Some? &&
      var m := FindItem(menu, line.itemId).value;
      DetailLines(items, menu)[k] == DetailLine(m.name, line.quantity, m.price * line.quantity)
  {
    if items != [] {
      DetailLinesAreResolved(items[..|items| - 1], menu);
    }
  }

  /** The printed amounts add up to the total `calculate_total` computes. */
  lemma {:induction false} DetailLinesSumToTotal(items: seq<OrderItem>, menu: seq<MenuItem>)
    ensures SumAmounts(DetailLines(items, menu)) == Total(items, menu)
  {
    if items != [] {
      var rest := DetailLines(items[..|items| - 1], menu);
      DetailLinesSumToTotal(items[..|items| - 1], menu);
      match FindItem(menu, items[|items| - 1].itemId)
      case Some(m) =>
        var lines := DetailLines(items, menu);
        assert lines[..|lines| - 1] == rest;
      case None =>
    }
  }

  /** The customer name shown for an order: the first customer with the
      order's customer identifier, or "Unknown" when there is none. */
  function CustomerLabel(customers: seq<Customer>, customerId: string): string {
    match Find(customers, CustomerKey, customerId)
    case Some(c) => c.name
    case None => "Unknown"
  }

  // ---------------------------------------------------------------------
  // The order book

  class OrderManager {
    const menu: MenuManager
    const customerManager: CustomerManager
    const store: FileStore
    var orders: seq<Order>

    /** The three managers share one data directory. */
    ghost predicate Valid() {
      menu.store == store && customerManager.store == store
    }

    function Records(): seq<OrderState>
      reads this, orders
    {
      OrderStates(orders)
    }

    /** A manager over already loaded orders. */
    constructor(menu: MenuManager, customerManager: CustomerManager, store: FileStore, orders: seq<Order>)
      requires menu.store == store && customerManager.store == store
      ensures Valid()
      ensures this.menu == menu && this.customerManager == customerManager && this.store == store
      ensures this.orders == orders
    {
      this.menu := menu;
      this.customerManager := customerManager;
      this.store := store;
      this.orders := orders;
    }

    /** `OrderManager(menu_manager, customer_manager)`: loads `orders.json`
        (no orders when the file does not exist), one new object per entry;
        an entry that cannot be read makes construction fail. */
    static method Open(menu: MenuManager, customerManager: CustomerManager, store: FileStore)
      returns (r: Result<OrderManager, DecodeError>)
      requires menu.store == store && customerManager.store == store
      ensures r.Ok? <==> DecodeOrders(store.Load(OrdersFile)).Ok?
      ensures r.Ok? ==> fresh(r.value) && r.value.Valid() && Distinct(r.value.orders)
      ensures r.Ok? ==> r.value.menu == menu && r.value.customerManager == customerManager && r.value.store == store
      ensures r.Ok? ==> r.value.Records() == DecodeOrders(store.Load(OrdersFile)).value
      ensures r.Ok? ==> forall o :: o in r.value.orders ==> fresh(o)
    {
      var doc := store.Load(OrdersFile);
      var elems := Elements(doc);
      if elems.Err? {
        return Err(elems.error);
      }
      var docs := elems.value;
      var os: seq<Order> := [];
      var i := 0;
      while i < |docs|
        invariant 0 <= i <= |docs| && |os| == i
        invariant Distinct(os)
        invariant forall o :: o in os ==> fresh(o)
        invariant forall j :: 0 <= j < i ==> DecodeOrder(docs[j]).Ok?
        invariant forall j :: 0 <= j < i ==> os[j].State() == DecodeOrder(docs[j]).value
      {
        var o := Order.FromDict(docs[i]);
        if o.Err? {
          return Err(o.error);
        }
        os := os + [o.value];
        i := i + 1;
      }
      var m := new OrderManager(menu, customerManager, store, os);
      r := Ok(m);
      forall j | 0 <= j < |os|
        ensures OrderStates(os)[j] == DecodeOrders(doc).value[j]
      {
        OrderStatesAt(os, j);
      }
      assert OrderStates(os) == DecodeOrders(doc).value;
    }

    /** The whole of `orders.json` for the current order book. */
    function OrdersDoc(): Json
      reads this, orders
    {
      EncodeOrders(Records())
    }

    /** `save_orders` writes a list holding each order's own `to_dict`, in
        book order. */
    lemma OrdersDocAt(i: nat)
      requires i < |orders|
      ensures OrdersDoc().JArr? && |OrdersDoc().elems| == |orders|
      ensures OrdersDoc().elems[i] == orders[i].ToDict()
    {
      OrderStatesAt(orders, i);
      EncodeAllAt(Records(), EncodeOrder, i);
    }

    /** `save_orders`. */
    method SaveOrders() returns (ok: bool)
      modifies store
      ensures store.files == Written(old(store.files), OrdersFile, OrdersDoc(), ok)
    {
      ok := store.Save(OrdersFile, OrdersDoc());
    }

    /** `create_order`: a new pending order with identifier "ORD" + `n`,
        appended at the end of the book. Nothing is saved, and nothing
        checks that the identifier is not already in use. */
    method CreateOrder(customerId: string, n: int, orderDate: string) returns (order: Order)
      requires 1000 <= n <= 9999
      modifies this
      ensures fresh(order)
      ensures orders == old(orders) + [order]
      ensures order.orderId == GenerateOrderId(n) && order.customerId == customerId
      ensures order.orderDate == orderDate
      ensures order.items == [] && order.status == "pending" && order.totalAmount == 0
      ensures store.files == old(store.files)
    {
      var orderId := GenerateOrderId(n);
      order := new Order(orderId, customerId, orderDate);
      orders := orders + [order];
    }

    /** `place_order`: computes the order's total from the menu, records the
        order in the history of the first customer with its customer
        identifier (saving the ledger; an unknown customer is skipped), then
        saves the order book and reports whether that save worked. A failed
        save undoes nothing. */
    method PlaceOrder(order: Order) returns (ok: bool, ghost customerSaved: bool)
      requires Valid()
      modifies order, customerManager.customers, store
      ensures orders == old(orders) && customerManager.customers == old(customerManager.customers)
      ensures order.items == old(order.items) && order.status == old(order.status)
      ensures order.totalAmount == Total(order.items, menu.menuItems)
      ensures OrderRecorded(customerManager.customers, order.customerId, order.orderId, customerSaved)
      ensures store.files ==
        Written(Written(old(store.files), CustomersFile, customerManager.CustomersDoc(), customerSaved),
                OrdersFile, OrdersDoc(), ok)
    {
      var _ := order.CalculateTotal(menu);
      label Totalled:
      customerSaved := customerManager.UpdateCustomerOrderHistory(order.customerId, order.orderId);
      assert OrderRecorded@Totalled(customerManager.customers, order.customerId, order.orderId, customerSaved);
      ghost var ledgerDoc := customerManager.CustomersDoc();
      ok := SaveOrders();
      assert customerManager.CustomersDoc() == ledgerDoc;
    }

    /** `get_order_by_id`: a scan from the front that stops at the first
        order with that identifier. */
    method GetOrderById(orderId: string) returns (r: Option<Order>)
      ensures r == Find(orders, OrderKey, orderId)
      ensures r.Some? ==> r.value in orders && r.value.orderId == orderId
      ensures r.None? <==> forall o :: o in orders ==> o.orderId != orderId
    {
      var i := 0;
      while i < |orders|
        invariant 0 <= i <= |orders|
        invariant forall j :: 0 <= j < i ==> orders[j].orderId != orderId
      {
        if orders[i].orderId == orderId {
          FirstIndexUnique(orders, OrderKey, orderId, i);
          return Some(orders[i]);
        }
        i := i + 1;
      }
      return None;
    }

    /** `update_order_status`: the first order with that identifier gets the
        new status, whatever string it is, and the book is saved; for an
        unknown identifier the result is false and nothing changes. */
    method UpdateOrderStatus(orderId: string, newStatus: string) returns (ok: bool)
      modifies orders, store
      ensures orders == old(orders)
      ensures forall o :: o in orders && Some(o) != Find(orders, OrderKey, orderId) ==>
        o.State() == old(o.State())
      ensures Find(orders, OrderKey, orderId).Some? ==>
        var o := Find(orders, OrderKey, orderId).value;
        && o.status == newStatus
        && o.items == old(o.items)
        && o.totalAmount == old(o.totalAmount)
        && store.files == Written(old(store.files), OrdersFile, OrdersDoc(), ok)
      ensures Find(orders, OrderKey, orderId).None? ==> !ok && store.files == old(store.files)
    {
      var found := GetOrderById(orderId);
      if found.None? {
        return false;
      }
      found.value.status := newStatus;
      ok := SaveOrders();
    }

    /** The resolution rules of `display_order_details`: nothing for an
        unknown order; otherwise the order's stored fields, its customer's
        name or "Unknown", and one line per line item the menu knows. */
    method DisplayOrderDetails(orderId: string) returns (r: Option<OrderDetails>)
      ensures r.None? <==> forall o :: o in orders ==> o.orderId != orderId
      ensures r.Some? ==>
        var o := Find(orders, OrderKey, orderId).value;
        r.value == OrderDetails(o.orderId, CustomerLabel(customerManager.customers, o.customerId),
                                o.orderDate, o.status, o.totalAmount, DetailLines(o.items, menu.menuItems))
    {
      var found := GetOrderById(orderId);
      if found.None? {
        return None;
      }
      var o := found.value;
      var customer := customerManager.FindCustomerById(o.customerId);
      var customerName := if customer.Some? then customer.value.name else "Unknown";
      var lines: seq<DetailLine> := [];
      var i := 0;
      while i < |o.items|
        invariant 0 <= i <= |o.items|
        invariant lines == DetailLines(o.items[..i], menu.menuItems)
      {
        var line := o.items[i];
        var item := menu.GetItemById(line.itemId);
        if item.Some? {
          lines := lines + [DetailLine(item.value.name, line.quantity, item.value.price * line.quantity)];
        }
        assert o.items[..i + 1][..i] == o.items[..i];
        i := i + 1;
      }
      assert o.items[..i] == o.items;
      r := Some(OrderDetails(o.orderId, customerName, o.orderDate, o.status, o.totalAmount, lines));
    }
  }

  /** Placing an order for two F01 and one unknown item, in a shop whose
      menu holds only F01 (Vanilla, 200) and whose ledger holds only the
      ordering customer: the total is 400 and the customer's history gains
      exactly the new order's identifier. */
  method PlaceSampleOrder(book: OrderManager, customer: Customer) returns (order: Order, ok: bool)
    requires book.Valid()
    requires book.menu.menuItems == [MenuItem("F01", "Vanilla", 200, "flavor")]
    requires book.customerManager.customers == [customer] && customer.customerId == "C01"
    modifies book, customer, book.store
    ensures order.totalAmount == 400
    ensures customer.orderHistory == old(customer.orderHistory) + [order.orderId]
  {
    order := book.CreateOrder("C01", 1234, "2024-05-01 12:00:00");
    order.AddItem("F01", 2);
    order.AddItem("ZZZ");
    assert order.items == [OrderItem("F01", 2), OrderItem("ZZZ", 1)];
    assert Find(book.customerManager.customers, CustomerKey, "C01") == Some(customer) by {
      FirstIndexUnique(book.customerManager.customers, CustomerKey, "C01", 0);
    }
    ghost var saved;
    ok, saved := book.PlaceOrder(order);
    SampleTotal();
  }
}
