/** The customer ledger: customers with the identifiers of their orders,
    kept as a list and rewritten whole to `customers.json` on change. */
module Customers {
  import opened Results
  import opened Json
  import opened Lookup
  import opened Store

  const CustomersFile := "customers.json"

  /** The value of a customer record, as written to and read from a file. */
  datatype CustomerState = CustomerState(customerId: string, name: string, orderHistory: seq<string>)

  /** `Customer.to_dict`. */
  function EncodeCustomer(c: CustomerState): Json {
    JObj(map[
      "customer_id" := JStr(c.customerId),
      "name" := JStr(c.name),
      "order_history" := JArr(EncodeAll(c.orderHistory, s => JStr(s)))])
  }

  /** `Customer.from_dict`: the identifier and name are required, the order
      history defaults to empty when the key is absent. */
  function DecodeCustomer(doc: Json): (r: Result<CustomerState, DecodeError>)
    ensures !doc.JObj? ==> r == Err(NotAnObject)
  {
    var customerId :- StrField(doc, "customer_id");
    var name :- StrField(doc, "name");
    var history :- FieldOr(doc, "order_history", JArr([]));
    if !history.JArr? then Err(WrongType("order_history"))
    else
      var ids :- DecodeAll(history.elems, v => AsStr(v, "order_history"));
      Ok(CustomerState(customerId, name, ids))
  }

  /** `Customer.from_dict(c.to_dict())` reproduces the identifier, the name
      and the history in order. */
  lemma CustomerRoundTrip(c: CustomerState)
    ensures DecodeCustomer(EncodeCustomer(c)) == Ok(c)
  {
    DecodeEncodeAll(c.orderHistory, s => JStr(s), v => AsStr(v, "order_history"));
  }

  /** Any dictionary with a string identifier and name but no
      "order_history" reads back as that customer with no orders, whatever
      other keys it has. */
  lemma MissingHistoryIsEmpty(doc: Json)
    requires doc.JObj? && "order_history" !in doc.fields
    requires "customer_id" in doc.fields && doc.fields["customer_id"].JStr?
    requires "name" in doc.fields && doc.fields["name"].JStr?
    ensures DecodeCustomer(doc) == Ok(CustomerState(doc.fields["customer_id"].str, doc.fields["name"].str, []))
  {
  }

  class Customer {
    const customerId: string
    const name: string
    var orderHistory: seq<string>

    /** `Customer(customer_id, name)`: a customer with no orders yet. */
    constructor(customerId: string, name: string)
      ensures this.customerId == customerId && this.name == name
      ensures orderHistory == []
    {
      this.customerId := customerId;
      this.name := name;
      orderHistory := [];
    }

    function State(): CustomerState
      reads this
    {
      CustomerState(customerId, name, orderHistory)
    }

    /** `Customer.to_dict`. */
    function ToDict(): Json
      reads this
    {
      EncodeCustomer(State())
    }

    /** `Customer.from_dict`: a new customer object with the document's
        fields, or the reason the document cannot be read. */
    static method FromDict(doc: Json) returns (r: Result<Customer, DecodeError>)
      ensures r.Ok? <==> DecodeCustomer(doc).Ok?
      ensures r.Ok? ==> fresh(r.value) && r.value.State() == DecodeCustomer(doc).value
    {
      var s := DecodeCustomer(doc);
      if s.Err? {
        return Err(s.error);
      }
      var c := new Customer(s.value.customerId, s.value.name);
      c.orderHistory := s.value.orderHistory;
      r := Ok(c);
    }

    /** `add_order_to_history`: appends one order identifier at the end. */
    method AddOrderToHistory(orderId: string)
      modifies this
      ensures orderHistory == old(orderHistory) + [orderId]
    {
      orderHistory := orderHistory + [orderId];
    }
  }

  function CustomerKey(c: Customer): string {
    c.customerId
  }

  /** The records of a list of customers, in order. */
  function CustomerStates(cs: seq<Customer>): (r: seq<CustomerState>)
    reads cs
    ensures |r| == |cs|
  {
    if cs == [] then [] else [cs[0].State()] + CustomerStates(cs[1..])
  }

  lemma {:induction false} CustomerStatesAt(cs: seq<Customer>, i: nat)
    requires i < |cs|
    ensures CustomerStates(cs)[i] == cs[i].State()
  {
    if i > 0 {
      CustomerStatesAt(cs[1..], i - 1);
    }
  }

  /** The whole of `customers.json` for a list of customer records. */
  function EncodeCustomers(cs: seq<CustomerState>): Json {
    JArr(EncodeAll(cs, EncodeCustomer))
  }

  /** `load_customers`: every entry of the document is read with `from_dict`. */
  function DecodeCustomers(doc: Json): Result<seq<CustomerState>, DecodeError> {
    var elems :- Elements(doc);
    DecodeAll(elems, DecodeCustomer)
  }

  /** Saving the ledger and loading it again gives the same records. */
  lemma CustomersRoundTrip(cs: seq<CustomerState>)
    ensures DecodeCustomers(EncodeCustomers(cs)) == Ok(cs)
  {
    forall i | 0 <= i < |cs|
      ensures DecodeCustomer(EncodeCustomer(cs[i])) == Ok(cs[i])
    {
      CustomerRoundTrip(cs[i]);
    }
    DecodeEncodeAll(cs, EncodeCustomer, DecodeCustomer);
  }

  /** Between the two states, the first customer in `customers` with that
      identifier gained `orderId` at the end of its history and every other
      customer's history is as it was; with no such customer, nothing was
      saved. */
  twostate predicate OrderRecorded(customers: seq<Customer>, customerId: string, orderId: string, saved: bool)
    reads customers
  {
    && (forall c :: c in customers && Some(c) != Find(customers, CustomerKey, customerId) ==>
          c.orderHistory == old(c.orderHistory))
    && (Find(customers, CustomerKey, customerId).Some? ==>
          var c := Find(customers, CustomerKey, customerId).value;
          c.orderHistory == old(c.orderHistory) + [orderId])
    && (Find(customers, CustomerKey, customerId).None? ==> !saved)
  }

  class CustomerManager {
    const store: FileStore
    var customers: seq<Customer>

    function Records(): seq<CustomerState>
      reads this, customers
    {
      CustomerStates(customers)
    }

    /** A manager over already loaded customers. */
    constructor(store: FileStore, customers: seq<Customer>)
      ensures this.store == store && this.customers == customers
    {
      this.store := store;
      this.customers := customers;
    }

    /** `CustomerManager()`: loads `customers.json` (no customers when the
        file does not exist), one new object per entry; an entry that cannot
        be read makes construction fail. */
    static method Open(store: FileStore) returns (r: Result<CustomerManager, DecodeError>)
      ensures r.Ok? <==> DecodeCustomers(store.Load(CustomersFile)).Ok?
      ensures r.Ok? ==> fresh(r.value) && r.value.store == store && Distinct(r.value.customers)
      ensures r.Ok? ==> r.value.Records() == DecodeCustomers(store.Load(CustomersFile)).value
      ensures r.Ok? ==> forall c :: c in r.value.customers ==> fresh(c)
    {
      var doc := store.Load(CustomersFile);
      var elems := Elements(doc);
      if elems.Err? {
        return Err(elems.error);
      }
      var docs := elems.value;
      var cs: seq<Customer> := [];
      var i := 0;
      while i < |docs|
        invariant 0 <= i <= |docs| && |cs| == i
        invariant Distinct(cs)
        invariant forall c :: c in cs ==> fresh(c)
        invariant forall j :: 0 <= j < i ==> DecodeCustomer(docs[j]).Ok?
        invariant forall j :: 0 <= j < i ==> cs[j].State() == DecodeCustomer(docs[j]).value
      {
        var c := Customer.FromDict(docs[i]);
        if c.Err? {
          return Err(c.error);
        }
        cs := cs + [c.value];
        i := i + 1;
      }
      var m := new CustomerManager(store, cs);
      r := Ok(m);
      forall j | 0 <= j < |cs|
        ensures CustomerStates(cs)[j] == DecodeCustomers(doc).value[j]
      {
        CustomerStatesAt(cs, j);
      }
      assert CustomerStates(cs) == DecodeCustomers(doc).value;
    }

    /** The whole of `customers.json` for the current ledger. */
    function CustomersDoc(): Json
      reads this, customers
    {
      EncodeCustomers(Records())
    }

    /** `save_customers` writes a list holding each customer's own
        `to_dict`, in ledger order. */
    lemma CustomersDocAt(i: nat)
      requires i < |customers|
      ensures CustomersDoc().JArr? && |CustomersDoc().elems| == |customers|
      ensures CustomersDoc().elems[i] == customers[i].ToDict()
    {
      CustomerStatesAt(customers, i);
      EncodeAllAt(Records(), EncodeCustomer, i);
    }

    /** `save_customers`. */
    method SaveCustomers() returns (ok: bool)
      modifies store
      ensures store.files == Written(old(store.files), CustomersFile, CustomersDoc(), ok)
    {
      ok := store.Save(CustomersFile, CustomersDoc());
    }

    /** `add_customer`: appends a new customer with an empty history, with no
        check that the identifier is new, and saves the ledger (whether the
        save worked is not reported). */
    method AddCustomer(customerId: string, name: string) returns (c: Customer, ghost saved: bool)
      modifies this, store
      ensures fresh(c)
      ensures customers == old(customers) + [c]
      ensures c.customerId == customerId && c.name == name && c.orderHistory == []
      ensures store.files == Written(old(store.files), CustomersFile, CustomersDoc(), saved)
    {
      c := new Customer(customerId, name);
      customers := customers + [c];
      saved := SaveCustomers();
    }

    /** `find_customer_by_id`: the first customer with that identifier. */
    method FindCustomerById(customerId: string) returns (r: Option<Customer>)
      ensures r == Find(customers, CustomerKey, customerId)
      ensures r.Some? ==> r.value in customers && r.value.customerId == customerId
      ensures r.None? <==> forall c :: c in customers ==> c.customerId != customerId
    {
      var i := 0;
      while i < |customers|
        invariant 0 <= i <= |customers|
        invariant forall j :: 0 <= j < i ==> customers[j].customerId != customerId
      {
        if customers[i].customerId == customerId {
          FirstIndexUnique(customers, CustomerKey, customerId, i);
          return Some(customers[i]);
        }
        i := i + 1;
      }
      return None;
    }

    /** `update_customer_order_history`: the first customer with that
        identifier gains the order at the end of its history and the ledger
        is saved; for an unknown identifier nothing changes and nothing is
        saved. */
    method UpdateCustomerOrderHistory(customerId: string, orderId: string) returns (ghost saved: bool)
      modifies customers, store
      ensures customers == old(customers)
      ensures OrderRecorded(customers, customerId, orderId, saved)
      ensures store.files == Written(old(store.files), CustomersFile, CustomersDoc(), saved)
    {
      var found := FindCustomerById(customerId);
      saved := false;
      if found.Some? {
        found.value.AddOrderToHistory(orderId);
        saved := SaveCustomers();
      }
    }
  }
}
