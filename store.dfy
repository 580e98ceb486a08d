/**
 * The store itself: the four tables (plus the console the alerts go to) as the
 * fields of one object, and the request handlers as methods that change them.
 * SQLite's AUTOINCREMENT counters are the two `next...Id` fields.
 */
module Store {
  import opened Wrappers
  import opened Records
  import opened Ledger
  import opened Dashboard
  import opened Seed

  /** A snapshot of every field, so that a contract can say what did not change. */
  datatype Db = Db(products: map<int, Product>, customers: map<int, Customer>,
                   sales: seq<Sale>, expenses: seq<Expense>, alerts: seq<Alert>,
                   nextProductId: int, nextCustomerId: int)

  /** What every stored product keeps: a name and non-negative prices (stock may go negative). */
  predicate CatalogEntry(p: Product) {
    p.name != [] && p.purchasePrice >= 0 && p.salePrice >= 0
  }

  /** Product ids lie below the table's AUTOINCREMENT counter; every entry is a catalog entry. */
  predicate ProductsValid(products: map<int, Product>, next: int) {
    1 <= next && forall id :: id in products ==> 1 <= id < next && CatalogEntry(products[id])
  }

  /** Customer ids lie below the counter; nobody owes a negative amount. */
  predicate CustomersValid(customers: map<int, Customer>, next: int) {
    1 <= next && forall id :: id in customers ==> 1 <= id < next && customers[id].totalDue >= 0
  }

  /** Every sale is positive, and a due sale names a customer that exists. */
  predicate SalesValid(sales: seq<Sale>, customers: map<int, Customer>) {
    forall k :: 0 <= k < |sales| ==>
      && sales[k].total > 0
      && (IsDue(sales[k].status) ==> sales[k].customerId.Some? && sales[k].customerId.value in customers)
  }

  /** Every expense is positive. */
  predicate ExpensesValid(expenses: seq<Expense>) {
    forall k :: 0 <= k < |expenses| ==> expenses[k].amount > 0
  }

  /** Writing a catalog entry under an id below the (possibly advanced) counter keeps the invariant. */
  lemma ProductsValidPut(products: map<int, Product>, next: int, id: int, p: Product, next': int)
    requires ProductsValid(products, next)
    requires CatalogEntry(p) && 1 <= id < next' && next <= next'
    ensures ProductsValid(products[id := p], next')
  {
  }

  /** Writing a customer who owes nothing negative under an id below the counter keeps the invariant. */
  lemma CustomersValidPut(customers: map<int, Customer>, next: int, id: int, c: Customer, next': int)
    requires CustomersValid(customers, next)
    requires c.totalDue >= 0 && 1 <= id < next' && next <= next'
    ensures CustomersValid(customers[id := c], next')
  {
  }

  /** Stock decrements (checked or not) keep the product table's invariant. */
  lemma DecrementedKeepsCatalog(products: map<int, Product>, next: int, items: seq<LineItem>)
    requires ProductsValid(products, next)
    ensures ProductsValid(Decremented(products, items), next)
  {
    DecrementedStock(products, items);
  }

  /** Seeding keeps the product table's invariant: the sample catalog is well formed. */
  lemma SeededProductsValid(products: map<int, Product>, next: int)
    requires ProductsValid(products, next)
    ensures ProductsValid(SeedProducts(products, next).0, SeedProducts(products, next).1)
  {
    if |products| == 0 {
      SampleCatalogFacts();
      InsertRowsContents(products, next, SampleProducts);
      var seeded := SeedProducts(products, next).0;
      forall id | id in seeded ensures CatalogEntry(seeded[id]) {
        assert seeded[id] == SampleProducts[id - next];
      }
    }
  }

  /** Seeding keeps the customer table's invariant: sample customers owe nothing. */
  lemma SeededCustomersValid(customers: map<int, Customer>, next: int)
    requires CustomersValid(customers, next)
    ensures CustomersValid(SeedCustomers(customers, next).0, SeedCustomers(customers, next).1)
  {
    if |customers| == 0 {
      SampleCatalogFacts();
      InsertRowsContents(customers, next, SampleCustomers);
      var seeded := SeedCustomers(customers, next).0;
      forall id | id in seeded ensures seeded[id].totalDue >= 0 {
        assert seeded[id] == SampleCustomers[id - next];
      }
    }
  }

  /** Customers are never removed, so a due sale's customer stays valid as the table grows. */
  lemma SalesValidGrow(sales: seq<Sale>, customers: map<int, Customer>, grown: map<int, Customer>)
    requires SalesValid(sales, customers)
    requires customers.Keys <= grown.Keys
    ensures SalesValid(sales, grown)
  {
  }

  class PosStore {
    var products: map<int, Product>
    var customers: map<int, Customer>
    var sales: seq<Sale>
    var expenses: seq<Expense>
    /** The low-stock lines printed so far. */
    var alerts: seq<Alert>
    var nextProductId: int
    var nextCustomerId: int

    ghost function State(): Db
      reads this
    {
      Db(products, customers, sales, expenses, alerts, nextProductId, nextCustomerId)
    }

    /**
     * Ids are below their counters; prices are never negative; no customer owes a
     * negative amount; every sale and expense is positive; and a due sale names a
     * customer that exists (customers are never deleted).
     */
    ghost predicate Valid()
      reads this
    {
      && ProductsValid(products, nextProductId)
      && CustomersValid(customers, nextCustomerId)
      && SalesValid(sales, customers)
      && ExpensesValid(expenses)
    }

    /** A new, empty database file with its four tables. */
    constructor ()
      ensures Valid()
      ensures State() == Db(map[], map[], [], [], [], 1, 1)
    {
      products, customers, sales, expenses, alerts := map[], map[], [], [], [];
      nextProductId, nextCustomerId := 1, 1;
    }

    /** init_db: seed each of the two catalog tables if, and only if, it is empty. */
    method InitDb()
      requires Valid()
      modifies this`products, this`nextProductId, this`customers, this`nextCustomerId
      ensures Valid()
      ensures (products, nextProductId) == SeedProducts(old(products), old(nextProductId))
      ensures (customers, nextCustomerId) == SeedCustomers(old(customers), old(nextCustomerId))
    {
      SeedProductTable();
      SeedCustomerTable();
    }

    /** `SELECT COUNT(*) FROM products`, and the sample catalog's insertion when it is 0. */
    method SeedProductTable()
      requires Valid()
      modifies this`products, this`nextProductId
      ensures Valid()
      ensures (products, nextProductId) == SeedProducts(old(products), old(nextProductId))
    {
      SeededProductsValid(products, nextProductId);
      if |products| == 0 {
        InsertProducts(SampleProducts);
      }
    }

    /** `SELECT COUNT(*) FROM customers`, and the sample customers' insertion when it is 0. */
    method SeedCustomerTable()
      requires Valid()
      modifies this`customers, this`nextCustomerId
      ensures Valid()
      ensures (customers, nextCustomerId) == SeedCustomers(old(customers), old(nextCustomerId))
    {
      SeededCustomersValid(customers, nextCustomerId);
      SalesValidGrow(sales, customers, SeedCustomers(customers, nextCustomerId).0);
      if |customers| == 0 {
        InsertCustomers(SampleCustomers);
      }
    }

    /** executemany of an INSERT into products: one fresh id per row, in order. */
    method InsertProducts(rows: seq<Product>)
      modifies this`products, this`nextProductId
      ensures products == InsertRows(old(products), old(nextProductId), rows)
      ensures nextProductId == old(nextProductId) + |rows|
    {
      var i := 0;
      while i < |rows|
        invariant 0 <= i <= |rows|
        invariant products == InsertRows(old(products), old(nextProductId), rows[..i])
        invariant nextProductId == old(nextProductId) + i
      {
        assert rows[..i + 1][..i] == rows[..i];
        products := products[nextProductId := rows[i]];
        nextProductId := nextProductId + 1;
        i := i + 1;
      }
      assert rows[..i] == rows;
    }

    /** executemany of an INSERT into customers: one fresh id per row, in order. */
    method InsertCustomers(rows: seq<Customer>)
      modifies this`customers, this`nextCustomerId
      ensures customers == InsertRows(old(customers), old(nextCustomerId), rows)
      ensures nextCustomerId == old(nextCustomerId) + |rows|
    {
      var i := 0;
      while i < |rows|
        invariant 0 <= i <= |rows|
        invariant customers == InsertRows(old(customers), old(nextCustomerId), rows[..i])
        invariant nextCustomerId == old(nextCustomerId) + i
      {
        assert rows[..i + 1][..i] == rows[..i];
        customers := customers[nextCustomerId := rows[i]];
        nextCustomerId := nextCustomerId + 1;
        i := i + 1;
      }
      assert rows[..i] == rows;
    }

    /** add_product: a validated product under a fresh id, or a 400 and no change. */
    method AddProduct(body: Option<ProductBody>) returns (r: Response)
      requires Valid()
      modifies this`products, this`nextProductId
      ensures Valid()
      ensures body.None? ==> r == BadRequest(NoDataProvided)
      ensures body.Some? && ProductFields(body.value, Num(0)).Failure? ==>
                r == BadRequest(ProductFields(body.value, Num(0)).error)
      ensures r.Created? <==> body.Some? && ProductFields(body.value, Num(0)).Success?
      ensures r.Created? ==>
                && r.id == old(nextProductId) && r.id !in old(products)
                && State() == old(State()).(products := old(products)[r.id := ProductFields(body.value, Num(0)).value],
                                            nextProductId := old(nextProductId) + 1)
      ensures !r.Created? ==> State() == old(State())
    {
      if body.None? {
        return BadRequest(NoDataProvided);
      }
      var fields := ProductFields(body.value, Num(0));
      if fields.Failure? {
        return BadRequest(fields.error);
      }
      r := Created(nextProductId);
      ProductsValidPut(products, nextProductId, nextProductId, fields.value, nextProductId + 1);
      products := products[nextProductId := fields.value];
      nextProductId := nextProductId + 1;
    }

    /**
     * update_product: the body is validated before the id is looked up, so a bad
     * body answers 400 even for an unknown id; a good body for an unknown id
     * answers 404; otherwise the product's four fields are replaced.
     */
    method UpdateProduct(id: int, body: Option<ProductBody>) returns (r: Response)
      requires Valid()
      modifies this`products
      ensures Valid()
      ensures body.None? ==> r == BadRequest(NoDataProvided)
      ensures body.Some? && ProductFields(body.value, Malformed).Failure? ==>
                r == BadRequest(ProductFields(body.value, Malformed).error)
      ensures body.Some? && ProductFields(body.value, Malformed).Success? && id !in old(products) ==> r == NotFound
      ensures r == Accepted <==> body.Some? && ProductFields(body.value, Malformed).Success? && id in old(products)
      ensures r == Accepted ==>
                State() == old(State()).(products := old(products)[id := ProductFields(body.value, Malformed).value])
      ensures r != Accepted ==> State() == old(State())
    {
      if body.None? {
        return BadRequest(NoDataProvided);
      }
      var fields := ProductFields(body.value, Malformed);
      if fields.Failure? {
        return BadRequest(fields.error);
      }
      if id !in products {
        return NotFound;
      }
      ProductsValidPut(products, nextProductId, id, fields.value, nextProductId);
      products := products[id := fields.value];
      r := Accepted;
    }

    /** add_customer: a validated customer owing 0 under a fresh id, or a 400 and no change. */
    method AddCustomer(body: Option<CustomerBody>) returns (r: Response)
      requires Valid()
      modifies this`customers, this`nextCustomerId
      ensures Valid()
      ensures body.None? ==> r == BadRequest(NoDataProvided)
      ensures body.Some? && CustomerFields(body.value).Failure? ==> r == BadRequest(CustomerNameRequired)
      ensures r.Created? <==> body.Some? && CustomerFields(body.value).Success?
      ensures r.Created? ==>
                && r.id == old(nextCustomerId) && r.id !in old(customers)
                && State() == old(State()).(customers := old(customers)[r.id := CustomerFields(body.value).value],
                                            nextCustomerId := old(nextCustomerId) + 1)
      ensures !r.Created? ==> State() == old(State())
    {
      if body.None? {
        return BadRequest(NoDataProvided);
      }
      var fields := CustomerFields(body.value);
      if fields.Failure? {
        return BadRequest(fields.error);
      }
      var id := InsertCustomer(fields.value);
      r := Created(id);
    }

    /** The INSERT of add_customer: the row goes under the next id. */
    method InsertCustomer(c: Customer) returns (id: int)
      requires Valid() && c.totalDue >= 0
      modifies this`customers, this`nextCustomerId
      ensures Valid()
      ensures id == old(nextCustomerId) && id !in old(customers)
      ensures State() == old(State()).(customers := old(customers)[id := c], nextCustomerId := old(nextCustomerId) + 1)
    {
      id := nextCustomerId;
      CustomersValidPut(customers, nextCustomerId, id, c, id + 1);
      customers := customers[id := c];
      nextCustomerId := id + 1;
      SalesValidGrow(sales, old(customers), customers);
    }

    /** add_expense: a validated expense stamped `now` appended to the log, or a 400 and no change. */
    method AddExpense(body: Option<ExpenseBody>, now: Timestamp) returns (r: Response)
      requires Valid()
      modifies this`expenses
      ensures Valid()
      ensures body.None? ==> r == BadRequest(NoDataProvided)
      ensures body.Some? && ExpenseFields(body.value, now).Failure? ==>
                r == BadRequest(ExpenseFields(body.value, now).error)
      ensures r == Accepted <==> body.Some? && ExpenseFields(body.value, now).Success?
      ensures r == Accepted ==>
                State() == old(State()).(expenses := old(expenses) + [ExpenseFields(body.value, now).value])
      ensures r != Accepted ==> State() == old(State())
    {
      if body.None? {
        return BadRequest(NoDataProvided);
      }
      var fields := ExpenseFields(body.value, now);
      if fields.Failure? {
        return BadRequest(fields.error);
      }
      expenses := expenses + [fields.value];
      r := Accepted;
    }

    /**
     * update_stock: take each item's quantity from its product, unchecked, and
     * print an alert whenever the stock read back is below 5. An unknown id
     * updates no row and reads none back.
     */
    method UpdateStock(items: seq<LineItem>)
      requires Valid()
      modifies this`products, this`alerts
      ensures Valid()
      ensures State() == old(State()).(products := Decremented(old(products), items),
                                       alerts := old(alerts) + StockAlerts(old(products), items))
    {
      var i := 0;
      while i < |items|
        invariant 0 <= i <= |items|
        invariant State() == old(State()).(products := Decremented(old(products), items[..i]),
                                           alerts := old(alerts) + StockAlerts(old(products), items[..i]))
      {
        var item := items[i];
        assert items[..i + 1][..i] == items[..i];
        if item.id in products {
          products := products[item.id := products[item.id].(stock := products[item.id].stock - item.quantity)];
        }
        if item.id in products && products[item.id].stock < LowStockThreshold {
          alerts := alerts + [LowStockAlert(products[item.id].name, products[item.id].stock)];
        }
        i := i + 1;
      }
      assert items[..i] == items;
      DecrementedKeepsCatalog(old(products), nextProductId, items);
    }

    /**
     * The validation phase of add_sale: the request checks, then every item in
     * order against the pre-sale stock, then the due customer. It changes nothing.
     */
    method CheckSale(body: Option<SaleRequest>) returns (e: Option<ApiError>)
      ensures e == SaleCheck(products, customers, body)
    {
      if body.None? {
        return Some(NoDataProvided);
      }
      var req := body.value;
      if req.items == [] {
        return Some(NoItemsInCart);
      }
      if req.total <= 0 {
        return Some(InvalidTotalAmount);
      }
      if IsDue(req.status) && !Truthy(req.customerId) {
        return Some(CustomerIdRequired);
      }
      var itemError := FirstBadItem(req.items);
      if itemError.Some? {
        return itemError;
      }
      if IsDue(req.status) && req.customerId.value !in customers {
        return Some(CustomerNotFound);
      }
      return None;
    }

    /** The item loop of add_sale: the first item that fails its checks stops the request. */
    method FirstBadItem(items: seq<RawItem>) returns (e: Option<ApiError>)
      ensures e == FirstItemError(products, items)
    {
      var i := 0;
      while i < |items|
        invariant 0 <= i <= |items|
        invariant FirstItemError(products, items) == FirstItemError(products, items[i..])
      {
        var item := items[i];
        assert items[i..][1..] == items[i + 1..];
        if item.id.None? || item.quantity.None? {
          return Some(InvalidItemData);
        }
        if item.quantity.value <= 0 {
          return Some(InvalidQuantity);
        }
        if item.id.value !in products {
          return Some(UnknownProduct(item.id.value));
        }
        var product := products[item.id.value];
        if product.stock < item.quantity.value {
          return Some(InsufficientStock(product.name, product.stock));
        }
        i := i + 1;
      }
      return None;
    }

    /**
     * The commit phase of add_sale: record the sale, credit a due sale's customer,
     * then take the stock item by item (the same loop as update_stock).
     */
    method CommitSale(req: SaleRequest, now: Timestamp)
      requires Valid()
      requires SaleAdmissible(products, customers, Some(req))
      modifies this`sales, this`customers, this`products, this`alerts
      ensures Valid()
      ensures WellTyped(req.items)
      ensures State() == old(State()).(
                sales := old(sales) + [Sale(LineItems(req.items), req.total, now, req.customerId, req.status)],
                customers := Credited(old(customers), req),
                products := Decremented(old(products), LineItems(req.items)),
                alerts := old(alerts) + StockAlerts(old(products), LineItems(req.items)))
    {
      var items := LineItems(req.items);
      sales := sales + [Sale(items, req.total, now, req.customerId, req.status)];
      if IsDue(req.status) {
        var id := req.customerId.value;
        CustomersValidPut(customers, nextCustomerId, id,
                          customers[id].(totalDue := customers[id].totalDue + req.total), nextCustomerId);
        customers := customers[id := customers[id].(totalDue := customers[id].totalDue + req.total)];
      }
      SalesValidGrow(old(sales), old(customers), customers);
      UpdateStock(items);
    }

    /**
     * add_sale: validate, and only when every check passes, commit. A rejected
     * request changes nothing.
     */
    method AddSale(body: Option<SaleRequest>, now: Timestamp) returns (r: Response)
      requires Valid()
      modifies this`sales, this`customers, this`products, this`alerts
      ensures Valid()
      ensures r == (if SaleCheck(old(products), old(customers), body).None? then Accepted
                    else BadRequest(SaleCheck(old(products), old(customers), body).value))
      ensures r != Accepted ==> State() == old(State())
      ensures r == Accepted ==>
                && WellTyped(body.value.items)
                && State() == old(State()).(
                     sales := old(sales) + [Sale(LineItems(body.value.items), body.value.total, now,
                                                 body.value.customerId, body.value.status)],
                     customers := Credited(old(customers), body.value),
                     products := Decremented(old(products), LineItems(body.value.items)),
                     alerts := old(alerts) + StockAlerts(old(products), LineItems(body.value.items)))
    {
      var e := CheckSale(body);
      if e.Some? {
        return BadRequest(e.value);
      }
      CommitSale(body.value, now);
      r := Accepted;
    }
  }

  /** On the seeded catalog, id 1 is 100 "Rice 1kg"; selling 10 leaves 90 and prints nothing. */
  lemma SeededRiceSale(customers: map<int, Customer>, req: SaleRequest)
    requires req == SaleRequest([RawItem(Some(1), Some(10))], 500, "cash", None)
    ensures var products := SeedProducts(map[], 1).0;
            && SaleCheck(products, customers, Some(req)) == None
            && Decremented(products, LineItems(req.items))[1].stock == 90
            && StockAlerts(products, LineItems(req.items)) == []
  {
    var products := SeedProducts(map[], 1).0;
    assert products[1 + 0] == SampleProducts[0];
    assert ItemAdmissible(products, req.items[0]);
    assert SaleAdmissible(products, customers, Some(req));
    assert LineItems(req.items) == [LineItem(1, 10)];
    DecrementedStock(products, [LineItem(1, 10)]);
    assert [LineItem(1, 10)][..0] == [];
  }

  /**
   * A client of the store: on a freshly seeded store, selling 10 of the 100
   * "Rice 1kg" (id 1) for 500 in cash leaves 90, prints no alert, and adds 500
   * to the day's sales total.
   */
  method RiceSaleScenario(now: Timestamp) returns (r: Response, stock: int, alerts: seq<Alert>, salesToday: int)
    ensures r == Accepted && stock == 90 && alerts == [] && salesToday == 500
  {
    var store := new PosStore();
    store.InitDb();
    var req := SaleRequest([RawItem(Some(1), Some(10))], 500, "cash", None);
    SeededRiceSale(store.customers, req);
    r := store.AddSale(Some(req), now);
    SalesTotalOnAppend([], store.sales[0], now.day);
    stock, alerts, salesToday := store.products[1].stock, store.alerts, SalesTotalOn(store.sales, now.day);
  }
}
