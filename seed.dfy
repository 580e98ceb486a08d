/**
 * The seeding half of init_db: the fixed sample catalog and customer list, and
 * the rule that each table is filled only while it is empty.
 */
module Seed {
  import opened Records
  import opened Ledger
  import opened Dashboard

  /** The 20 products init_db inserts into an empty products table. */
  const SampleProducts: seq<Product> := [
    Product("Rice 1kg", 40, 50, 100),
    Product("Lentils 1kg", 80, 100, 50),
    Product("Oil 1L", 120, 150, 30),
    Product("Sugar 1kg", 45, 60, 80),
    Product("Tea 200g", 80, 100, 40),
    Product("Salt 1kg", 20, 25, 60),
    Product("Flour 1kg", 35, 45, 70),
    Product("Milk 1L", 50, 65, 25),
    Product("Eggs (dozen)", 120, 140, 15),
    Product("Bread", 30, 40, 45),
    Product("Biscuits", 20, 30, 90),
    Product("Soap", 25, 35, 55),
    Product("Toothpaste", 80, 100, 20),
    Product("Shampoo", 150, 180, 12),
    Product("Detergent 500g", 60, 80, 35),
    Product("Matches", 5, 8, 100),
    Product("Candles", 10, 15, 60),
    Product("Notebook", 25, 35, 40),
    Product("Pen", 10, 15, 75),
    Product("Chips", 20, 30, 50)
  ]

  /** The 5 customers init_db inserts into an empty customers table. */
  const SampleCustomers: seq<Customer> := [
    Customer("Karim Ahmed", "01711111111", 0),
    Customer("Fatima Begum", "01722222222", 0),
    Customer("Rahim Khan", "01733333333", 0),
    Customer("Ayesha Siddiqua", "01744444444", 0),
    Customer("Jamal Uddin", "01755555555", 0)
  ]

  /** Every sample product is well formed, sells above cost and starts with at least 12 units. */
  lemma SampleCatalogFacts()
    ensures |SampleProducts| == 20
    ensures forall k :: 0 <= k < |SampleProducts| ==>
      && WellFormedProduct(SampleProducts[k])
      && SampleProducts[k].salePrice > SampleProducts[k].purchasePrice
      && SampleProducts[k].stock >= 12
    ensures |SampleCustomers| == 5
    ensures forall k :: 0 <= k < |SampleCustomers| ==>
      SampleCustomers[k].name != [] && SampleCustomers[k].totalDue == 0
  {
  }

  /** executemany: the rows take the ids next, next + 1, ... in order. */
  function InsertRows<T>(table: map<int, T>, next: int, rows: seq<T>): (r: map<int, T>)
    ensures forall id :: id in r <==> id in table || next <= id < next + |rows|
  {
    if rows == [] then table
    else
      var n := |rows| - 1;
      InsertRows(table, next, rows[..n])[next + n := rows[n]]
  }

  /** The inserted rows sit under fresh ids; the old rows are kept. */
  lemma {:induction false} InsertRowsContents<T>(table: map<int, T>, next: int, rows: seq<T>)
    requires forall id :: id in table ==> id < next
    ensures forall id :: id in InsertRows(table, next, rows) <==> id in table || next <= id < next + |rows|
    ensures forall id :: id in table ==> InsertRows(table, next, rows)[id] == table[id]
    ensures forall k :: 0 <= k < |rows| ==> InsertRows(table, next, rows)[next + k] == rows[k]
  {
    if rows != [] {
      var n := |rows| - 1;
      InsertRowsContents(table, next, rows[..n]);
    }
  }

  /** Products are seeded only while the table is empty; the id counter moves past them. */
  function SeedProducts(products: map<int, Product>, next: int): (r: (map<int, Product>, int))
    ensures |products| != 0 ==> r == (products, next)
    ensures |products| == 0 ==>
      && r.1 == next + 20
      && (forall id :: id in r.0 <==> next <= id < r.1)
      && (forall k :: 0 <= k < 20 ==> r.0[next + k] == SampleProducts[k])
  {
    if |products| == 0 then
      InsertRowsContents(products, next, SampleProducts);
      (InsertRows(products, next, SampleProducts), next + |SampleProducts|)
    else (products, next)
  }

  /** Customers are seeded only while the table is empty; the id counter moves past them. */
  function SeedCustomers(customers: map<int, Customer>, next: int): (r: (map<int, Customer>, int))
    ensures |customers| != 0 ==> r == (customers, next)
    ensures |customers| == 0 ==>
      && r.1 == next + 5
      && (forall id :: id in r.0 <==> next <= id < r.1)
      && (forall k :: 0 <= k < 5 ==> r.0[next + k] == SampleCustomers[k])
  {
    if |customers| == 0 then
      InsertRowsContents(customers, next, SampleCustomers);
      (InsertRows(customers, next, SampleCustomers), next + |SampleCustomers|)
    else (customers, next)
  }

  /** Seeding an empty table leaves it non-empty, so seeding again changes nothing. */
  lemma SeedProductsIdempotent(products: map<int, Product>, next: int)
    ensures SeedProducts(SeedProducts(products, next).0, SeedProducts(products, next).1) == SeedProducts(products, next)
  {
    if |products| == 0 {
      InsertRowsContents(products, next, SampleProducts);
      assert next in InsertRows(products, next, SampleProducts);
    }
  }

  lemma SeedCustomersIdempotent(customers: map<int, Customer>, next: int)
    ensures SeedCustomers(SeedCustomers(customers, next).0, SeedCustomers(customers, next).1) == SeedCustomers(customers, next)
  {
    if |customers| == 0 {
      InsertRowsContents(customers, next, SampleCustomers);
      assert next in InsertRows(customers, next, SampleCustomers);
    }
  }

  /** A freshly seeded store shows no low-stock product on the dashboard. */
  lemma FreshSeedHasNoLowStock(next: int)
    ensures LowStock(SeedProducts(map[], next).0) == []
  {
    var products := SeedProducts(map[], next).0;
    InsertRowsContents(map[], next, SampleProducts);
    SampleCatalogFacts();
    forall id | id in products ensures products[id].stock >= 12 {
      assert products[id] == SampleProducts[id - next];
    }
    assert LowStockIds(products) == {};
  }

  /** A freshly seeded store owes nothing: every sample customer starts at 0. */
  lemma FreshSeedOwesNothing(next: int)
    ensures TotalDue(SeedCustomers(map[], next).0) == 0
  {
    var customers := SeedCustomers(map[], next).0;
    InsertRowsContents(map[], next, SampleCustomers);
    SampleCatalogFacts();
    forall id | id in customers ensures customers[id].totalDue == 0 {
      assert customers[id] == SampleCustomers[id - next];
    }
  }
}
