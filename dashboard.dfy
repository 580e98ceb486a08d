/**
 * The dashboard queries of get_dashboard_data: today's sale and expense totals,
 * the customers' summed dues, and the low-stock list. "Today" is a parameter.
 */
module Dashboard {
  import opened Wrappers
  import opened Records
  import opened Ledger

  /** SUM(total_amount) over the sales whose timestamp falls on `day` (0 when none do). */
  function SalesTotalOn(sales: seq<Sale>, day: int): (r: int)
    ensures (forall k :: 0 <= k < |sales| ==> sales[k].total > 0) ==> r >= 0
    ensures (forall k :: 0 <= k < |sales| ==> sales[k].timestamp.day != day) ==> r == 0
  {
    if sales == [] then 0
    else (if sales[0].timestamp.day == day then sales[0].total else 0) + SalesTotalOn(sales[1..], day)
  }

  /** A new sale adds its total to the day it is dated, and nothing to any other day. */
  lemma {:induction false} SalesTotalOnAppend(sales: seq<Sale>, s: Sale, day: int)
    ensures SalesTotalOn(sales + [s], day) ==
            SalesTotalOn(sales, day) + (if s.timestamp.day == day then s.total else 0)
  {
    if sales != [] {
      assert (sales + [s])[1..] == sales[1..] + [s];
      SalesTotalOnAppend(sales[1..], s, day);
    }
  }

  /** SUM(amount) over the expenses whose timestamp falls on `day` (0 when none do). */
  function ExpensesTotalOn(expenses: seq<Expense>, day: int): (r: int)
    ensures (forall k :: 0 <= k < |expenses| ==> expenses[k].amount > 0) ==> r >= 0
    ensures (forall k :: 0 <= k < |expenses| ==> expenses[k].timestamp.day != day) ==> r == 0
  {
    if expenses == [] then 0
    else (if expenses[0].timestamp.day == day then expenses[0].amount else 0) + ExpensesTotalOn(expenses[1..], day)
  }

  /** A new expense adds its amount to the day it is dated, and nothing to any other day. */
  lemma {:induction false} ExpensesTotalOnAppend(expenses: seq<Expense>, e: Expense, day: int)
    ensures ExpensesTotalOn(expenses + [e], day) ==
            ExpensesTotalOn(expenses, day) + (if e.timestamp.day == day then e.amount else 0)
  {
    if expenses != [] {
      assert (expenses + [e])[1..] == expenses[1..] + [e];
      ExpensesTotalOnAppend(expenses[1..], e, day);
    }
  }

  /** SUM(total_due) over all customers, in no particular order. */
  ghost function TotalDue(customers: map<int, Customer>): (r: int)
    ensures (forall id :: id in customers ==> customers[id].totalDue >= 0) ==> r >= 0
    ensures (forall id :: id in customers ==> customers[id].totalDue == 0) ==> r == 0
    decreases |customers|
  {
    if !exists c :: c in customers.Keys then 0
    else
      var c :| c in customers.Keys;
      customers[c].totalDue + TotalDue(customers - {c})
  }

  /** The sum does not depend on which customer is taken first. */
  lemma {:induction false} TotalDueWithout(customers: map<int, Customer>, id: int)
    requires id in customers
    ensures TotalDue(customers) == customers[id].totalDue + TotalDue(customers - {id})
    decreases |customers|
  {
    var first :| first in customers && TotalDue(customers) == customers[first].totalDue + TotalDue(customers - {first});
    if first != id {
      TotalDueWithout(customers - {first}, id);
      TotalDueWithout(customers - {id}, first);
      assert customers - {first} - {id} == customers - {id} - {first};
    }
  }

  /** A due sale of `amount` raises the dashboard's total_due by exactly `amount`. */
  lemma TotalDueCredit(customers: map<int, Customer>, id: int, amount: int)
    requires id in customers
    ensures TotalDue(customers[id := customers[id].(totalDue := customers[id].totalDue + amount)]) ==
            TotalDue(customers) + amount
  {
    var credited := customers[id := customers[id].(totalDue := customers[id].totalDue + amount)];
    TotalDueWithout(credited, id);
    TotalDueWithout(customers, id);
    assert credited - {id} == customers - {id};
  }

  /**
   * A committed due sale raises the dashboard's total_due by exactly its total;
   * any other sale leaves it as it was.
   */
  lemma SaleRaisesTotalDue(products: map<int, Product>, customers: map<int, Customer>, req: SaleRequest)
    requires SaleCheck(products, customers, Some(req)) == None
    ensures TotalDue(Credited(customers, req)) == TotalDue(customers) + (if IsDue(req.status) then req.total else 0)
  {
    if IsDue(req.status) {
      TotalDueCredit(customers, req.customerId.value, req.total);
    }
  }

  /** A new customer adds what it owes (0 from add_customer) to total_due. */
  lemma TotalDueAddCustomer(customers: map<int, Customer>, id: int, c: Customer)
    requires id !in customers
    ensures TotalDue(customers[id := c]) == TotalDue(customers) + c.totalDue
  {
    TotalDueWithout(customers[id := c], id);
    assert customers[id := c] - {id} == customers;
  }

  /** One entry of low_stock_products. */
  datatype LowStockRow = LowStockRow(id: int, name: string, stock: int)

  function RowOf(products: map<int, Product>, id: int): LowStockRow
    requires id in products
  {
    LowStockRow(id, products[id].name, products[id].stock)
  }

  predicate SortedByStock(rows: seq<LowStockRow>) {
    forall i, j :: 0 <= i < j < |rows| ==> rows[i].stock <= rows[j].stock
  }

  /** The ids of the products with fewer than 5 units. */
  ghost function LowStockIds(products: map<int, Product>): set<int> {
    set id | id in products && products[id].stock < LowStockThreshold
  }

  /** Places `row` before the first row with more stock. */
  function InsertByStock(row: LowStockRow, rows: seq<LowStockRow>): (r: seq<LowStockRow>)
    requires SortedByStock(rows)
    ensures SortedByStock(r)
    ensures |r| == |rows| + 1
    ensures multiset(r) == multiset(rows) + multiset{row}
    ensures forall x :: x in r <==> x == row || x in rows
    ensures r[0] == row || (rows != [] && r[0] == rows[0])
  {
    if rows == [] || row.stock <= rows[0].stock then [row] + rows
    else
      var rest := InsertByStock(row, rows[1..]);
      assert forall j :: 0 <= j < |rest| ==> rows[0].stock <= rest[j].stock by {
        forall j | 0 <= j < |rest| ensures rows[0].stock <= rest[j].stock {
          assert rest[j] in rest;
        }
      }
      assert rows == [rows[0]] + rows[1..];
      [rows[0]] + rest
  }

  /**
   * `WHERE stock_quantity < 5 ORDER BY stock_quantity ASC`: every low-stock product
   * once, nothing else, in ascending stock order (ties in no particular order).
   */
  ghost function LowStock(products: map<int, Product>): (rows: seq<LowStockRow>)
    ensures SortedByStock(rows)
    ensures forall row :: row in rows ==> row.id in LowStockIds(products) && row == RowOf(products, row.id)
    ensures forall id :: id in LowStockIds(products) ==> RowOf(products, id) in rows
    ensures |rows| == |LowStockIds(products)|
    decreases |products|
  {
    if !exists pick :: pick in products.Keys then
      assert LowStockIds(products) == {};
      []
    else
      var pick :| pick in products.Keys;
      var others := products - {pick};
      var rest := LowStock(others);
      assert forall row :: row in rest ==> row == RowOf(products, row.id);
      if products[pick].stock < LowStockThreshold then
        assert LowStockIds(products) == LowStockIds(others) + {pick};
        InsertByStock(RowOf(products, pick), rest)
      else
        assert LowStockIds(products) == LowStockIds(others);
        rest
  }
}
