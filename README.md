# POS-app bookkeeping core in Dafny

A model of the bookkeeping behind a small retail point-of-sale backend: the
product, customer, sale and expense tables, the request handlers that validate
and change them, the low-stock alerts printed while stock is taken, the
dashboard figures, and the seeding of a new database. The SQLite store is an
in-memory object (`Store.PosStore`) whose fields are the four tables, the two
AUTOINCREMENT counters and the console lines printed as low-stock alerts.

Modules, one per part of the program:

- `Records` (records.dfy): the entities, Python's `str.strip()`, and the field
  checks of `add_product`, `update_product`, `add_customer` and `add_expense`.
- `Ledger` (ledger.dfy): the sale transaction handler as pure
  functions: the ordered request and item checks of `add_sale`, the due-balance
  credit, the stock decrements shared by `add_sale` and `update_stock`, the
  alerts, and what they imply.
- `Dashboard` (dashboard.dfy): the queries of `get_dashboard_data`, with "today"
  passed in.
- `Seed` (seed.dfy): the fixed sample catalog and the seed-only-when-empty rule
  of `init_db`.
- `Store` (store.dfy): the class `PosStore`, whose methods are the handlers,
  each proved against the functions above, and an invariant `Valid()` they keep.
- `Wrappers` (wrappers.dfy): `Option` and `Result`.

A request body that is missing or an empty JSON object is `None`; a numeric
field is `Absent`, `Malformed` (Python's `float()`/`int()` would raise) or
`Num(v)`; an item's id or quantity that is not an int is `None`. Money is an
int in the smallest currency unit. Every answer is a `Response`: `Accepted`,
`Created(id)`, `BadRequest(error)` (the 400 answers, one `ApiError` per
message) or `NotFound` (404).

## Where the code departs from the behaviour one would expect (the model follows the code)

- One would expect a committed sale never to take a product's stock below zero.
  The code checks each line item against the stock read before the sale
  (app.py:185) and decrements later (app.py:209-210), so a cart that names one
  product twice can overdraw it. `Ledger.RepeatedIdOverdraws` shows such a
  cart: 3 units in stock and two items of 2 leave -1. Non-negativity is proved
  only for carts whose ids are pairwise distinct (`Ledger.DistinctSaleKeepsStock`).
- One would expect a due sale for an unknown customer to be rejected before
  the items are looked at. The code checks that the customer id is present before the items, but
  checks that the customer exists only after every item has passed
  (app.py:189-193). `Ledger.SaleCheck` keeps the code's order.
- One would expect `update_product` to answer 404 for any unknown id. The code
  validates the body first, so an unknown id with a bad body answers 400
  (app.py:108-132). `Store.PosStore.UpdateProduct` states both.
- One would expect one alert per product whose stock falls below 5. The
  code prints one per line item (app.py:209-215), so a product named twice
  can alert twice. `Ledger.StockAlertsFromPreSaleStock` states the code's rule.

## Model

| member | source | states |
|---|---|---|
| `Records.TrimStart` | app.py:59 | drops exactly the leading white space: the result is a suffix of the input, everything dropped is white space, and it does not start with white space |
| `Records.TrimEnd` | app.py:59 | drops exactly the trailing white space: the result is a prefix of the input, everything dropped is white space, and it does not end with white space |
| `Records.Trim` | app.py:103 | `strip()`: the result neither starts nor ends with white space |
| `Records.TrimIsPadded` | app.py:103 | what `strip()` keeps is a slice of the input with only white space before and after it, so together with `Trim`'s contract it is the input less exactly its leading and trailing white space |
| `Records.TrimEmptyIff` | app.py:64 | a name is rejected as empty exactly when it is empty or all white space |
| `Records.ProductFields` | app.py:59-79 | accepts exactly a non-blank name with three numbers that convert and are non-negative; an accepted product is the trimmed name with exactly the submitted prices and stock; a blank name is rejected before any number is looked at, a conversion failure before any range check, and then a negative purchase price, a negative sale price and a negative stock are rejected in that order, each with its own error |
| `Records.CustomerFields` | app.py:252-261 | accepts exactly a non-blank name; the new customer has the trimmed name and phone and owes 0 |
| `Records.ExpenseFields` | app.py:277-298 | accepts exactly a non-blank category with an amount that converts and is above 0 (a missing amount reads 0); a blank category is rejected first, then a malformed amount, then an amount not above 0; the expense holds exactly the trimmed category and description, the submitted amount and the time passed in |
| `Ledger.ItemCheck` | app.py:170-187 | an item passes exactly when its id and quantity are ints, the quantity is positive, the product exists and holds enough stock; the checks come in that order, each failure with its own error, and a short-stock item gets the error naming the product and its available quantity |
| `Ledger.FirstItemError` | app.py:170-187 | no error exactly when every item passes; otherwise the error is that of an item all of whose predecessors passed |
| `Ledger.SaleCheck` | app.py:149-193 | commits exactly the admissible requests; rejects an empty cart, then a total not above 0, then a due sale without a truthy customer id, in that order; after those, a failing item gets exactly the first failing item's error, and a due sale whose items all pass but whose customer does not exist gets the customer-not-found error |
| `Ledger.LineItems` | app.py:196-200 | the sale record keeps every item, in order, as its id and quantity |
| `Ledger.Credited` | app.py:203-207 | a due sale raises its customer's balance by exactly the total and leaves that customer's name and phone as they were; every other customer, and every customer for a non-due sale, is unchanged |
| `Ledger.Decrement` | database.py:102 | one UPDATE takes the quantity from the named product's stock and changes nothing else; an unknown id changes nothing |
| `Ledger.AlertAfter` | database.py:104-108 | the stock read back after a decrement gives at most one alert, exactly when the product exists and holds fewer than 5 units, carrying its name and that stock |
| `Ledger.Decremented` | database.py:98-102 | the decrements never add or remove a product |
| `Ledger.StockAlerts` | database.py:104-108 | at most one alert per item |
| `Ledger.QuantityOf` | app.py:209-210 | a product no item names is charged nothing; non-negative quantities sum to a non-negative amount |
| `Ledger.DecrementedStock` | database.py:98-102 | each product loses exactly the summed quantity of the items naming it; names, prices and unnamed products are unchanged |
| `Ledger.QuantityOfDistinct` | app.py:209-210 | with distinct ids a product is charged exactly its one item's quantity |
| `Ledger.DistinctSaleKeepsStock` | app.py:185-210 | a committed sale with pairwise distinct ids leaves every stock non-negative |
| `Ledger.RepeatedIdOverdraws` | app.py:185-210 | a cart naming one product twice (3 in stock, 2 + 2) passes every check and leaves stock -1 |
| `Ledger.UpdateStockCanGoNegative` | database.py:102 | `update_stock` checks nothing: asking for more than a product holds makes its stock negative |
| `Ledger.UnknownItemIsSkipped` | database.py:102-108 | an item naming an unknown product changes no stock and prints no alert |
| `Ledger.StockAlertsFromPreSaleStock` | app.py:209-215 | the loop prints, in item order, one alert per item whose product's pre-sale stock less the quantities taken so far is below 5, carrying that number, and no others |
| `Ledger.DistinctItemAlert` | app.py:209-215 | with distinct ids the number an item's alert is judged by is its product's pre-sale stock less that item's quantity |
| `Ledger.RiceSaleExample` | app.py:209-215 | selling 10 of 100 leaves 90 and prints nothing |
| `Ledger.LastUnitsAlertExample` | app.py:209-215 | selling 98 of 100 leaves 2 and prints one alert for 2 units |
| `Dashboard.SalesTotalOn` | app.py:330-333 | today's sales total is never negative when every sale is positive, and is 0 when no sale is dated today |
| `Dashboard.SalesTotalOnAppend` | app.py:330-333 | a new sale adds its total to the day it is dated and nothing to any other day |
| `Dashboard.ExpensesTotalOn` | app.py:335-338 | today's expense total is never negative when every expense is positive, and is 0 when none is dated today |
| `Dashboard.ExpensesTotalOnAppend` | app.py:335-338 | a new expense adds its amount to the day it is dated and nothing to any other day |
| `Dashboard.TotalDue` | app.py:340-342 | the summed balances are non-negative when every balance is, and 0 when every balance is 0 |
| `Dashboard.TotalDueWithout` | app.py:340-342 | the sum does not depend on the order the customers are taken in |
| `Dashboard.TotalDueCredit` | app.py:203-207 | raising one customer's balance by an amount raises the summed balance by that amount |
| `Dashboard.SaleRaisesTotalDue` | app.py:203-207 | a committed due sale raises the dashboard's total due by exactly its total; any other sale leaves it unchanged |
| `Dashboard.TotalDueAddCustomer` | app.py:261 | a new customer adds its balance (0 from `add_customer`) to the total due |
| `Dashboard.InsertByStock` | app.py:344-346 | inserting a row into a list sorted by stock keeps it sorted, and the result holds the old rows plus that one row, counted with multiplicity |
| `Dashboard.LowStock` | app.py:344-346 | the low-stock list holds every product with stock below 5, each once with its name and stock, nothing else, in ascending stock order |
| `Seed.SampleCatalogFacts` | database.py:51-84 | the catalog has 20 products, each with a name, non-negative prices, sale price above purchase price and at least 12 units; the 5 sample customers owe 0 |
| `Seed.InsertRows` | database.py:73 | `executemany` keeps every existing id and adds the ids next, next + 1, ... one per row, and no other |
| `Seed.InsertRowsContents` | database.py:73 | bulk insertion puts row k under id next + k and keeps every existing row |
| `Seed.SeedProducts` | database.py:49-73 | a non-empty product table is left alone; an empty one receives the 20 sample products under ids next to next + 19 and the counter moves past them |
| `Seed.SeedCustomers` | database.py:75-84 | a non-empty customer table is left alone; an empty one receives the 5 sample customers under ids next to next + 4 and the counter moves past them |
| `Seed.SeedProductsIdempotent` | database.py:49-73 | seeding the products twice gives the same table and counter as seeding once |
| `Seed.SeedCustomersIdempotent` | database.py:75-84 | seeding the customers twice gives the same table and counter as seeding once |
| `Seed.FreshSeedHasNoLowStock` | database.py:51-73 | a freshly seeded store has an empty low-stock list |
| `Seed.FreshSeedOwesNothing` | database.py:75-84 | a freshly seeded store's total due is 0 |
| `Store.DecrementedKeepsCatalog` | database.py:98-102 | stock decrements keep every product's name and prices valid and every id below its counter |
| `Store.SeededProductsValid` | database.py:49-73 | seeding keeps the product table's invariant |
| `Store.SeededCustomersValid` | database.py:75-84 | seeding keeps the customer table's invariant |
| `Store.SalesValidGrow` | app.py:189-207 | a due sale's customer stays valid as the customer table grows |
| `Store.ProductsValidPut` | app.py:84-89 | writing a well-formed product under an id below the counter keeps the product invariant |
| `Store.CustomersValidPut` | app.py:261 | writing a customer with a non-negative balance under an id below the counter keeps the customer invariant |
| `Store.PosStore.constructor` | database.py:8-47 | a new database: four empty tables, counters at 1, no alerts |
| `Store.PosStore.InitDb` | database.py:4-87 | seeds each catalog table exactly as `SeedProducts`/`SeedCustomers` say and keeps the invariant |
| `Store.PosStore.SeedProductTable` | database.py:49-73 | inserts the sample catalog only when the product table is empty |
| `Store.PosStore.SeedCustomerTable` | database.py:75-84 | inserts the sample customers only when the customer table is empty |
| `Store.PosStore.InsertProducts` | database.py:73 | the insertion loop gives the table `InsertRows` describes and advances the counter by the row count |
| `Store.PosStore.InsertCustomers` | database.py:84 | the insertion loop gives the table `InsertRows` describes and advances the counter by the row count |
| `Store.PosStore.AddProduct` | app.py:52-94 | answers 400 with the validator's error and changes nothing, or stores the validated product under the next id, answers with that id and changes nothing else |
| `Store.PosStore.UpdateProduct` | app.py:96-143 | a bad body answers 400 whatever the id; a good body for an unknown id answers 404; otherwise only that product's fields are replaced |
| `Store.PosStore.AddCustomer` | app.py:245-268 | answers 400 and changes nothing, or stores the new customer (owing 0) under the next id and changes nothing else |
| `Store.PosStore.InsertCustomer` | app.py:261 | the customer goes under the next id, which was free, the counter advances, nothing else changes, and the invariant holds |
| `Store.PosStore.AddExpense` | app.py:270-304 | answers 400 and changes nothing, or appends exactly the validated expense |
| `Store.PosStore.UpdateStock` | database.py:94-111 | the products become `Decremented` of the old ones and the printed alerts grow by `StockAlerts`; nothing else changes |
| `Store.PosStore.FirstBadItem` | app.py:170-187 | the item loop returns exactly the first failing item's error, or none |
| `Store.PosStore.CheckSale` | app.py:147-193 | the validation phase returns exactly `SaleCheck`'s verdict and changes nothing |
| `Store.PosStore.CommitSale` | app.py:195-217 | appends one sale record, credits a due customer, decrements and alerts as `Decremented`/`StockAlerts` say, and keeps the invariant |
| `Store.PosStore.AddSale` | app.py:145-226 | answers as `SaleCheck` says; a rejected request changes nothing; an accepted one appends exactly one sale (items, total, time, customer id, status), credits as `Credited`, decrements as `Decremented` and prints `StockAlerts` |
| `Store.SeededRiceSale` | app.py:145-215 | on the seeded catalog, a cash sale of 10 "Rice 1kg" (id 1) passes every check, leaves 90 units and prints no alert |
| `Store.RiceSaleScenario` | app.py:145-226 | a client of the store: on a freshly seeded store that sale is accepted, leaves 90 units, prints no alert and makes the day's sales total 500 |

## Left out

- Flask routing, the HTML pages, CORS, the secret key and `jsonify`: answers are the `Response` datatype.
- The listing handlers `get_products`, `get_customers` and `get_expenses`: they copy rows into JSON in SQL order.
- SQLite connections, the schema DDL (the constructor stands for a new, empty database), `conn.close`, and every 500 "Database error" answer with `add_sale`'s rollback: no storage failure is modelled, and validate-then-commit already leaves a rejected request with no change.
- `datetime.now()`: times are parameters; `json.dumps` of the items: the sale stores the item sequence.
- `print`: alerts are appended to the `alerts` field.
- Floating point: prices and amounts are ints; Python's `float()`/`int()` conversions are abstracted to `NumberField` (so `int()` truncating a float, NaN and infinity are not modelled).
- Python quirks outside the modelled inputs: `True` passing `isinstance(..., int)`, a non-dict body or item, a non-string name, a non-numeric `total_amount` (an unhandled exception outside the `try`), and customer ids that are falsy strings or lists.
- Customer ids that are not ints but are truthy, such as `"3"`, which SQLite's integer affinity matches to customer 3: the model's customer id is an int or absent.
- A `null` phone, category or description: `.strip()` on None raises and the handler answers 500; the model's text fields are always strings.
- Ids and quantities beyond SQLite's 64-bit INTEGER range, where the driver raises `OverflowError` and the handler answers 500: the model's integers are unbounded.
- `Records.Trim`: strips only the ten ASCII characters `str.strip()` removes (space, `\t`, `\n`, `\v`, `\f`, `\r` and the separators `\x1c` to `\x1f`), not the rest of Unicode white space such as `\x85` or `\xa0`.
- Sales and expenses have no stored id: their AUTOINCREMENT id is their position in the log.
- `Dashboard.LowStock`: products with equal stock come in no particular order, as `ORDER BY stock_quantity` leaves them.
- The race between concurrent sales on the same stock: the model is sequential.
