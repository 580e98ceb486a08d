/**
 * The sale transaction handler as pure functions: the ordered
 * request and item checks of add_sale, the stock decrements shared by
 * add_sale and update_stock, and the low-stock alerts they print.
 */
module Ledger {
  import opened Wrappers
  import opened Records

  /** A product whose stock drops below this many units raises an alert. */
  const LowStockThreshold := 5

  /** One {id, quantity} entry of a request; None stands for a value that is not an int. */
  datatype RawItem = RawItem(id: Option<int>, quantity: Option<int>)

  /** The add_sale body; a left-out status reads "cash", a left-out total 0. */
  datatype SaleRequest = SaleRequest(items: seq<RawItem>, total: int, status: string, customerId: Option<int>)

  predicate IsDue(status: string) { status == "due" }

  /** Python truthiness of the customer id: present and not 0. */
  predicate Truthy(customerId: Option<int>) { customerId.Some? && customerId.value != 0 }

  /** An item that passes every per-item check against the pre-sale stock. */
  predicate ItemAdmissible(products: map<int, Product>, item: RawItem) {
    && item.id.Some? && item.quantity.Some?
    && 0 < item.quantity.value
    && item.id.value in products
    && item.quantity.value <= products[item.id.value].stock
  }

  /** A request add_sale commits: every check of the handler, stated without their order. */
  predicate SaleAdmissible(products: map<int, Product>, customers: map<int, Customer>, body: Option<SaleRequest>) {
    && body.Some?
    && body.value.items != []
    && body.value.total > 0
    && (forall k :: 0 <= k < |body.value.items| ==> ItemAdmissible(products, body.value.items[k]))
    && (IsDue(body.value.status) ==> Truthy(body.value.customerId) && body.value.customerId.value in customers)
  }

  /** The checks of one item, in the handler's order. */
  function ItemCheck(products: map<int, Product>, item: RawItem): (r: Option<ApiError>)
    ensures r.None? <==> ItemAdmissible(products, item)
    ensures item.id.None? || item.quantity.None? ==> r == Some(InvalidItemData)
    ensures item.id.Some? && item.quantity.Some? && item.quantity.value <= 0 ==> r == Some(InvalidQuantity)
    ensures (item.id.Some? && item.quantity.Some? && item.quantity.value > 0
             && item.id.value !in products) ==> r == Some(UnknownProduct(item.id.value))
    ensures (item.id.Some? && item.quantity.Some? && item.quantity.value > 0
             && item.id.value in products && products[item.id.value].stock < item.quantity.value) ==>
      r == Some(InsufficientStock(products[item.id.value].name, products[item.id.value].stock))
  {
    if item.id.None? || item.quantity.None? then Some(InvalidItemData)
    else if item.quantity.value <= 0 then Some(InvalidQuantity)
    else if item.id.value !in products then Some(UnknownProduct(item.id.value))
    else if products[item.id.value].stock < item.quantity.value then
      Some(InsufficientStock(products[item.id.value].name, products[item.id.value].stock))
    else None
  }

  /** The error of the first item that fails its checks, if any. */
  function FirstItemError(products: map<int, Product>, items: seq<RawItem>): (r: Option<ApiError>)
    ensures r.None? <==> forall k :: 0 <= k < |items| ==> ItemAdmissible(products, items[k])
    ensures r.Some? ==> exists k :: 0 <= k < |items| && ItemCheck(products, items[k]) == r &&
                                   forall j :: 0 <= j < k ==> ItemAdmissible(products, items[j])
  {
    if items == [] then None
    else if ItemCheck(products, items[0]).Some? then ItemCheck(products, items[0])
    else
      var rest := FirstItemError(products, items[1..]);
      assert forall k :: 0 <= k < |items| - 1 ==> items[1..][k] == items[k + 1];
      rest
  }

  /** add_sale's verdict on a request: None commits, Some(e) answers 400 with e. */
  function SaleCheck(products: map<int, Product>, customers: map<int, Customer>, body: Option<SaleRequest>)
    : (r: Option<ApiError>)
    ensures r.None? <==> SaleAdmissible(products, customers, body)
    ensures body.None? ==> r == Some(NoDataProvided)
    ensures body.Some? && body.value.items == [] ==> r == Some(NoItemsInCart)
    ensures body.Some? && body.value.items != [] && body.value.total <= 0 ==> r == Some(InvalidTotalAmount)
    ensures (body.Some? && body.value.items != [] && body.value.total > 0 &&
             IsDue(body.value.status) && !Truthy(body.value.customerId)) ==> r == Some(CustomerIdRequired)
    ensures (body.Some? && body.value.items != [] && body.value.total > 0 &&
             !(IsDue(body.value.status) && !Truthy(body.value.customerId)) &&
             FirstItemError(products, body.value.items).Some?) ==>
      r == FirstItemError(products, body.value.items)
    ensures (body.Some? && body.value.items != [] && body.value.total > 0 &&
             IsDue(body.value.status) && Truthy(body.value.customerId) &&
             FirstItemError(products, body.value.items).None? &&
             body.value.customerId.value !in customers) ==> r == Some(CustomerNotFound)
    ensures r == Some(CustomerNotFound) ==>
      forall k :: 0 <= k < |body.value.items| ==> ItemAdmissible(products, body.value.items[k])
  {
    if body.None? then Some(NoDataProvided)
    else
      var req := body.value;
      if req.items == [] then Some(NoItemsInCart)
      else if req.total <= 0 then Some(InvalidTotalAmount)
      else if IsDue(req.status) && !Truthy(req.customerId) then Some(CustomerIdRequired)
      else if FirstItemError(products, req.items).Some? then FirstItemError(products, req.items)
      else if IsDue(req.status) && req.customerId.value !in customers then Some(CustomerNotFound)
      else None
  }

  /** Every item has an int id and an int quantity. */
  predicate WellTyped(items: seq<RawItem>) {
    forall k :: 0 <= k < |items| ==> items[k].id.Some? && items[k].quantity.Some?
  }

  /** The items as stored in the sale record and handed to the decrement loop. */
  function LineItems(items: seq<RawItem>): (r: seq<LineItem>)
    requires WellTyped(items)
    ensures |r| == |items|
    ensures forall k :: 0 <= k < |r| ==> r[k] == LineItem(items[k].id.value, items[k].quantity.value)
  {
    seq(|items|, k requires 0 <= k < |items| => LineItem(items[k].id.value, items[k].quantity.value))
  }

  /**
   * The customer table after a committed sale: `UPDATE customers SET total_due =
   * total_due + total WHERE id = ?` for a due sale, nothing otherwise.
   */
  function Credited(customers: map<int, Customer>, req: SaleRequest): (r: map<int, Customer>)
    ensures r.Keys == customers.Keys
    ensures !IsDue(req.status) ==> r == customers
    ensures forall id :: id in customers && (!IsDue(req.status) || req.customerId != Some(id)) ==>
              r[id] == customers[id]
    ensures IsDue(req.status) && req.customerId.Some? && req.customerId.value in customers ==>
              var id := req.customerId.value;
              r[id] == customers[id].(totalDue := customers[id].totalDue + req.total)
  {
    if IsDue(req.status) && req.customerId.Some? && req.customerId.value in customers then
      var id := req.customerId.value;
      customers[id := customers[id].(totalDue := customers[id].totalDue + req.total)]
    else customers
  }

  /** One `UPDATE products SET stock_quantity = stock_quantity - q WHERE id = ?`. */
  function Decrement(products: map<int, Product>, item: LineItem): (r: map<int, Product>)
    ensures r.Keys == products.Keys
    ensures forall id :: id in products && id != item.id ==> r[id] == products[id]
    ensures item.id in products ==>
      && r[item.id].name == products[item.id].name
      && r[item.id].purchasePrice == products[item.id].purchasePrice
      && r[item.id].salePrice == products[item.id].salePrice
      && r[item.id].stock == products[item.id].stock - item.quantity
  {
    if item.id in products then
      products[item.id := products[item.id].(stock := products[item.id].stock - item.quantity)]
    else products
  }

  /** The product table after the decrements of `items`, applied in order. */
  function Decremented(products: map<int, Product>, items: seq<LineItem>): (r: map<int, Product>)
    ensures r.Keys == products.Keys
  {
    if items == [] then products
    else Decrement(Decremented(products, items[..|items| - 1]), items[|items| - 1])
  }

  /** The alert printed after a decrement, read back from the updated table. */
  function AlertAfter(products: map<int, Product>, item: LineItem): (r: seq<Alert>)
    ensures |r| <= 1
    ensures r != [] <==> item.id in products && products[item.id].stock < LowStockThreshold
    ensures r != [] ==> r[0].name == products[item.id].name && r[0].remaining == products[item.id].stock
  {
    if item.id in products && products[item.id].stock < LowStockThreshold then
      [LowStockAlert(products[item.id].name, products[item.id].stock)]
    else []
  }

  /** The alerts printed by the decrement loop over `items`, in item order. */
  function StockAlerts(products: map<int, Product>, items: seq<LineItem>): (r: seq<Alert>)
    ensures |r| <= |items|
  {
    if items == [] then []
    else StockAlerts(products, items[..|items| - 1]) + AlertAfter(Decremented(products, items), items[|items| - 1])
  }

  /** The sum of the quantities of the items naming `id`. */
  function QuantityOf(items: seq<LineItem>, id: int): (r: int)
    ensures (forall k :: 0 <= k < |items| ==> items[k].id != id) ==> r == 0
    ensures (forall k :: 0 <= k < |items| ==> items[k].quantity >= 0) ==> r >= 0
  {
    if items == [] then 0
    else
      var n := |items| - 1;
      QuantityOf(items[..n], id) + (if items[n].id == id then items[n].quantity else 0)
  }

  /**
   * The decrement loop takes from each product the summed quantity of the items
   * naming it, and changes nothing else: no product appears or disappears, no
   * name or price changes, and a product no item names keeps its stock.
   */
  lemma {:induction false} DecrementedStock(products: map<int, Product>, items: seq<LineItem>)
    ensures forall id :: id in products ==>
      Decremented(products, items)[id] == products[id].(stock := products[id].stock - QuantityOf(items, id))
  {
    if items != [] {
      DecrementedStock(products, items[..|items| - 1]);
    }
  }

  /** Ids that no two items share. */
  predicate DistinctIds(items: seq<LineItem>) {
    forall i, j :: 0 <= i < j < |items| ==> items[i].id != items[j].id
  }

  lemma {:induction false} QuantityOfDistinct(items: seq<LineItem>, k: int)
    requires DistinctIds(items)
    requires 0 <= k < |items|
    ensures QuantityOf(items, items[k].id) == items[k].quantity
  {
    var n := |items| - 1;
    if k < n {
      QuantityOfDistinct(items[..n], k);
    } else {
      assert forall j :: 0 <= j < n ==> items[..n][j].id != items[k].id;
    }
  }

  /**
   * A committed sale whose items name pairwise distinct products leaves no stock
   * negative, because each item was checked against the stock it takes from.
   */
  lemma DistinctSaleKeepsStock(products: map<int, Product>, customers: map<int, Customer>, req: SaleRequest)
    requires SaleCheck(products, customers, Some(req)) == None
    requires forall id :: id in products ==> products[id].stock >= 0
    requires DistinctIds(LineItems(req.items))
    ensures forall id :: id in Decremented(products, LineItems(req.items)) ==>
      Decremented(products, LineItems(req.items))[id].stock >= 0
  {
    var items := LineItems(req.items);
    DecrementedStock(products, items);
    forall id | id in products
      ensures QuantityOf(items, id) <= products[id].stock
    {
      if k :| 0 <= k < |items| && items[k].id == id {
        QuantityOfDistinct(items, k);
        assert ItemAdmissible(products, req.items[k]);
      }
    }
  }

  /**
   * Items are checked only against the pre-sale stock, so a request that names one
   * product twice passes the checks and overdraws it: 3 in stock, two items of 2.
   */
  lemma RepeatedIdOverdraws()
    ensures var products := map[1 := Product("Rice 1kg", 40, 50, 3)];
            var req := SaleRequest([RawItem(Some(1), Some(2)), RawItem(Some(1), Some(2))], 100, "cash", None);
            && SaleCheck(products, map[], Some(req)) == None
            && Decremented(products, LineItems(req.items))[1].stock == -1
  {
    var products := map[1 := Product("Rice 1kg", 40, 50, 3)];
    var req := SaleRequest([RawItem(Some(1), Some(2)), RawItem(Some(1), Some(2))], 100, "cash", None);
    var items := LineItems(req.items);
    assert items == [LineItem(1, 2), LineItem(1, 2)];
    assert SaleAdmissible(products, map[], Some(req));
    DecrementedStock(products, items);
    assert items[..1] == [LineItem(1, 2)] && items[..0] == [];
    assert QuantityOf(items, 1) == 4;
  }

  /**
   * update_stock checks nothing: an item asking for more than a product holds
   * drives that product's stock below zero.
   */
  lemma UpdateStockCanGoNegative(products: map<int, Product>, items: seq<LineItem>, id: int)
    requires id in products
    requires QuantityOf(items, id) > products[id].stock
    ensures Decremented(products, items)[id].stock < 0
  {
    DecrementedStock(products, items);
  }

  /** An item naming an unknown product changes no stock and prints no alert. */
  lemma UnknownItemIsSkipped(products: map<int, Product>, items: seq<LineItem>, item: LineItem)
    requires item.id !in products
    ensures Decremented(products, items + [item]) == Decremented(products, items)
    ensures StockAlerts(products, items + [item]) == StockAlerts(products, items)
  {
    DecrementedStock(products, items);
    assert (items + [item])[..|items|] == items;
  }

  /** The stock of the product item k names, right after item k's decrement. */
  function StockAfterItem(products: map<int, Product>, items: seq<LineItem>, k: int): int
    requires 0 <= k < |items| && items[k].id in products
  {
    products[items[k].id].stock - QuantityOf(items[..k + 1], items[k].id)
  }

  /**
   * The alerts as a function of the pre-sale table alone: item k alerts exactly
   * when its product's pre-sale stock, less every quantity of that product up to
   * and including item k, is below the threshold.
   */
  function ExpectedAlerts(products: map<int, Product>, items: seq<LineItem>): seq<Alert> {
    if items == [] then []
    else
      var n := |items| - 1;
      var id := items[n].id;
      ExpectedAlerts(products, items[..n]) +
        (if id in products && StockAfterItem(products, items, n) < LowStockThreshold
         then [LowStockAlert(products[id].name, StockAfterItem(products, items, n))]
         else [])
  }

  /** The decrement loop prints exactly the alerts ExpectedAlerts lists, in item order. */
  lemma {:induction false} StockAlertsFromPreSaleStock(products: map<int, Product>, items: seq<LineItem>)
    ensures StockAlerts(products, items) == ExpectedAlerts(products, items)
  {
    if items != [] {
      var n := |items| - 1;
      StockAlertsFromPreSaleStock(products, items[..n]);
      DecrementedStock(products, items);
      assert items[..n + 1] == items;
      var id := items[n].id;
      if id in products {
        assert Decremented(products, items)[id].stock == StockAfterItem(products, items, n);
      }
    }
  }

  /**
   * With distinct ids each alert carries its product's pre-sale stock less that
   * item's quantity; an item alerts exactly when that number is below 5.
   */
  lemma DistinctItemAlert(products: map<int, Product>, items: seq<LineItem>, k: int)
    requires DistinctIds(items)
    requires 0 <= k < |items| && items[k].id in products
    ensures StockAfterItem(products, items, k) == products[items[k].id].stock - items[k].quantity
  {
    assert DistinctIds(items[..k + 1]);
    QuantityOfDistinct(items[..k + 1], k);
  }

  /** Selling 10 of the 100 "Rice 1kg" leaves 90 and prints nothing. */
  lemma RiceSaleExample()
    ensures var products := map[1 := Product("Rice 1kg", 40, 50, 100)];
            && Decremented(products, [LineItem(1, 10)])[1].stock == 90
            && StockAlerts(products, [LineItem(1, 10)]) == []
  {
    var products := map[1 := Product("Rice 1kg", 40, 50, 100)];
    assert [LineItem(1, 10)][..0] == [];
  }

  /** Selling 98 of 100 leaves 2 and prints one alert for 2 units. */
  lemma LastUnitsAlertExample()
    ensures var products := map[1 := Product("Rice 1kg", 40, 50, 100)];
            && Decremented(products, [LineItem(1, 98)])[1].stock == 2
            && StockAlerts(products, [LineItem(1, 98)]) == [LowStockAlert("Rice 1kg", 2)]
  {
    var products := map[1 := Product("Rice 1kg", 40, 50, 100)];
    assert [LineItem(1, 98)][..0] == [];
  }
}
