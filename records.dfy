/**
 * The entities of the point-of-sale store and the request validators of the
 * record services (add_product, update_product, add_customer, add_expense).
 *
 * Money is counted in the smallest currency unit, as an unbounded int.
 */
module Records {
  import opened Wrappers

  /** A moment in time: `day` is the calendar date, `second` the time of day. */
  datatype Timestamp = Timestamp(day: int, second: int)

  datatype Product = Product(name: string, purchasePrice: int, salePrice: int, stock: int)

  datatype Customer = Customer(name: string, phone: string, totalDue: int)

  /** One {id, quantity} entry of a committed sale. */
  datatype LineItem = LineItem(id: int, quantity: int)

  datatype Sale = Sale(items: seq<LineItem>, total: int, timestamp: Timestamp,
                       customerId: Option<int>, status: string)

  datatype Expense = Expense(category: string, amount: int, description: string, timestamp: Timestamp)

  /** The console line "LOW STOCK ALERT: <name> - Only <remaining> units left!". */
  datatype Alert = LowStockAlert(name: string, remaining: int)

  /** The messages of the 400 responses. */
  datatype ApiError =
    | NoDataProvided
    | ProductNameRequired
    | InvalidPriceOrQuantity
    | NegativePurchasePrice
    | NegativeSalePrice
    | NegativeStock
    | CustomerNameRequired
    | CategoryRequired
    | InvalidAmount
    | NonPositiveAmount
    | NoItemsInCart
    | InvalidTotalAmount
    | CustomerIdRequired
    | InvalidItemData
    | InvalidQuantity
    | UnknownProduct(id: int)
    | InsufficientStock(name: string, available: int)
    | CustomerNotFound

  /** What a request handler answers: 200 with or without a new id, 400, or 404. */
  datatype Response = Accepted | Created(id: int) | BadRequest(error: ApiError) | NotFound

  /**
   * The ASCII characters Python's str.strip() removes: space, \t, \n, \v, \f, \r
   * and the four separators \x1c to \x1f.
   */
  predicate IsSpace(c: char) {
    || c == ' ' || c == '\t' || c == '\n' || c == '\r' || c == '\U{000B}' || c == '\U{000C}'
    || ('\U{001C}' <= c <= '\U{001F}')
  }

  /** Drops leading white space: what is left is a suffix of s. */
  function TrimStart(s: string): (r: string)
    ensures |r| <= |s| && r == s[|s| - |r|..]
    ensures forall k :: 0 <= k < |s| - |r| ==> IsSpace(s[k])
    ensures r == [] || !IsSpace(r[0])
  {
    if s != [] && IsSpace(s[0]) then TrimStart(s[1..]) else s
  }

  /** Drops trailing white space: what is left is a prefix of s. */
  function TrimEnd(s: string): (r: string)
    ensures |r| <= |s| && r == s[..|r|]
    ensures forall k :: |r| <= k < |s| ==> IsSpace(s[k])
    ensures r == [] || !IsSpace(r[|r| - 1])
  {
    if s != [] && IsSpace(s[|s| - 1]) then TrimEnd(s[..|s| - 1]) else s
  }

  /** r is the slice of s starting at i, with only white space before and after it. */
  predicate PaddedAt(s: string, i: int, r: string) {
    && 0 <= i <= |s| - |r| && r == s[i..i + |r|]
    && (forall k :: 0 <= k < i ==> IsSpace(s[k]))
    && (forall k :: i + |r| <= k < |s| ==> IsSpace(s[k]))
  }

  /** Python's str.strip(). */
  function Trim(s: string): (r: string)
    ensures r == [] || (!IsSpace(r[0]) && !IsSpace(r[|r| - 1]))
  {
    TrimEnd(TrimStart(s))
  }

  /**
   * What strip() keeps is s less its leading and trailing white space: a slice
   * of s with only white space before and after it.
   */
  lemma TrimIsPadded(s: string)
    ensures exists i :: PaddedAt(s, i, Trim(s))
  {
    var t := TrimStart(s);
    assert PaddedAt(s, |s| - |t|, Trim(s));
  }

  /** A name is rejected exactly when it is empty or all white space. */
  lemma TrimEmptyIff(s: string)
    ensures Trim(s) == [] <==> forall k :: 0 <= k < |s| ==> IsSpace(s[k])
  {
    var t := TrimStart(s);
    if t != [] {
      assert t[0] == s[|s| - |t|];
    }
  }

  /** A numeric request field after Python's float()/int() conversion. */
  datatype NumberField = Absent | Malformed | Num(value: int)

  /** `dflt` stands for a field the request left out. */
  function OrDefault(f: NumberField, dflt: NumberField): NumberField {
    if f.Absent? then dflt else f
  }

  /** The body of add_product and update_product; a missing name is "". */
  datatype ProductBody = ProductBody(name: string, purchasePrice: NumberField,
                                     salePrice: NumberField, stock: NumberField)

  datatype CustomerBody = CustomerBody(name: string, phone: string)

  datatype ExpenseBody = ExpenseBody(category: string, amount: NumberField, description: string)

  /** What the store may hold for a product: a name and no negative price or stock. */
  predicate WellFormedProduct(p: Product) {
    p.name != [] && p.purchasePrice >= 0 && p.salePrice >= 0 && p.stock >= 0
  }

  /**
   * The field checks of add_product (a left-out number reads as `absent` = Num(0))
   * and update_product (a left-out number reads as `absent` = Malformed): the trimmed
   * name, then the three conversions, then the three ranges in order.
   */
  function ProductFields(body: ProductBody, absent: NumberField): (r: Result<Product, ApiError>)
    requires !absent.Absent?
    ensures r.Success? <==>
      && Trim(body.name) != []
      && OrDefault(body.purchasePrice, absent).Num? && OrDefault(body.purchasePrice, absent).value >= 0
      && OrDefault(body.salePrice, absent).Num? && OrDefault(body.salePrice, absent).value >= 0
      && OrDefault(body.stock, absent).Num? && OrDefault(body.stock, absent).value >= 0
    ensures r.Success? ==>
      && WellFormedProduct(r.value)
      && r.value.name == Trim(body.name)
      && r.value == Product(Trim(body.name), OrDefault(body.purchasePrice, absent).value,
                            OrDefault(body.salePrice, absent).value, OrDefault(body.stock, absent).value)
    ensures Trim(body.name) == [] ==> r == Failure(ProductNameRequired)
    ensures r.Failure? && r.error != ProductNameRequired ==> Trim(body.name) != []
    ensures r == Failure(InvalidPriceOrQuantity) <==>
      && Trim(body.name) != []
      && !(OrDefault(body.purchasePrice, absent).Num? && OrDefault(body.salePrice, absent).Num?
           && OrDefault(body.stock, absent).Num?)
    ensures (Trim(body.name) != [] && OrDefault(body.purchasePrice, absent).Num?
             && OrDefault(body.salePrice, absent).Num? && OrDefault(body.stock, absent).Num?) ==>
      var purchase := OrDefault(body.purchasePrice, absent).value;
      var sale := OrDefault(body.salePrice, absent).value;
      var stock := OrDefault(body.stock, absent).value;
      && (purchase < 0 ==> r == Failure(NegativePurchasePrice))
      && (purchase >= 0 && sale < 0 ==> r == Failure(NegativeSalePrice))
      && (purchase >= 0 && sale >= 0 && stock < 0 ==> r == Failure(NegativeStock))
  {
    var name := Trim(body.name);
    var purchase := OrDefault(body.purchasePrice, absent);
    var sale := OrDefault(body.salePrice, absent);
    var stock := OrDefault(body.stock, absent);
    if name == [] then Failure(ProductNameRequired)
    else if !purchase.Num? || !sale.Num? || !stock.Num? then Failure(InvalidPriceOrQuantity)
    else if purchase.value < 0 then Failure(NegativePurchasePrice)
    else if sale.value < 0 then Failure(NegativeSalePrice)
    else if stock.value < 0 then Failure(NegativeStock)
    else Success(Product(name, purchase.value, sale.value, stock.value))
  }

  /** add_customer: a trimmed, non-empty name; every new customer owes nothing. */
  function CustomerFields(body: CustomerBody): (r: Result<Customer, ApiError>)
    ensures r.Success? <==> Trim(body.name) != []
    ensures r.Failure? ==> r.error == CustomerNameRequired
    ensures r.Success? ==>
      && r.value.name != [] && r.value.name == Trim(body.name)
      && r.value.phone == Trim(body.phone) && r.value.totalDue == 0
  {
    var name := Trim(body.name);
    if name == [] then Failure(CustomerNameRequired)
    else Success(Customer(name, Trim(body.phone), 0))
  }

  /** add_expense: a trimmed, non-empty category, then an amount (left out: 0) above zero. */
  function ExpenseFields(body: ExpenseBody, now: Timestamp): (r: Result<Expense, ApiError>)
    ensures r.Success? <==>
      && Trim(body.category) != []
      && OrDefault(body.amount, Num(0)).Num? && OrDefault(body.amount, Num(0)).value > 0
    ensures r.Success? ==>
      && r.value.category != [] && r.value.amount > 0 && r.value.timestamp == now
      && r.value.category == Trim(body.category) && r.value.description == Trim(body.description)
      && r.value.amount == OrDefault(body.amount, Num(0)).value
    ensures Trim(body.category) == [] ==> r == Failure(CategoryRequired)
    ensures body.amount == Malformed && Trim(body.category) != [] ==> r == Failure(InvalidAmount)
    ensures (Trim(body.category) != [] && OrDefault(body.amount, Num(0)).Num?
             && OrDefault(body.amount, Num(0)).value <= 0) ==> r == Failure(NonPositiveAmount)
  {
    var category := Trim(body.category);
    var amount := OrDefault(body.amount, Num(0));
    if category == [] then Failure(CategoryRequired)
    else if !amount.Num? then Failure(InvalidAmount)
    else if amount.value <= 0 then Failure(NonPositiveAmount)
    else Success(Expense(category, amount.value, Trim(body.description), now))
  }
}
