/** The entities of the food-cart app (restaurants, products, menu items, orders and their
    line items), the field constraints declared on them, the `available()` product filter
    and the `total_price` annotation. Ids are abstract naturals and prices are integer cents. */
module Catalog {
  import opened Wrappers

  type RestaurantId = nat
  type ProductId = nat
  type Cents = nat

  datatype Restaurant = Restaurant(id: RestaurantId, name: string, address: string, contactPhone: string)

  datatype ProductCategory = ProductCategory(id: nat, name: string)

  datatype Product = Product(
    id: ProductId,
    name: string,
    category: Option<ProductCategory>,
    price: Cents,
    image: string,
    specialStatus: bool,
    description: string)

  /** A row of the menu table: whether `restaurant` currently sells `product`. */
  datatype MenuItem = MenuItem(restaurant: Restaurant, product: ProductId, availability: bool)

  // ---------------------------------------------------------------------------
  // Menu items: unique per (restaurant, product), availability defaults to true

  predicate SamePair(a: MenuItem, b: MenuItem) {
    a.restaurant.id == b.restaurant.id && a.product == b.product
  }

  /** The `unique_together` constraint on (restaurant, product). */
  ghost predicate MenuPairsUnique(menu: seq<MenuItem>) {
    forall i, j :: 0 <= i < j < |menu| ==> !SamePair(menu[i], menu[j])
  }

  predicate HasPair(menu: seq<MenuItem>, r: RestaurantId, p: ProductId) {
    exists i :: 0 <= i < |menu| && menu[i].restaurant.id == r && menu[i].product == p
  }

  /** Inserting a menu item: the database refuses a second row for the same pair, and a row
      created without an explicit flag is on sale. */
  function CreateMenuItem(menu: seq<MenuItem>, r: Restaurant, p: ProductId, availability: bool := true)
    : (res: Result<seq<MenuItem>>)
    ensures res.Ok? <==> !HasPair(menu, r.id, p)
    ensures res.Raise? ==> res.exc == IntegrityError
    ensures res.Ok? ==> |res.value| == |menu| + 1 && res.value[..|menu|] == menu
    ensures res.Ok? ==> res.value[|menu|] == MenuItem(r, p, availability)
    ensures MenuPairsUnique(menu) && res.Ok? ==> MenuPairsUnique(res.value)
  {
    if HasPair(menu, r.id, p) then Raise(IntegrityError) else Ok(menu + [MenuItem(r, p, availability)])
  }

  lemma CreatedMenuItemIsOnSale(menu: seq<MenuItem>, r: Restaurant, p: ProductId)
    requires !HasPair(menu, r.id, p)
    ensures CreateMenuItem(menu, r, p).Ok?
    ensures OnSale(CreateMenuItem(menu, r, p).value, p)
  {
    var m := CreateMenuItem(menu, r, p).value;
    assert m[|menu|].product == p && m[|menu|].availability;
  }

  // ---------------------------------------------------------------------------
  // ProductQuerySet.available()

  /** Some menu item offers product `p` with `availability=True`. */
  predicate OnSale(menu: seq<MenuItem>, p: ProductId) {
    exists i :: 0 <= i < |menu| && menu[i].product == p && menu[i].availability
  }

  /** The products whose id occurs among the available menu items, in the given order. */
  function Available(products: seq<Product>, menu: seq<MenuItem>): (r: seq<Product>)
    ensures forall q :: q in r <==> q in products && OnSale(menu, q.id)
    ensures |r| <= |products|
  {
    if products == [] then []
    else (if OnSale(menu, products[0].id) then [products[0]] else []) + Available(products[1..], menu)
  }

  // ---------------------------------------------------------------------------
  // Order

  const NEW: int := 0
  const CONFIRMED: int := 1
  const COOKING: int := 2
  const DELIVERY: int := 3
  const FINISHED: int := 4
  const STATUS_CHOICES: set<int> := {NEW, CONFIRMED, COOKING, DELIVERY, FINISHED}

  const CREDIT_CARD: int := 0
  const CASH: int := 1
  const PAYMENT_CHOICES: set<int> := {CREDIT_CARD, CASH}

  /** An order row. `payment` is optional because a row can be built without it; the database
      then refuses it. Timestamps are abstract instants. */
  datatype OrderRow = OrderRow(
    id: nat,
    firstName: string,
    lastName: string,
    phoneNumber: string,
    address: string,
    comment: string,
    status: int,
    payment: Option<int>,
    restaurant: Option<RestaurantId>,
    registeredAt: int,
    calledAt: Option<int>,
    deliveredAt: Option<int>)

  /** The field checks `full_clean` runs on Order (not `create`): the required text fields are
      not blank and fit their `max_length`, the address has at least 10 characters, and status
      and payment are among their choices. The `max_length` of the comment, a TextField, is not
      enforced; the phone number's format is checked by an external library, of which only
      the non-blank rule is modelled. */
  predicate OrderFieldsValid(o: OrderRow) {
    && 1 <= |o.firstName| <= 20
    && 1 <= |o.lastName| <= 40
    && |o.phoneNumber| >= 1
    && 10 <= |o.address| <= 100
    && o.status in STATUS_CHOICES
    && o.payment.Some? && o.payment.value in PAYMENT_CHOICES
  }

  /** What the database itself enforces on insert: NOT NULL and the CHECK of positive integer fields. */
  predicate OrderInsertable(o: OrderRow) {
    o.payment.Some? && o.payment.value >= 0 && o.status >= 0
  }

  /** `Order.objects.create(...)` with the four customer fields and, optionally, a payment:
      every other field takes its declared default. */
  function NewOrderRow(id: nat, firstName: string, lastName: string, phoneNumber: string,
                       address: string, payment: Option<int>, now: int): (o: OrderRow)
    ensures o.status == NEW && o.status in STATUS_CHOICES
    ensures o.restaurant.None? && o.calledAt.None? && o.deliveredAt.None? && o.registeredAt == now
    ensures OrderInsertable(o) <==> payment.Some? && payment.value >= 0
    ensures OrderFieldsValid(o) <==>
      && 1 <= |firstName| <= 20 && 1 <= |lastName| <= 40 && |phoneNumber| >= 1
      && 10 <= |address| <= 100 && payment in {Some(CREDIT_CARD), Some(CASH)}
  {
    OrderRow(id, firstName, lastName, phoneNumber, address, "", NEW, payment, None, now, None, None)
  }

  // ---------------------------------------------------------------------------
  // OrderProduct (a line item)

  /** A line item. `staticPrice` is optional because a row can be built without it. */
  datatype LineRow = LineRow(order: nat, product: ProductId, amount: int, staticPrice: Option<int>)

  /** The field validators on OrderProduct: amount in [1, 10], a non-negative price. */
  predicate LineFieldsValid(l: LineRow) {
    1 <= l.amount <= 10 && l.staticPrice.Some? && l.staticPrice.value >= 0
  }

  /** What the database enforces on insert: `amount` is a positive-integer column and
      `static_price` is NOT NULL. */
  predicate LineInsertable(l: LineRow) {
    l.amount >= 0 && l.staticPrice.Some?
  }

  // ---------------------------------------------------------------------------
  // OrderQuerySet.with_total_prices(): SUM over the order's line items

  /** The non-null static prices of the lines of `order`, in table order. */
  function PricedLines(lines: seq<LineRow>, order: nat): (ps: seq<int>)
    ensures |ps| <= |lines|
    ensures forall x :: x in ps <==>
      exists k :: 0 <= k < |lines| && lines[k].order == order && lines[k].staticPrice == Some(x)
  {
    if lines == [] then []
    else
      var rest := PricedLines(lines[..|lines| - 1], order);
      var last := lines[|lines| - 1];
      assert forall k :: 0 <= k < |lines| - 1 ==> lines[..|lines| - 1][k] == lines[k];
      if last.order == order && last.staticPrice.Some? then rest + [last.staticPrice.value] else rest
  }

  function Sum(xs: seq<int>): int {
    if xs == [] then 0 else Sum(xs[..|xs| - 1]) + xs[|xs| - 1]
  }

  /** SQL `SUM(static_price)` over the order's lines: NULL when no line has a price. */
  function TotalPrice(lines: seq<LineRow>, order: nat): (r: Option<int>)
    ensures r.Some? <==> exists k :: 0 <= k < |lines| && lines[k].order == order && lines[k].staticPrice.Some?
  {
    var ps := PricedLines(lines, order);
    assert ps != [] ==> ps[0] in ps;
    if ps == [] then None else Some(Sum(ps))
  }

  lemma {:induction false} SumNonNegative(xs: seq<int>)
    requires forall k :: 0 <= k < |xs| ==> xs[k] >= 0
    ensures Sum(xs) >= 0
  {
    if xs != [] {
      SumNonNegative(xs[..|xs| - 1]);
    }
  }

  /** The total is NULL exactly when the order has no priced line, and is never negative
      when no static price is. */
  lemma TotalPriceMeaning(lines: seq<LineRow>, order: nat)
    ensures TotalPrice(lines, order).None? <==>
      forall k :: 0 <= k < |lines| && lines[k].order == order ==> lines[k].staticPrice.None?
    ensures (forall k :: 0 <= k < |lines| && lines[k].staticPrice.Some? ==> lines[k].staticPrice.value >= 0) ==>
      TotalPrice(lines, order).Some? ==> TotalPrice(lines, order).value >= 0
  {
    var ps := PricedLines(lines, order);
    if ps != [] {
      assert ps[0] in ps;
      if forall k :: 0 <= k < |lines| && lines[k].staticPrice.Some? ==> lines[k].staticPrice.value >= 0 {
        forall k | 0 <= k < |ps| ensures ps[k] >= 0 {
          assert ps[k] in ps;
        }
        SumNonNegative(ps);
      }
    }
  }

  /** Appending a line changes the total only when it belongs to the order and has a price,
      and then adds exactly that price. */
  lemma TotalPriceAppend(lines: seq<LineRow>, l: LineRow, order: nat)
    ensures l.order != order || l.staticPrice.None? ==> TotalPrice(lines + [l], order) == TotalPrice(lines, order)
    ensures l.order == order && l.staticPrice.Some? ==>
      TotalPrice(lines + [l], order) ==
        Some(l.staticPrice.value + (if TotalPrice(lines, order).Some? then TotalPrice(lines, order).value else 0))
  {
    assert (lines + [l])[..|lines + [l]| - 1] == lines;
  }

  /** The names through which a lookup starting at Order reaches OrderProduct rows: only the
      reverse relation that OrderProduct.order declares with `related_name`. */
  const LINE_RELATIONS: set<string> := {"order_products"}

  /** `annotate(total_price=Sum(relation + "__static_price"))` for one order: the lookup is
      resolved first, and a name that is not a relation to OrderProduct is a FieldError. */
  function AnnotateTotalPrice(relation: string, lines: seq<LineRow>, order: nat): (r: Result<Option<int>>)
    ensures r.Ok? <==> relation in LINE_RELATIONS
    ensures r.Raise? ==> r.exc == FieldError
  {
    if relation in LINE_RELATIONS then Ok(TotalPrice(lines, order)) else Raise(FieldError)
  }

  /** `with_total_prices` as written: the lookup is `products__static_price`. */
  function WithTotalPricesAsWritten(lines: seq<LineRow>, order: nat): Result<Option<int>> {
    AnnotateTotalPrice("products", lines, order)
  }

  /** `with_total_prices` with the lookup through the declared relation name. */
  function WithTotalPrices(lines: seq<LineRow>, order: nat): Result<Option<int>> {
    AnnotateTotalPrice("order_products", lines, order)
  }

  /** As written, the annotation fails for every order and every table: "products" names
      no relation of Order. With the declared name it is the SQL sum. */
  lemma TotalPriceLookupMismatch(lines: seq<LineRow>, order: nat)
    ensures WithTotalPricesAsWritten(lines, order) == Raise(FieldError)
    ensures WithTotalPrices(lines, order) == Ok(TotalPrice(lines, order))
  {
    assert "products" != "order_products" by {
      assert |"products"| != |"order_products"|;
    }
  }
}
