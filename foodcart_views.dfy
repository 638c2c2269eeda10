/** The customer API: the product listing and the order registration endpoint. */
module FoodcartViews {
  import opened Wrappers
  import opened Catalog

  // ---------------------------------------------------------------------------
  // product_list_api

  datatype CategoryDump = CategoryDump(id: nat, name: string)
  datatype RestaurantDump = RestaurantDump(id: nat, name: string)

  /** The dict dumped for one product; `image` stands for the image's URL. */
  datatype ProductDump = ProductDump(
    id: ProductId,
    name: string,
    price: Cents,
    specialStatus: bool,
    description: string,
    category: Option<CategoryDump>,
    image: string,
    restaurant: RestaurantDump)

  /** The dict for one product: its own fields, the category's id and name or null when the
      product has none, and under "restaurant" the product's own id and name. */
  function Dump(p: Product): (d: ProductDump)
    ensures d.id == p.id && d.name == p.name && d.price == p.price
    ensures d.specialStatus == p.specialStatus && d.description == p.description && d.image == p.image
    ensures d.category.None? <==> p.category.None?
    ensures p.category.Some? ==> d.category.value.id == p.category.value.id && d.category.value.name == p.category.value.name
    ensures d.restaurant.id == p.id && d.restaurant.name == p.name
  {
    ProductDump(
      p.id, p.name, p.price, p.specialStatus, p.description,
      if p.category.Some? then Some(CategoryDump(p.category.value.id, p.category.value.name)) else None,
      p.image,
      RestaurantDump(p.id, p.name))
  }

  /** `product_list_api`: one dict per available product, in the order of `products`. */
  method ProductListApi(products: seq<Product>, menu: seq<MenuItem>) returns (dumped: seq<ProductDump>)
    ensures |dumped| == |Available(products, menu)| <= |products|
    ensures forall k :: 0 <= k < |dumped| ==> dumped[k] == Dump(Available(products, menu)[k])
    ensures forall d :: d in dumped <==> exists q :: q in products && OnSale(menu, q.id) && d == Dump(q)
  {
    var available := Available(products, menu);
    dumped := [];
    for i := 0 to |available|
      invariant |dumped| == i
      invariant forall k :: 0 <= k < i ==> dumped[k] == Dump(available[k])
    {
      dumped := dumped + [Dump(available[i])];
    }
    forall d | d in dumped ensures exists q :: q in products && OnSale(menu, q.id) && d == Dump(q) {
      var k :| 0 <= k < |dumped| && dumped[k] == d;
      assert available[k] in available;
    }
    forall q | q in products && OnSale(menu, q.id) ensures Dump(q) in dumped {
      var k :| 0 <= k < |available| && available[k] == q;
      assert dumped[k] == Dump(q);
    }
  }

  // ---------------------------------------------------------------------------
  // register_order: the request body

  /** One entry of the "products" list; a field is None when its key is absent. */
  datatype LineRequest = LineRequest(product: Option<int>, quantity: Option<int>)

  /** The "products" field: absent, present but not a list, or a list of entries. */
  datatype ProductsField = Absent | NotAList | ListOf(entries: seq<LineRequest>)

  /** The request body; a customer field is None when its key is absent. */
  datatype OrderRequest = OrderRequest(
    firstname: Option<string>,
    lastname: Option<string>,
    phonenumber: Option<string>,
    address: Option<string>,
    products: ProductsField)

  datatype Response = Response(status: int, body: string)

  const HTTP_200_OK: int := 200
  const HTTP_400_BAD_REQUEST: int := 400

  predicate KeysPresent(r: OrderRequest) {
    r.firstname.Some? && r.lastname.Some? && r.phonenumber.Some? && r.address.Some?
  }

  /** `not isinstance(order_products, list) or not order_products`. */
  predicate BadProducts(f: ProductsField) {
    !f.ListOf? || f.entries == []
  }

  // ---------------------------------------------------------------------------
  // register_order: the line items

  /** The arguments of `OrderProduct.objects.create(order=order, product=Product.objects.get(pk=...),
      amount=...)` for one entry, evaluated left to right: the row to insert, or the exception
      a missing key or an unknown product raises. `priced` says whether a `static_price` of
      price times quantity is passed. */
  function LineArgs(order: nat, e: LineRequest, products: map<ProductId, Product>, priced: bool): (r: Result<LineRow>)
    ensures e.product.None? ==> r == Raise(KeyError)
    ensures e.product.Some? && (e.product.value < 0 || e.product.value as nat !in products) ==> r == Raise(DoesNotExist)
    ensures r.Raise? ==> r.exc in {KeyError, DoesNotExist}
    ensures r.Ok? <==> e.product.Some? && e.product.value >= 0 && e.product.value as nat in products && e.quantity.Some?
    ensures r.Ok? ==>
      && r.value.order == order && r.value.product == e.product.value && r.value.amount == e.quantity.value
      && (priced <==> r.value.staticPrice.Some?)
      && (priced ==> r.value.staticPrice.value == products[e.product.value as nat].price * e.quantity.value)
  {
    if e.product.None? then Raise(KeyError)
    else if e.product.value < 0 || e.product.value as nat !in products then Raise(DoesNotExist)
    else if e.quantity.None? then Raise(KeyError)
    else
      var pid := e.product.value as nat;
      Ok(LineRow(order, pid, e.quantity.value, if priced then Some(products[pid].price * e.quantity.value) else None))
  }

  /** One entry end to end: the row is written unless evaluating the arguments raises or the
      database refuses it, which it does for a row without a static price or with a negative
      amount. */
  function LineFor(order: nat, e: LineRequest, products: map<ProductId, Product>, priced: bool): (r: Result<LineRow>)
    ensures !priced ==> r.Raise?
    ensures r.Raise? ==> r.exc in {KeyError, DoesNotExist, IntegrityError}
    ensures r.Ok? <==>
      && e.product.Some? && e.product.value >= 0 && e.product.value as nat in products
      && e.quantity.Some? && e.quantity.value >= 0 && priced
    ensures r.Ok? ==>
      && r.value.order == order && r.value.product == e.product.value && r.value.amount == e.quantity.value
      && r.value.staticPrice == Some(products[e.product.value as nat].price * e.quantity.value)
  {
    match LineArgs(order, e, products, priced)
    case Raise(x) => Raise(x)
    case Ok(row) => if LineInsertable(row) then Ok(row) else Raise(IntegrityError)
  }

  /** What the loop over the entries did: the exception that stopped it, if any, and the rows
      it wrote before that. Rows written before a failure stay, since nothing is rolled back. */
  datatype Ingest = Ingest(outcome: Result<()>, written: seq<LineRow>)

  function IngestLines(order: nat, entries: seq<LineRequest>, products: map<ProductId, Product>, priced: bool): (ing: Ingest)
    ensures |ing.written| <= |entries|
    ensures ing.outcome.Raise? ==> ing.outcome.exc in {KeyError, DoesNotExist, IntegrityError}
    ensures forall k :: 0 <= k < |ing.written| ==>
      ing.written[k].order == order && ing.written[k].staticPrice.Some? && ing.written[k].amount >= 0
    decreases |entries|
  {
    if entries == [] then Ingest(Ok(()), [])
    else
      match LineFor(order, entries[0], products, priced)
      case Raise(e) => Ingest(Raise(e), [])
      case Ok(row) =>
        var rest := IngestLines(order, entries[1..], products, priced);
        Ingest(rest.outcome, [row] + rest.written)
  }

  /** One step of `IngestLines` on a suffix of the entries. */
  lemma IngestLinesStep(order: nat, entries: seq<LineRequest>, products: map<ProductId, Product>, priced: bool, i: nat)
    requires i < |entries|
    ensures var line := LineFor(order, entries[i], products, priced);
      var rest := IngestLines(order, entries[i + 1..], products, priced);
      IngestLines(order, entries[i..], products, priced)
      == if line.Raise? then Ingest(Raise(line.exc), []) else Ingest(rest.outcome, [line.value] + rest.written)
  {
    assert entries[i..][0] == entries[i] && entries[i..][1..] == entries[i + 1..];
  }

  /** The loop completes exactly when every entry gives a row, and then it wrote one row per
      entry, in order. Otherwise it wrote the rows of the entries before the first one that
      fails, and raised what that entry raises. */
  lemma {:induction false} IngestLinesMeaning(order: nat, entries: seq<LineRequest>, products: map<ProductId, Product>, priced: bool)
    ensures var ing := IngestLines(order, entries, products, priced);
      && (ing.outcome.Ok? <==> forall k :: 0 <= k < |entries| ==> LineFor(order, entries[k], products, priced).Ok?)
      && |ing.written| <= |entries|
      && (forall k :: 0 <= k < |ing.written| ==> LineFor(order, entries[k], products, priced) == Ok(ing.written[k]))
      && (ing.outcome.Ok? ==> |ing.written| == |entries|)
      && (ing.outcome.Raise? ==> LineFor(order, entries[|ing.written|], products, priced) == Raise(ing.outcome.exc))
    decreases |entries|
  {
    if entries != [] {
      IngestLinesMeaning(order, entries[1..], products, priced);
      assert forall k :: 1 <= k < |entries| ==> entries[1..][k - 1] == entries[k];
    }
  }

  /** A list of entries that names a product that does not exist is never fully written. */
  lemma UnknownProductRaises(order: nat, entries: seq<LineRequest>, products: map<ProductId, Product>, priced: bool, k: nat)
    requires k < |entries| && entries[k].product.Some?
    requires entries[k].product.value < 0 || entries[k].product.value as nat !in products
    ensures IngestLines(order, entries, products, priced).outcome.Raise?
    ensures |IngestLines(order, entries, products, priced).written| <= k
  {
    IngestLinesMeaning(order, entries, products, priced);
  }

  /** Without a static price no entry is ever written: the first one raises IntegrityError
      unless a missing key or an unknown product raises before it. */
  lemma UnpricedLinesRefused(order: nat, entries: seq<LineRequest>, products: map<ProductId, Product>)
    requires entries != []
    ensures IngestLines(order, entries, products, false).outcome.Raise?
    ensures IngestLines(order, entries, products, false).written == []
  {
  }

  /** `create` does not run the field validators, so a written line item satisfies them exactly
      when its quantity lies in [1, 10]: a quantity of 0 or above 10 is stored as well. */
  lemma WrittenLineValidIff(order: nat, e: LineRequest, products: map<ProductId, Product>)
    requires LineFor(order, e, products, true).Ok?
    ensures LineFieldsValid(LineFor(order, e, products, true).value) <==> 1 <= e.quantity.value <= 10
  {
  }

  // ---------------------------------------------------------------------------
  // The tables the endpoint writes

  class Store {
    var orders: seq<OrderRow>
    var lines: seq<LineRow>
    const products: map<ProductId, Product>

    constructor (products: map<ProductId, Product>)
      ensures orders == [] && lines == [] && this.products == products
    {
      orders := [];
      lines := [];
      this.products := products;
    }

    /** The id the next order row gets (ids count from 1 and rows are never deleted here). */
    function NextOrderId(): nat
      reads this
    {
      |orders| + 1
    }

    /** `Order.objects.create(...)`: the new row, or IntegrityError when the database refuses it. */
    method CreateOrder(firstName: string, lastName: string, phoneNumber: string, address: string,
                       payment: Option<int>, now: int) returns (res: Result<OrderRow>)
      modifies this
      ensures var row := NewOrderRow(old(NextOrderId()), firstName, lastName, phoneNumber, address, payment, now);
        && (OrderInsertable(row) ==> res == Ok(row) && orders == old(orders) + [row])
        && (!OrderInsertable(row) ==> res == Raise(IntegrityError) && orders == old(orders))
      ensures lines == old(lines)
    {
      var row := NewOrderRow(NextOrderId(), firstName, lastName, phoneNumber, address, payment, now);
      if !OrderInsertable(row) {
        return Raise(IntegrityError);
      }
      orders := orders + [row];
      res := Ok(row);
    }

    /** `OrderProduct.objects.create(...)` with the arguments already evaluated. */
    method CreateLine(row: LineRow) returns (res: Result<()>)
      modifies this
      ensures LineInsertable(row) ==> res == Ok(()) && lines == old(lines) + [row]
      ensures !LineInsertable(row) ==> res == Raise(IntegrityError) && lines == old(lines)
      ensures orders == old(orders)
    {
      if !LineInsertable(row) {
        return Raise(IntegrityError);
      }
      lines := lines + [row];
      res := Ok(());
    }

    /** The loop over the entries: the rows written and the exception raised are the ones
        `IngestLines` gives. */
    method CreateLines(order: nat, entries: seq<LineRequest>, priced: bool) returns (res: Result<()>)
      modifies this
      ensures var ing := IngestLines(order, entries, products, priced);
        res == ing.outcome && lines == old(lines) + ing.written
      ensures orders == old(orders)
    {
      ghost var spec := IngestLines(order, entries, products, priced);
      ghost var written: seq<LineRow> := [];
      var i := 0;
      while i < |entries|
        invariant 0 <= i <= |entries|
        invariant orders == old(orders)
        invariant lines == old(lines) + written
        invariant var rest := IngestLines(order, entries[i..], products, priced);
          spec == Ingest(rest.outcome, written + rest.written)
      {
        IngestLinesStep(order, entries, products, priced, i);
        ghost var rest := IngestLines(order, entries[i + 1..], products, priced);
        var args := LineArgs(order, entries[i], products, priced);
        if args.Raise? {
          return Raise(args.exc);
        }
        res := CreateLine(args.value);
        if res.Raise? {
          assert written + [] == written;
          return;
        }
        assert LineFor(order, entries[i], products, priced) == Ok(args.value);
        assert written + ([args.value] + rest.written) == (written + [args.value]) + rest.written;
        written := written + [args.value];
        i := i + 1;
      }
      res := Ok(());
    }

    /** `register_order`, with the payment passed to `Order.objects.create` and whether the line
        items get a static price as parameters. The order row is written before the products
        field is checked, and stays when the request is then refused. */
    method RegisterOrderWith(request: OrderRequest, payment: Option<int>, priced: bool, now: int)
      returns (res: Result<Response>)
      modifies this
      ensures !KeysPresent(request) ==> res == Raise(KeyError) && orders == old(orders) && lines == old(lines)
      ensures KeysPresent(request) ==>
        var row := NewOrderRow(old(NextOrderId()), request.firstname.value, request.lastname.value,
                               request.phonenumber.value, request.address.value, payment, now);
        && (!OrderInsertable(row) ==> res == Raise(IntegrityError) && orders == old(orders) && lines == old(lines))
        && (OrderInsertable(row) ==> orders == old(orders) + [row])
        && (OrderInsertable(row) && BadProducts(request.products) ==>
              res == Ok(Response(HTTP_400_BAD_REQUEST, "Bad products!")) && lines == old(lines))
        && (OrderInsertable(row) && !BadProducts(request.products) ==>
              var ing := IngestLines(row.id, request.products.entries, products, priced);
              && lines == old(lines) + ing.written
              && (ing.outcome.Ok? ==> res == Ok(Response(HTTP_200_OK, "Order placed")))
              && (ing.outcome.Raise? ==> res == Raise(ing.outcome.exc)))
    {
      if !KeysPresent(request) {
        return Raise(KeyError);
      }
      var created := CreateOrder(request.firstname.value, request.lastname.value,
                                 request.phonenumber.value, request.address.value, payment, now);
      if created.Raise? {
        return Raise(created.exc);
      }
      var order := created.value;
      if BadProducts(request.products) {
        return Ok(Response(HTTP_400_BAD_REQUEST, "Bad products!"));
      }
      var outcome := CreateLines(order.id, request.products.entries, priced);
      if outcome.Raise? {
        return Raise(outcome.exc);
      }
      res := Ok(Response(HTTP_200_OK, "Order placed"));
    }

    /** `register_order` as written: `Order.objects.create` is given no payment, which has no
        default and may not be null, so every request with the four keys stops there. */
    method RegisterOrderAsWritten(request: OrderRequest, now: int) returns (res: Result<Response>)
      modifies this
      ensures res == Raise(if KeysPresent(request) then IntegrityError else KeyError)
      ensures orders == old(orders) && lines == old(lines)
    {
      res := RegisterOrderWith(request, None, false, now);
    }

    /** `register_order` as intended: the order is created with a payment method and each line
        item with its static price. A request with the four keys always leaves an order row;
        with a proper products list, one line item per entry follows until an entry fails. */
    method RegisterOrder(request: OrderRequest, payment: int, now: int) returns (res: Result<Response>)
      requires payment in PAYMENT_CHOICES
      modifies this
      ensures !KeysPresent(request) ==> res == Raise(KeyError) && orders == old(orders) && lines == old(lines)
      ensures KeysPresent(request) ==>
        var row := NewOrderRow(old(NextOrderId()), request.firstname.value, request.lastname.value,
                               request.phonenumber.value, request.address.value, Some(payment), now);
        && orders == old(orders) + [row]
        && (BadProducts(request.products) ==>
              res == Ok(Response(HTTP_400_BAD_REQUEST, "Bad products!")) && lines == old(lines))
        && (!BadProducts(request.products) ==>
              var ing := IngestLines(row.id, request.products.entries, products, true);
              && lines == old(lines) + ing.written
              && (res == Ok(Response(HTTP_200_OK, "Order placed")) <==> ing.outcome.Ok?)
              && (ing.outcome.Raise? ==> res == Raise(ing.outcome.exc)))
    {
      res := RegisterOrderWith(request, Some(payment), true, now);
    }
  }
}
