/** `OrderQuerySet.with_restaurants`: for every order, the restaurants that have every
    offered ordered product on sale, each paired with its distance to the delivery address
    and sorted by that distance. */
module Matching {
  import opened Wrappers
  import opened Catalog
  import opened Locations
  import opened Geocoding
  import opened Ranking

  // ---------------------------------------------------------------------------
  // The pieces of the computation, as the source builds them

  /** The queryset `RestaurantMenuItem.filter(availability=True).filter(product__in=...)`. */
  function OrderItems(menu: seq<MenuItem>, ordered: set<ProductId>): (r: seq<MenuItem>)
    ensures forall it :: it in r <==> it in menu && it.availability && it.product in ordered
  {
    if menu == [] then []
    else
      (if menu[0].availability && menu[0].product in ordered then [menu[0]] else [])
      + OrderItems(menu[1..], ordered)
  }

  /** `products`: the distinct products among those menu items. */
  function ProductsOf(items: seq<MenuItem>): (r: set<ProductId>)
    ensures forall k :: 0 <= k < |items| ==> items[k].product in r
    ensures forall p :: p in r ==> exists k :: 0 <= k < |items| && items[k].product == p
  {
    set it | it in items :: it.product
  }

  /** `restaurants_with_product`: the restaurants among those menu items that offer `p`. */
  function RestaurantsWith(items: seq<MenuItem>, p: ProductId): (r: set<Restaurant>)
    ensures forall k :: 0 <= k < |items| && items[k].product == p ==> items[k].restaurant in r
    ensures forall x :: x in r ==> exists k :: 0 <= k < |items| && items[k].product == p && items[k].restaurant == x
  {
    set it | it in items && it.product == p :: it.restaurant
  }

  /** Python's `first.intersection(*others)`. */
  function IntersectionOf(first: set<Restaurant>, others: seq<set<Restaurant>>): (r: set<Restaurant>)
    ensures forall x :: x in r <==> x in first && forall k :: 0 <= k < |others| ==> x in others[k]
  {
    if others == [] then first
    else IntersectionOf(first, others[..|others| - 1]) * others[|others| - 1]
  }

  // ---------------------------------------------------------------------------
  // The specification: which restaurants are suitable, and what a result must be

  /** The ordered products that some restaurant has on sale; the others drop out. */
  function Offered(menu: seq<MenuItem>, ordered: set<ProductId>): set<ProductId> {
    set p | p in ordered && OnSale(menu, p)
  }

  /** Restaurant `r` has an available menu item for product `p`. */
  predicate Sells(menu: seq<MenuItem>, r: Restaurant, p: ProductId) {
    exists i :: 0 <= i < |menu| && menu[i].restaurant == r && menu[i].product == p && menu[i].availability
  }

  /** Some ordered product is offered, and `r` sells every offered ordered product. */
  ghost predicate Suitable(menu: seq<MenuItem>, ordered: set<ProductId>, r: Restaurant) {
    Offered(menu, ordered) != {} && forall p :: p in Offered(menu, ordered) ==> Sells(menu, r, p)
  }

  /** The matcher completes: some ordered product is offered, and the distance from the
      delivery address to every suitable restaurant can be computed from the cache. */
  ghost predicate MatchSucceeds(menu: seq<MenuItem>, ordered: set<ProductId>, orderAddress: string,
                                cache: map<string, Location>, dist: (Coordinates, Coordinates) -> real) {
    Offered(menu, ordered) != {}
    && forall r :: Suitable(menu, ordered, r) ==> CalculateDistance(cache, orderAddress, r.address, dist).Ok?
  }

  /** A single suitable restaurant whose distance cannot be computed, because its address or
      the delivery address is not cached, makes the whole order fail: no restaurant is dropped. */
  lemma UncachedAddressFailsOrder(menu: seq<MenuItem>, ordered: set<ProductId>, orderAddress: string,
                                  cache: map<string, Location>, dist: (Coordinates, Coordinates) -> real, r: Restaurant)
    requires Suitable(menu, ordered, r)
    requires orderAddress !in cache || r.address !in cache
    ensures !MatchSucceeds(menu, ordered, orderAddress, cache, dist)
  {
    assert CalculateDistance(cache, orderAddress, r.address, dist).Raise?;
  }

  /** `s` is a correct `suitable_restaurants_with_distances`: one pair per suitable restaurant,
      with its distance, sorted by non-decreasing distance. */
  ghost predicate Matches(menu: seq<MenuItem>, ordered: set<ProductId>, orderAddress: string,
                          cache: map<string, Location>, dist: (Coordinates, Coordinates) -> real, s: seq<Pair>) {
    && DistinctRestaurants(s)
    && SortedByDistance(s)
    && (forall r :: Suitable(menu, ordered, r) <==> exists k :: 0 <= k < |s| && s[k].0 == r)
    && (forall k :: 0 <= k < |s| ==> CalculateDistance(cache, orderAddress, s[k].0.address, dist) == Ok(s[k].1))
  }

  // ---------------------------------------------------------------------------
  // The matcher for one order

  lemma OfferedIsProductsOf(menu: seq<MenuItem>, ordered: set<ProductId>)
    ensures ProductsOf(OrderItems(menu, ordered)) == Offered(menu, ordered)
  {
    var items := OrderItems(menu, ordered);
    forall p | p in Offered(menu, ordered) ensures p in ProductsOf(items) {
      var i :| 0 <= i < |menu| && menu[i].product == p && menu[i].availability;
      assert menu[i] in items;
    }
  }

  lemma RestaurantsWithIsSells(menu: seq<MenuItem>, ordered: set<ProductId>, p: ProductId, x: Restaurant)
    requires p in ordered
    ensures x in RestaurantsWith(OrderItems(menu, ordered), p) <==> Sells(menu, x, p)
  {
    var items := OrderItems(menu, ordered);
    if Sells(menu, x, p) {
      var i :| 0 <= i < |menu| && menu[i].restaurant == x && menu[i].product == p && menu[i].availability;
      assert menu[i] in items;
    }
  }

  /** The intersection of the per-product restaurant sets is exactly the suitable set. */
  lemma IntersectionIsSuitable(menu: seq<MenuItem>, ordered: set<ProductId>,
                               restaurants: seq<set<Restaurant>>, chosen: seq<ProductId>, x: Restaurant)
    requires |restaurants| == |chosen| > 0
    requires forall k :: 0 <= k < |chosen| ==>
      chosen[k] in Offered(menu, ordered) && restaurants[k] == RestaurantsWith(OrderItems(menu, ordered), chosen[k])
    requires forall p :: p in Offered(menu, ordered) ==> p in chosen
    ensures x in IntersectionOf(restaurants[0], restaurants) <==> Suitable(menu, ordered, x)
  {
    assert chosen[0] in Offered(menu, ordered);
    if x in IntersectionOf(restaurants[0], restaurants) {
      forall p | p in Offered(menu, ordered) ensures Sells(menu, x, p) {
        var k :| 0 <= k < |chosen| && chosen[k] == p;
        assert x in restaurants[k];
        RestaurantsWithIsSells(menu, ordered, p, x);
      }
    }
    if Suitable(menu, ordered, x) {
      forall k | 0 <= k < |restaurants| ensures x in restaurants[k] {
        RestaurantsWithIsSells(menu, ordered, chosen[k], x);
      }
    }
  }

  /** The body of the loop over orders in `with_restaurants`, for one order: the ordered
      products (`order.order_products.values("product")`), the menu, the delivery address and
      the cache give the sorted list of (restaurant, distance) pairs or the exception raised. */
  method MatchOrder(menu: seq<MenuItem>, ordered: set<ProductId>, orderAddress: string,
                    cache: map<string, Location>, dist: (Coordinates, Coordinates) -> real)
    returns (res: Result<seq<Pair>>)
    ensures res == Raise(IndexError) <==> Offered(menu, ordered) == {}
    ensures res.Raise? ==> res.exc == IndexError || res.exc == DoesNotExist
    ensures res.Ok? <==> MatchSucceeds(menu, ordered, orderAddress, cache, dist)
    ensures res.Ok? ==> Matches(menu, ordered, orderAddress, cache, dist, res.value)
  {
    var items := OrderItems(menu, ordered);
    var products := set it | it in items :: it.product;
    OfferedIsProductsOf(menu, ordered);

    var restaurants, chosen := RestaurantsPerProduct(items, products);
    if restaurants == [] {
      // `restaurants[0]` on an empty list
      return Raise(IndexError);
    }
    var suitable := IntersectionOf(restaurants[0], restaurants);
    forall x ensures x in suitable <==> Suitable(menu, ordered, x) {
      IntersectionIsSuitable(menu, ordered, restaurants, chosen, x);
    }

    var measured := PairWithDistances(suitable, orderAddress, cache, dist);
    if measured.Raise? {
      return Raise(measured.exc);
    }
    var pairs := measured.value;
    var sorted := SortByDistance(pairs);
    SortedPairsCover(pairs, suitable, orderAddress, cache, dist);
    res := Ok(sorted);
  }

  /** The loop over `products` in `with_restaurants`: one set of restaurants per product, in
      the (unspecified) iteration order of the set; `chosen` records that order. */
  method RestaurantsPerProduct(items: seq<MenuItem>, products: set<ProductId>)
    returns (restaurants: seq<set<Restaurant>>, ghost chosen: seq<ProductId>)
    ensures |restaurants| == |chosen|
    ensures restaurants == [] <==> products == {}
    ensures forall k :: 0 <= k < |chosen| ==> chosen[k] in products && restaurants[k] == RestaurantsWith(items, chosen[k])
    ensures forall p :: p in products ==> p in chosen
  {
    restaurants := [];
    chosen := [];
    var todo := products;
    while todo != {}
      invariant todo <= products
      invariant |restaurants| == |chosen|
      invariant todo == products ==> chosen == []
      invariant forall k :: 0 <= k < |chosen| ==>
        chosen[k] in products && restaurants[k] == RestaurantsWith(items, chosen[k])
      invariant forall p :: p in products ==> p in todo || p in chosen
      decreases todo
    {
      var p :| p in todo;
      restaurants := restaurants + [RestaurantsWith(items, p)];
      chosen := chosen + [p];
      todo := todo - {p};
    }
  }

  /** Sorting the pairs keeps one pair per restaurant of `suitable`, each with its distance. */
  lemma SortedPairsCover(pairs: seq<Pair>, suitable: set<Restaurant>, orderAddress: string,
                         cache: map<string, Location>, dist: (Coordinates, Coordinates) -> real)
    requires DistinctRestaurants(pairs)
    requires forall k :: 0 <= k < |pairs| ==>
      pairs[k].0 in suitable && CalculateDistance(cache, orderAddress, pairs[k].0.address, dist) == Ok(pairs[k].1)
    requires forall r :: r in suitable ==> exists k :: 0 <= k < |pairs| && pairs[k].0 == r
    ensures var sorted := SortByDistance(pairs);
      && DistinctRestaurants(sorted) && SortedByDistance(sorted)
      && (forall k :: 0 <= k < |sorted| ==>
            sorted[k].0 in suitable && CalculateDistance(cache, orderAddress, sorted[k].0.address, dist) == Ok(sorted[k].1))
      && (forall r :: r in suitable ==> exists k :: 0 <= k < |sorted| && sorted[k].0 == r)
  {
    var sorted := SortByDistance(pairs);
    SortByDistanceCorrect(pairs);
    forall k | 0 <= k < |sorted|
      ensures sorted[k].0 in suitable
      ensures CalculateDistance(cache, orderAddress, sorted[k].0.address, dist) == Ok(sorted[k].1)
    {
      assert sorted[k] in multiset(pairs);
    }
    forall r | r in suitable ensures exists k :: 0 <= k < |sorted| && sorted[k].0 == r {
      var j :| 0 <= j < |pairs| && pairs[j].0 == r;
      assert pairs[j] in multiset(sorted);
    }
  }

  /** The loop over `suitable_restaurants` in `with_restaurants`: one (restaurant, distance)
      pair per restaurant, in set iteration order; the first distance that cannot be
      computed raises. */
  method PairWithDistances(suitable: set<Restaurant>, orderAddress: string,
                           cache: map<string, Location>, dist: (Coordinates, Coordinates) -> real)
    returns (res: Result<seq<Pair>>)
    ensures res.Ok? <==> forall r :: r in suitable ==> CalculateDistance(cache, orderAddress, r.address, dist).Ok?
    ensures res.Raise? ==> res.exc == DoesNotExist
    ensures res.Ok? ==> DistinctRestaurants(res.value)
    ensures res.Ok? ==> forall k :: 0 <= k < |res.value| ==>
      res.value[k].0 in suitable
      && CalculateDistance(cache, orderAddress, res.value[k].0.address, dist) == Ok(res.value[k].1)
    ensures res.Ok? ==> forall r :: r in suitable ==> exists k :: 0 <= k < |res.value| && res.value[k].0 == r
  {
    var pairs: seq<Pair> := [];
    var left := suitable;
    while left != {}
      invariant left <= suitable
      invariant DistinctRestaurants(pairs)
      invariant forall k :: 0 <= k < |pairs| ==>
        pairs[k].0 in suitable && pairs[k].0 !in left
        && CalculateDistance(cache, orderAddress, pairs[k].0.address, dist) == Ok(pairs[k].1)
      invariant forall r :: r in suitable && r !in left ==> exists k :: 0 <= k < |pairs| && pairs[k].0 == r
      decreases left
    {
      var r :| r in left;
      var d := CalculateDistance(cache, orderAddress, r.address, dist);
      if d.Raise? {
        return Raise(d.exc);
      }
      ghost var before := pairs;
      pairs := pairs + [(r, d.value)];
      forall x | x in suitable && x !in left - {r} ensures exists k :: 0 <= k < |pairs| && pairs[k].0 == x {
        if x == r {
          assert pairs[|pairs| - 1].0 == x;
        } else {
          var k :| 0 <= k < |before| && before[k].0 == x;
          assert pairs[k].0 == x;
        }
      }
      left := left - {r};
    }
    res := Ok(pairs);
  }

  // ---------------------------------------------------------------------------
  // Properties of the specification

  /** An ordered product that no restaurant has on sale does not constrain the result. */
  lemma UnsoldProductDropsOut(menu: seq<MenuItem>, ordered: set<ProductId>, p: ProductId, r: Restaurant)
    requires !OnSale(menu, p)
    ensures Offered(menu, ordered + {p}) == Offered(menu, ordered)
    ensures Suitable(menu, ordered + {p}, r) <==> Suitable(menu, ordered, r)
  {
    assert Offered(menu, ordered + {p}) == Offered(menu, ordered);
  }

  /** Ordering more products can only shrink the suitable set, once something is offered. */
  lemma MoreProductsFewerRestaurants(menu: seq<MenuItem>, ordered: set<ProductId>, extra: set<ProductId>, r: Restaurant)
    requires Offered(menu, ordered) != {}
    ensures Suitable(menu, ordered + extra, r) ==> Suitable(menu, ordered, r)
  {
    assert Offered(menu, ordered) <= Offered(menu, ordered + extra);
  }

  /** Every restaurant in a result sells every offered ordered product. */
  lemma MatchedRestaurantsSellEverything(menu: seq<MenuItem>, ordered: set<ProductId>, orderAddress: string,
                                         cache: map<string, Location>, dist: (Coordinates, Coordinates) -> real,
                                         s: seq<Pair>, k: nat, p: ProductId)
    requires Matches(menu, ordered, orderAddress, cache, dist, s)
    requires k < |s| && p in ordered && OnSale(menu, p)
    ensures Sells(menu, s[k].0, p)
  {
    assert p in Offered(menu, ordered);
    assert Suitable(menu, ordered, s[k].0);
  }

  /** In a list of distinct restaurants every pair occurs at most once. */
  lemma {:induction false} DistinctCounts(s: seq<Pair>)
    requires DistinctRestaurants(s)
    ensures forall x :: multiset(s)[x] == if x in s then 1 else 0
  {
    if s != [] {
      assert DistinctRestaurants(s[1..]);
      DistinctCounts(s[1..]);
      assert s == [s[0]] + s[1..];
      assert s[0] !in s[1..] by {
        forall k | 0 <= k < |s[1..]| ensures s[1..][k] != s[0] {
          assert s[1..][k] == s[k + 1];
        }
      }
    }
  }

  /** Two lists of distinct restaurants with the same elements are permutations of each other. */
  lemma DistinctSameElementsPermute(a: seq<Pair>, b: seq<Pair>)
    requires DistinctRestaurants(a) && DistinctRestaurants(b)
    requires forall x :: x in a <==> x in b
    ensures multiset(a) == multiset(b)
  {
    DistinctCounts(a);
    DistinctCounts(b);
    assert forall x :: multiset(a)[x] == multiset(b)[x];
  }

  /** The result depends on set iteration order only in the order of equally distant
      restaurants: any two correct results hold the same pairs and the same sequence of distances. */
  lemma MatchesAgreeUpToTies(menu: seq<MenuItem>, ordered: set<ProductId>, orderAddress: string,
                             cache: map<string, Location>, dist: (Coordinates, Coordinates) -> real,
                             s1: seq<Pair>, s2: seq<Pair>)
    requires Matches(menu, ordered, orderAddress, cache, dist, s1)
    requires Matches(menu, ordered, orderAddress, cache, dist, s2)
    ensures multiset(s1) == multiset(s2)
    ensures |s1| == |s2| && forall k :: 0 <= k < |s1| ==> s1[k].1 == s2[k].1
  {
    forall x ensures x in s1 <==> x in s2 {
      if x in s1 {
        var k :| 0 <= k < |s1| && s1[k] == x;
        assert Suitable(menu, ordered, x.0);
        var j :| 0 <= j < |s2| && s2[j].0 == x.0;
        assert s2[j] == x;
      }
      if x in s2 {
        var k :| 0 <= k < |s2| && s2[k] == x;
        assert Suitable(menu, ordered, x.0);
        var j :| 0 <= j < |s1| && s1[j].0 == x.0;
        assert s1[j] == x;
      }
    }
    DistinctSameElementsPermute(s1, s2);
    SortedPermutationsAgreeOnDistances(s1, s2);
  }

  /** The worked example: restaurant A sells products 1 and 2, restaurant B sells 1 and 3.
      An order for {1, 2} suits only A; an order for {1} suits both; so does an order for
      {1, 4}, because product 4 is sold nowhere and drops out. */
  lemma TwoRestaurantExample(a: Restaurant, b: Restaurant, r: Restaurant)
    requires a != b
    ensures var menu := [MenuItem(a, 1, true), MenuItem(a, 2, true), MenuItem(b, 1, true), MenuItem(b, 3, true)];
      && (Suitable(menu, {1, 2}, r) <==> r == a)
      && (Suitable(menu, {1}, r) <==> r == a || r == b)
      && (Suitable(menu, {1, 4}, r) <==> r == a || r == b)
  {
    var menu := [MenuItem(a, 1, true), MenuItem(a, 2, true), MenuItem(b, 1, true), MenuItem(b, 3, true)];
    assert menu[0].product == 1 && menu[1].product == 2;
    assert OnSale(menu, 1) && OnSale(menu, 2);
    assert !OnSale(menu, 4);
    assert Offered(menu, {1, 2}) == {1, 2};
    assert Offered(menu, {1}) == {1};
    assert Offered(menu, {1, 4}) == {1};
    assert menu[0].restaurant == a && menu[1].restaurant == a && menu[2].restaurant == b;
    assert Sells(menu, a, 1) && Sells(menu, a, 2) && Sells(menu, b, 1);
    assert !Sells(menu, b, 2);
    if Sells(menu, r, 1) {
      var i :| 0 <= i < |menu| && menu[i].restaurant == r && menu[i].product == 1 && menu[i].availability;
      assert r == a || r == b;
    }
  }

  // ---------------------------------------------------------------------------
  // The loop over orders

  /** Values that the views attach to an order object as attributes. */
  datatype Annotation =
    | Pairs(pairs: seq<Pair>)
    | Total(total: Option<int>)

  const WITH_DISTANCES: string := "suitable_restaurants_with_distances"

  /** An order as the views see it: the row's id and delivery address, the products of its
      line items, and the attributes set on the Python object. */
  class OrderObject {
    const id: nat
    const address: string
    const products: set<ProductId>
    var annotations: map<string, Annotation>

    constructor (id: nat, address: string, products: set<ProductId>)
      ensures this.id == id && this.address == address && this.products == products
      ensures annotations == map[]
    {
      this.id := id;
      this.address := address;
      this.products := products;
      annotations := map[];
    }
  }

  /** `o` carries a correct `suitable_restaurants_with_distances`. */
  ghost predicate Matched(o: OrderObject, menu: seq<MenuItem>, cache: map<string, Location>,
                          dist: (Coordinates, Coordinates) -> real)
    reads o
  {
    WITH_DISTANCES in o.annotations && o.annotations[WITH_DISTANCES].Pairs?
    && Matches(menu, o.products, o.address, cache, dist, o.annotations[WITH_DISTANCES].pairs)
  }

  /** The matcher completed for `o` and its result is stored. */
  ghost predicate Done(o: OrderObject, menu: seq<MenuItem>, cache: map<string, Location>,
                       dist: (Coordinates, Coordinates) -> real)
    reads o
  {
    MatchSucceeds(menu, o.products, o.address, cache, dist) && Matched(o, menu, cache, dist)
  }

  /** The loop over `orders` stopped at order `i`: the matcher cannot complete for it, and every
      order before it is done. */
  ghost predicate StoppedAt(orders: seq<OrderObject>, i: nat, menu: seq<MenuItem>, cache: map<string, Location>,
                            dist: (Coordinates, Coordinates) -> real)
    reads set o | o in orders
  {
    && i < |orders|
    && !MatchSucceeds(menu, orders[i].products, orders[i].address, cache, dist)
    && forall k :: 0 <= k < i ==> Done(orders[k], menu, cache, dist)
  }

  /** `now` has at most `suitable_restaurants_with_distances` as a new key and keeps every
      other attribute of `before`. */
  ghost predicate OnlyMatchAdded(now: map<string, Annotation>, before: map<string, Annotation>) {
    && now.Keys <= before.Keys + {WITH_DISTANCES}
    && forall key :: key in before && key != WITH_DISTANCES ==> key in now && now[key] == before[key]
  }

  /** The body of the loop of `with_restaurants`: matches one order and sets its
      `suitable_restaurants_with_distances`, or raises and leaves it as it was. */
  method MatchOne(order: OrderObject, menu: seq<MenuItem>, cache: map<string, Location>,
                  dist: (Coordinates, Coordinates) -> real) returns (res: Result<()>)
    modifies order
    ensures res.Ok? <==> MatchSucceeds(menu, order.products, order.address, cache, dist)
    ensures res.Raise? ==> (res.exc == IndexError || res.exc == DoesNotExist) && order.annotations == old(order.annotations)
    ensures res.Ok? ==> Done(order, menu, cache, dist) && OnlyMatchAdded(order.annotations, old(order.annotations))
  {
    var matched := MatchOrder(menu, order.products, order.address, cache, dist);
    if matched.Raise? {
      return Raise(matched.exc);
    }
    order.annotations := order.annotations[WITH_DISTANCES := Pairs(matched.value)];
    res := Ok(());
  }

  /** One turn of the loop of `with_restaurants`, on order `i` after the orders before it are
      done: either order `i` is done too, or the loop stops there with the orders untouched. */
  method MatchNext(orders: seq<OrderObject>, i: nat, menu: seq<MenuItem>, cache: map<string, Location>,
                   dist: (Coordinates, Coordinates) -> real) returns (res: Result<()>)
    requires i < |orders|
    requires forall k :: 0 <= k < i ==> Done(orders[k], menu, cache, dist)
    modifies orders[i]
    ensures res.Raise? ==> (res.exc == IndexError || res.exc == DoesNotExist) && StoppedAt(orders, i, menu, cache, dist)
    ensures res.Raise? ==> orders[i].annotations == old(orders[i].annotations)
    ensures res.Ok? ==> forall k :: 0 <= k <= i ==> Done(orders[k], menu, cache, dist)
    ensures res.Ok? ==> MatchSucceeds(menu, orders[i].products, orders[i].address, cache, dist)
    ensures res.Ok? ==> OnlyMatchAdded(orders[i].annotations, old(orders[i].annotations))
  {
    res := MatchOne(orders[i], menu, cache, dist);
  }

  /** `with_restaurants`: sets `suitable_restaurants_with_distances` on every order in turn;
      the first exception stops the loop at order `failedAt` and leaves the orders before it
      annotated. */
  method WithRestaurants(orders: seq<OrderObject>, menu: seq<MenuItem>,
                         cache: map<string, Location>, dist: (Coordinates, Coordinates) -> real)
    returns (res: Result<()>, ghost failedAt: nat)
    modifies set o | o in orders
    ensures res.Ok? <==> forall o :: o in orders ==> MatchSucceeds(menu, o.products, o.address, cache, dist)
    ensures res.Raise? ==> res.exc == IndexError || res.exc == DoesNotExist
    ensures res.Ok? ==> forall o :: o in orders ==> Matched(o, menu, cache, dist)
    ensures res.Raise? ==> StoppedAt(orders, failedAt, menu, cache, dist)
    ensures forall o :: o in orders ==> OnlyMatchAdded(o.annotations, old(o.annotations))
  {
    ghost var before := map o | o in orders :: o.annotations;
    failedAt := 0;
    var i := 0;
    while i < |orders|
      invariant 0 <= i <= |orders|
      invariant forall k :: 0 <= k < i ==> Done(orders[k], menu, cache, dist)
      invariant forall o :: o in orders ==> OnlyMatchAdded(o.annotations, before[o])
    {
      res := MatchNext(orders, i, menu, cache, dist);
      if res.Raise? {
        failedAt := i;
        return;
      }
      i := i + 1;
    }
    res := Ok(());
  }
}
