/** The manager views: the product availability grid, the restaurant list that fills the
    geocoding cache, and the order list with distances to suitable restaurants. */
module Restaurateur {
  import opened Wrappers
  import opened Catalog
  import opened Locations
  import opened Geocoding
  import opened Ranking
  import opened Matching

  // ---------------------------------------------------------------------------
  // view_products: one row of availability flags per product

  /** `product.menu_items.all()`: the menu items of product `p`, in table order. */
  function MenuItemsOf(menu: seq<MenuItem>, p: ProductId): (r: seq<MenuItem>)
    ensures forall it :: it in r <==> it in menu && it.product == p
  {
    if menu == [] then []
    else (if menu[0].product == p then [menu[0]] else []) + MenuItemsOf(menu[1..], p)
  }

  /** `{item.restaurant_id: item.availability for item in items}`: a later item for the same
      restaurant overwrites an earlier one. */
  function Flags(items: seq<MenuItem>): (m: map<RestaurantId, bool>)
    ensures forall rid :: rid in m <==> exists k :: 0 <= k < |items| && items[k].restaurant.id == rid
  {
    if items == [] then map[]
    else
      var last := items[|items| - 1];
      assert forall k :: 0 <= k < |items| - 1 ==> items[..|items| - 1][k] == items[k];
      Flags(items[..|items| - 1])[last.restaurant.id := last.availability]
  }

  /** `default_availability`: every restaurant mapped to False. */
  function DefaultAvailability(restaurants: seq<Restaurant>): (m: map<RestaurantId, bool>)
    ensures forall rid :: rid in m <==> exists k :: 0 <= k < |restaurants| && restaurants[k].id == rid
    ensures forall rid :: rid in m ==> !m[rid]
  {
    map r | r in restaurants :: r.id := false
  }

  /** `orderer_availability`: the merge `{**default_availability, **flags}` read in the order of
      `restaurants`. The merge builds a new map, so the default is the same for every product. */
  function AvailabilityRow(restaurants: seq<Restaurant>, items: seq<MenuItem>): (row: seq<bool>)
    ensures |row| == |restaurants|
  {
    var availability := DefaultAvailability(restaurants) + Flags(items);
    seq(|restaurants|, k requires 0 <= k < |restaurants| =>
      assert restaurants[k].id in DefaultAvailability(restaurants);
      availability[restaurants[k].id])
  }

  /** The dict comprehension keeps the flag of the last item of each restaurant. */
  lemma {:induction false} FlagsLastWins(items: seq<MenuItem>, j: nat)
    requires j < |items|
    requires forall k :: j < k < |items| ==> items[k].restaurant.id != items[j].restaurant.id
    ensures items[j].restaurant.id in Flags(items)
    ensures Flags(items)[items[j].restaurant.id] == items[j].availability
    decreases |items|
  {
    if j < |items| - 1 {
      var init := items[..|items| - 1];
      assert forall k :: j < k < |init| ==> init[k] == items[k];
      FlagsLastWins(init, j);
      assert init[j] == items[j];
    }
  }

  /** The row of product `p` has one entry per restaurant. An entry is False when `p` has no
      menu item at that restaurant, and otherwise it is the flag of the last such item. */
  lemma AvailabilityRowEntry(restaurants: seq<Restaurant>, menu: seq<MenuItem>, p: ProductId, k: nat)
    requires k < |restaurants|
    ensures |AvailabilityRow(restaurants, MenuItemsOf(menu, p))| == |restaurants|
    ensures !HasPair(menu, restaurants[k].id, p) ==> !AvailabilityRow(restaurants, MenuItemsOf(menu, p))[k]
    ensures forall j :: 0 <= j < |MenuItemsOf(menu, p)| && MenuItemsOf(menu, p)[j].restaurant.id == restaurants[k].id
                        && (forall h :: j < h < |MenuItemsOf(menu, p)| ==> MenuItemsOf(menu, p)[h].restaurant.id != restaurants[k].id)
                        ==> AvailabilityRow(restaurants, MenuItemsOf(menu, p))[k] == MenuItemsOf(menu, p)[j].availability
  {
    var items := MenuItemsOf(menu, p);
    var rid := restaurants[k].id;
    var availability := DefaultAvailability(restaurants) + Flags(items);
    assert AvailabilityRow(restaurants, items)[k] == availability[rid];
    if rid in Flags(items) {
      var j :| 0 <= j < |items| && items[j].restaurant.id == rid;
      assert items[j] in items;
      var i :| 0 <= i < |menu| && menu[i] == items[j];
      assert HasPair(menu, rid, p);
    } else {
      assert availability[rid] == DefaultAvailability(restaurants)[rid];
    }
    forall j | 0 <= j < |items| && items[j].restaurant.id == rid
               && (forall h :: j < h < |items| ==> items[h].restaurant.id != rid)
      ensures AvailabilityRow(restaurants, items)[k] == items[j].availability
    {
      FlagsLastWins(items, j);
    }
  }

  /** With at most one menu item per (restaurant, product) pair, the entry is the flag of that
      item: the row says True exactly for the restaurants that have the product on sale. */
  lemma AvailabilityRowIsOnSaleAt(restaurants: seq<Restaurant>, menu: seq<MenuItem>, p: ProductId, k: nat)
    requires MenuPairsUnique(menu)
    requires k < |restaurants|
    ensures AvailabilityRow(restaurants, MenuItemsOf(menu, p))[k] <==>
      exists i :: 0 <= i < |menu| && menu[i].restaurant.id == restaurants[k].id && menu[i].product == p && menu[i].availability
  {
    var items := MenuItemsOf(menu, p);
    var rid := restaurants[k].id;
    AvailabilityRowEntry(restaurants, menu, p, k);
    if HasPair(menu, rid, p) {
      var i :| 0 <= i < |menu| && menu[i].restaurant.id == rid && menu[i].product == p;
      assert menu[i] in items;
      // the last item of this restaurant among `items` is `menu[i]`
      var j := LastOf(items, rid);
      assert items[j] in menu;
      var i' :| 0 <= i' < |menu| && menu[i'] == items[j];
      assert SamePair(menu[i], menu[i']);
      assert i == i';
      forall i2 | 0 <= i2 < |menu| && menu[i2].restaurant.id == rid && menu[i2].product == p
        ensures i2 == i
      {
        assert SamePair(menu[i], menu[i2]);
      }
    }
  }

  /** The index of the last item of restaurant `rid`. */
  lemma LastOf(items: seq<MenuItem>, rid: RestaurantId) returns (j: nat)
    requires exists k :: 0 <= k < |items| && items[k].restaurant.id == rid
    ensures j < |items| && items[j].restaurant.id == rid
    ensures forall h :: j < h < |items| ==> items[h].restaurant.id != rid
    decreases |items|
  {
    if items[|items| - 1].restaurant.id == rid {
      j := |items| - 1;
    } else {
      var init := items[..|items| - 1];
      var k :| 0 <= k < |items| && items[k].restaurant.id == rid;
      assert init[k] == items[k];
      j := LastOf(init, rid);
      assert init[j] == items[j];
    }
  }

  /** `view_products`: the rows of the grid, one per product in the given order, each paired
      with its product. `restaurants` is the list ordered by name. */
  method ViewProducts(restaurants: seq<Restaurant>, products: seq<Product>, menu: seq<MenuItem>)
    returns (grid: seq<(Product, seq<bool>)>)
    ensures |grid| == |products|
    ensures forall k :: 0 <= k < |grid| ==>
      grid[k].0 == products[k] && grid[k].1 == AvailabilityRow(restaurants, MenuItemsOf(menu, products[k].id))
  {
    grid := [];
    for i := 0 to |products|
      invariant |grid| == i
      invariant forall k :: 0 <= k < i ==>
        grid[k].0 == products[k] && grid[k].1 == AvailabilityRow(restaurants, MenuItemsOf(menu, products[k].id))
    {
      var product := products[i];
      grid := grid + [(product, AvailabilityRow(restaurants, MenuItemsOf(menu, product.id)))];
    }
  }

  // ---------------------------------------------------------------------------
  // view_restaurants: geocode every restaurant address that is not cached yet

  /** `restaurants.values_list("address", flat=True)`, in table order. */
  function Addresses(restaurants: seq<Restaurant>): (r: seq<string>)
    ensures |r| == |restaurants| && forall k :: 0 <= k < |r| ==> r[k] == restaurants[k].address
  {
    seq(|restaurants|, k requires 0 <= k < |restaurants| => restaurants[k].address)
  }

  /** The geocoder found the address: `fetch_coordinates` returned (latitude, longitude). */
  predicate Found(geocode: string -> seq<Candidate>, address: string) {
    FetchCoordinates(geocode(address)).Ok? && FetchCoordinates(geocode(address)).value.Some?
  }

  /** The geocoder found nothing: `fetch_coordinates` returned None. */
  predicate NotFound(geocode: string -> seq<Candidate>, address: string) {
    FetchCoordinates(geocode(address)) == Ok(None)
  }

  /** The geocoder found the address and `float()` accepts both coordinates it returned. */
  predicate Storable(geocode: string -> seq<Candidate>, toFloat: string -> Option<real>, address: string) {
    Found(geocode, address)
    && toFloat(FetchCoordinates(geocode(address)).value.value.0).Some?
    && toFloat(FetchCoordinates(geocode(address)).value.value.1).Some?
  }

  /** The row a successful fill stores for a found address. */
  function FoundRow(geocode: string -> seq<Candidate>, toFloat: string -> Option<real>, now: int, address: string): Location
    requires Storable(geocode, toFloat, address)
  {
    var (latitude, longitude) := FetchCoordinates(geocode(address)).value.value;
    Location(address, toFloat(latitude).value, toFloat(longitude).value, now)
  }

  /** `latitude, longitude = fetch_coordinates(address)` followed by `Location.objects.create`.
      `geocode` is the provider's answer for an address. Unpacking the None returned for an
      unknown address is a TypeError unless `skipNotFound` says to leave the table as it is. */
  function FetchAndStore(rows: map<string, Location>, address: string, geocode: string -> seq<Candidate>,
                         toFloat: string -> Option<real>, now: int, skipNotFound: bool)
    : (r: Result<map<string, Location>>)
    ensures NotFound(geocode, address) ==> r == if skipNotFound then Ok(rows) else Raise(TypeError)
    ensures Found(geocode, address) ==>
      r == InsertRow(rows, address, FetchCoordinates(geocode(address)).value.value.0,
                     FetchCoordinates(geocode(address)).value.value.1, toFloat, now)
    ensures FetchCoordinates(geocode(address)).Raise? ==> r == Raise(ValueError)
  {
    var found := FetchCoordinates(geocode(address));
    if found.Raise? then Raise(found.exc)
    else if found.value.None? then (if skipNotFound then Ok(rows) else Raise(TypeError))
    else InsertRow(rows, address, found.value.value.0, found.value.value.1, toFloat, now)
  }

  /** The outcome of the fill loop: the exception that stopped it, if any, the table it left,
      and the addresses it sent to the geocoder, in order. */
  datatype Fill = Fill(outcome: Result<()>, rows: map<string, Location>, fetched: seq<string>)

  /** The loop as written: an address is skipped when it is in `known`, the addresses that had a
      cache entry when the queryset of cached addresses was first evaluated, before any insert. */
  function FillAsWritten(rows: map<string, Location>, addresses: seq<string>, known: set<string>,
                         geocode: string -> seq<Candidate>, toFloat: string -> Option<real>, now: int): (f: Fill)
    ensures |f.fetched| <= |addresses|
    ensures forall k :: 0 <= k < |f.fetched| ==> f.fetched[k] in addresses && f.fetched[k] !in known
    ensures f.outcome.Raise? ==> f.outcome.exc in {TypeError, ValueError, IntegrityError}
    decreases |addresses|
  {
    if addresses == [] then Fill(Ok(()), rows, [])
    else if addresses[0] in known then FillAsWritten(rows, addresses[1..], known, geocode, toFloat, now)
    else
      var step := FetchAndStore(rows, addresses[0], geocode, toFloat, now, false);
      if step.Raise? then Fill(Raise(step.exc), rows, [addresses[0]])
      else
        var rest := FillAsWritten(step.value, addresses[1..], known, geocode, toFloat, now);
        Fill(rest.outcome, rest.rows, [addresses[0]] + rest.fetched)
  }

  /** The loop as intended: an address is skipped when the table holds it at that point, and
      an address the geocoder does not know is left uncached. */
  function FillCache(rows: map<string, Location>, addresses: seq<string>,
                     geocode: string -> seq<Candidate>, toFloat: string -> Option<real>, now: int): (f: Fill)
    ensures |f.fetched| <= |addresses|
    ensures forall k :: 0 <= k < |f.fetched| ==> f.fetched[k] in addresses
    ensures rows.Keys <= f.rows.Keys
    decreases |addresses|
  {
    if addresses == [] then Fill(Ok(()), rows, [])
    else if addresses[0] in rows then FillCache(rows, addresses[1..], geocode, toFloat, now)
    else
      var step := FetchAndStore(rows, addresses[0], geocode, toFloat, now, true);
      if step.Raise? then Fill(Raise(step.exc), rows, [addresses[0]])
      else
        var rest := FillCache(step.value, addresses[1..], geocode, toFloat, now);
        Fill(rest.outcome, rest.rows, [addresses[0]] + rest.fetched)
  }

  /** One step of `FillAsWritten` on a suffix of the addresses. */
  lemma FillAsWrittenStep(rows: map<string, Location>, addresses: seq<string>, known: set<string>,
                          geocode: string -> seq<Candidate>, toFloat: string -> Option<real>, now: int, i: nat)
    requires i < |addresses|
    ensures var a := addresses[i];
      var step := FetchAndStore(rows, a, geocode, toFloat, now, false);
      FillAsWritten(rows, addresses[i..], known, geocode, toFloat, now)
      == if a in known then FillAsWritten(rows, addresses[i + 1..], known, geocode, toFloat, now)
         else if step.Raise? then Fill(Raise(step.exc), rows, [a])
         else var rest := FillAsWritten(step.value, addresses[i + 1..], known, geocode, toFloat, now);
           Fill(rest.outcome, rest.rows, [a] + rest.fetched)
  {
    assert addresses[i..][0] == addresses[i] && addresses[i..][1..] == addresses[i + 1..];
  }

  /** One step of `FillCache` on a suffix of the addresses. */
  lemma FillCacheStep(rows: map<string, Location>, addresses: seq<string>,
                      geocode: string -> seq<Candidate>, toFloat: string -> Option<real>, now: int, i: nat)
    requires i < |addresses|
    ensures var a := addresses[i];
      var step := FetchAndStore(rows, a, geocode, toFloat, now, true);
      FillCache(rows, addresses[i..], geocode, toFloat, now)
      == if a in rows then FillCache(rows, addresses[i + 1..], geocode, toFloat, now)
         else if step.Raise? then Fill(Raise(step.exc), rows, [a])
         else var rest := FillCache(step.value, addresses[i + 1..], geocode, toFloat, now);
           Fill(rest.outcome, rest.rows, [a] + rest.fetched)
  {
    assert addresses[i..][0] == addresses[i] && addresses[i..][1..] == addresses[i + 1..];
  }

  /** The fill never touches an entry that was cached before it and never sends a cached
      address to the geocoder; every entry it adds is for one of the addresses and holds the
      parsed coordinates. */
  lemma {:induction false} FillCacheKeepsAndStores(rows: map<string, Location>, addresses: seq<string>,
                                                   geocode: string -> seq<Candidate>,
                                                   toFloat: string -> Option<real>, now: int)
    ensures var f := FillCache(rows, addresses, geocode, toFloat, now);
      && (forall a :: a in rows ==> a in f.rows && f.rows[a] == rows[a])
      && (forall k :: 0 <= k < |f.fetched| ==> f.fetched[k] !in rows && f.fetched[k] in addresses)
      && (forall a :: a in f.rows && a !in rows ==>
            a in addresses && Storable(geocode, toFloat, a) && f.rows[a] == FoundRow(geocode, toFloat, now, a))
      && (KeyedByAddress(rows) ==> KeyedByAddress(f.rows))
    decreases |addresses|
  {
    if addresses != [] {
      var a := addresses[0];
      if a in rows {
        FillCacheKeepsAndStores(rows, addresses[1..], geocode, toFloat, now);
      } else {
        var step := FetchAndStore(rows, a, geocode, toFloat, now, true);
        if step.Ok? {
          FillCacheKeepsAndStores(step.value, addresses[1..], geocode, toFloat, now);
        }
      }
    }
  }

  /** The loop as written never touches an entry that was cached before it and never sends an
      address of `known` to the geocoder; every entry it adds is for one of the addresses and
      holds the parsed coordinates. */
  lemma {:induction false} FillAsWrittenKeepsAndStores(rows: map<string, Location>, addresses: seq<string>,
                                                       known: set<string>, geocode: string -> seq<Candidate>,
                                                       toFloat: string -> Option<real>, now: int)
    ensures var f := FillAsWritten(rows, addresses, known, geocode, toFloat, now);
      && (forall a :: a in rows ==> a in f.rows && f.rows[a] == rows[a])
      && (forall a :: a in f.rows && a !in rows ==>
            a in addresses && a !in known && Storable(geocode, toFloat, a) && f.rows[a] == FoundRow(geocode, toFloat, now, a))
      && (KeyedByAddress(rows) ==> KeyedByAddress(f.rows))
    decreases |addresses|
  {
    if addresses != [] {
      var a := addresses[0];
      if a in known {
        FillAsWrittenKeepsAndStores(rows, addresses[1..], known, geocode, toFloat, now);
      } else {
        var step := FetchAndStore(rows, a, geocode, toFloat, now, false);
        if step.Ok? {
          FillAsWrittenKeepsAndStores(step.value, addresses[1..], known, geocode, toFloat, now);
        }
      }
    }
  }

  /** The loop as written completes only when the geocoder found every address outside
      `known`, and then, when every address of `known` is cached, every address is cached. */
  lemma {:induction false} FillAsWrittenCovers(rows: map<string, Location>, addresses: seq<string>,
                                               known: set<string>, geocode: string -> seq<Candidate>,
                                               toFloat: string -> Option<real>, now: int)
    ensures var f := FillAsWritten(rows, addresses, known, geocode, toFloat, now);
      && (f.outcome.Ok? ==> forall k :: 0 <= k < |addresses| && addresses[k] !in known ==> Found(geocode, addresses[k]))
      && (f.outcome.Ok? && (forall a :: a in known ==> a in rows) ==>
            forall k :: 0 <= k < |addresses| ==> addresses[k] in f.rows)
    decreases |addresses|
  {
    if addresses != [] {
      var a := addresses[0];
      assert forall k :: 1 <= k < |addresses| ==> addresses[k] == addresses[1..][k - 1];
      if a in known {
        FillAsWrittenCovers(rows, addresses[1..], known, geocode, toFloat, now);
        FillAsWrittenKeepsAndStores(rows, addresses[1..], known, geocode, toFloat, now);
      } else {
        var step := FetchAndStore(rows, a, geocode, toFloat, now, false);
        if step.Ok? {
          FillAsWrittenCovers(step.value, addresses[1..], known, geocode, toFloat, now);
          FillAsWrittenKeepsAndStores(step.value, addresses[1..], known, geocode, toFloat, now);
          assert a in step.value;
        }
      }
    }
  }

  /** `view_restaurants` as written, with `known` the addresses cached before the loop: it
      sends no cached address to the geocoder and keeps every cached entry; each entry it adds
      holds the parsed coordinates; and it completes only when the geocoder found every
      uncached address, leaving every address cached. */
  lemma FillAsWrittenFromCache(rows: map<string, Location>, addresses: seq<string>,
                               geocode: string -> seq<Candidate>, toFloat: string -> Option<real>, now: int)
    ensures var f := FillAsWritten(rows, addresses, (set a | a in addresses && a in rows), geocode, toFloat, now);
      && (forall k :: 0 <= k < |f.fetched| ==> f.fetched[k] !in rows)
      && (forall a :: a in rows ==> a in f.rows && f.rows[a] == rows[a])
      && (forall a :: a in f.rows && a !in rows ==>
            a in addresses && Storable(geocode, toFloat, a) && f.rows[a] == FoundRow(geocode, toFloat, now, a))
      && (f.outcome.Ok? ==> forall k :: 0 <= k < |addresses| ==>
            addresses[k] in f.rows && (addresses[k] !in rows ==> Found(geocode, addresses[k])))
  {
    var known := set a | a in addresses && a in rows;
    FillAsWrittenKeepsAndStores(rows, addresses, known, geocode, toFloat, now);
    FillAsWrittenCovers(rows, addresses, known, geocode, toFloat, now);
  }

  /** A fill that completes leaves every address either cached or unknown to the geocoder, and
      its only possible error is a coordinate that `float()` refuses or an unparsable answer. */
  lemma {:induction false} FillCacheCovers(rows: map<string, Location>, addresses: seq<string>,
                                           geocode: string -> seq<Candidate>,
                                           toFloat: string -> Option<real>, now: int)
    ensures var f := FillCache(rows, addresses, geocode, toFloat, now);
      && (f.outcome.Raise? ==> f.outcome.exc == ValueError)
      && (f.outcome.Ok? ==> forall k :: 0 <= k < |addresses| ==> addresses[k] in f.rows || NotFound(geocode, addresses[k]))
      && (f.outcome.Ok? ==> forall k :: 0 <= k < |addresses| && Found(geocode, addresses[k]) ==> addresses[k] in f.rows)
    decreases |addresses|
  {
    if addresses != [] {
      var a := addresses[0];
      if a in rows {
        FillCacheCovers(rows, addresses[1..], geocode, toFloat, now);
        FillCacheKeepsAndStores(rows, addresses[1..], geocode, toFloat, now);
        assert forall k :: 1 <= k < |addresses| ==> addresses[k] == addresses[1..][k - 1];
      } else {
        var step := FetchAndStore(rows, a, geocode, toFloat, now, true);
        if step.Ok? {
          FillCacheCovers(step.value, addresses[1..], geocode, toFloat, now);
          FillCacheKeepsAndStores(step.value, addresses[1..], geocode, toFloat, now);
          assert forall k :: 1 <= k < |addresses| ==> addresses[k] == addresses[1..][k - 1];
          if Found(geocode, a) {
            assert a in step.value;
          }
        }
      }
    }
  }

  /** On a table where every address is cached or unknown to the geocoder, the fill changes
      nothing. */
  lemma {:induction false} FillCacheStable(rows: map<string, Location>, addresses: seq<string>,
                                           geocode: string -> seq<Candidate>,
                                           toFloat: string -> Option<real>, now: int)
    requires forall k :: 0 <= k < |addresses| ==> addresses[k] in rows || NotFound(geocode, addresses[k])
    ensures FillCache(rows, addresses, geocode, toFloat, now).outcome == Ok(())
    ensures FillCache(rows, addresses, geocode, toFloat, now).rows == rows
    decreases |addresses|
  {
    if addresses != [] {
      assert forall k :: 1 <= k < |addresses| ==> addresses[k] == addresses[1..][k - 1];
      FillCacheStable(rows, addresses[1..], geocode, toFloat, now);
    }
  }

  /** Filling twice with the same geocoder answers gives the table that filling once gave. */
  lemma FillCacheIdempotent(rows: map<string, Location>, addresses: seq<string>,
                            geocode: string -> seq<Candidate>, toFloat: string -> Option<real>, now: int)
    requires FillCache(rows, addresses, geocode, toFloat, now).outcome.Ok?
    ensures var once := FillCache(rows, addresses, geocode, toFloat, now).rows;
      FillCache(once, addresses, geocode, toFloat, now) == Fill(Ok(()), once, FillCache(once, addresses, geocode, toFloat, now).fetched)
  {
    var once := FillCache(rows, addresses, geocode, toFloat, now).rows;
    FillCacheCovers(rows, addresses, geocode, toFloat, now);
    FillCacheStable(once, addresses, geocode, toFloat, now);
  }

  /** On distinct addresses that the geocoder all knows, with `known` telling exactly which are
      cached, the loop as written agrees with the intended one. */
  lemma {:induction false} FillAsWrittenAgrees(rows: map<string, Location>, addresses: seq<string>, known: set<string>,
                                               geocode: string -> seq<Candidate>,
                                               toFloat: string -> Option<real>, now: int)
    requires forall i, j :: 0 <= i < j < |addresses| ==> addresses[i] != addresses[j]
    requires forall k :: 0 <= k < |addresses| ==> (addresses[k] in known <==> addresses[k] in rows)
    requires forall k :: 0 <= k < |addresses| ==> !NotFound(geocode, addresses[k])
    ensures FillAsWritten(rows, addresses, known, geocode, toFloat, now) == FillCache(rows, addresses, geocode, toFloat, now)
    decreases |addresses|
  {
    if addresses != [] {
      var a := addresses[0];
      assert forall k :: 1 <= k < |addresses| ==> addresses[k] == addresses[1..][k - 1];
      if a in rows {
        FillAsWrittenAgrees(rows, addresses[1..], known, geocode, toFloat, now);
      } else {
        var step := FetchAndStore(rows, a, geocode, toFloat, now, true);
        assert step == FetchAndStore(rows, a, geocode, toFloat, now, false);
        if step.Ok? {
          forall k | 0 <= k < |addresses[1..]| ensures addresses[1..][k] in known <==> addresses[1..][k] in step.value {
            assert addresses[1..][k] == addresses[k + 1] != a;
          }
          FillAsWrittenAgrees(step.value, addresses[1..], known, geocode, toFloat, now);
        }
      }
    }
  }

  /** As written, a restaurant address that is not cached and that the geocoder does not know
      stops the page with a TypeError. */
  lemma UnknownAddressRaises(rows: map<string, Location>, a: string, rest: seq<string>, known: set<string>,
                             geocode: string -> seq<Candidate>, toFloat: string -> Option<real>, now: int)
    requires a !in known && geocode(a) == []
    ensures FillAsWritten(rows, [a] + rest, known, geocode, toFloat, now).outcome == Raise(TypeError)
    ensures FillCache(rows, [a] + rest, geocode, toFloat, now) == if a in rows
      then FillCache(rows, rest, geocode, toFloat, now)
      else var f := FillCache(rows, rest, geocode, toFloat, now); Fill(f.outcome, f.rows, [a] + f.fetched)
  {
    assert ([a] + rest)[1..] == rest;
  }

  /** As written, two restaurants at the same uncached address make the second insert violate
      the unique constraint; the intended loop caches the address once. */
  lemma SharedAddressRaises(rows: map<string, Location>, a: string, known: set<string>,
                            geocode: string -> seq<Candidate>, toFloat: string -> Option<real>, now: int)
    requires a !in known && a !in rows && Storable(geocode, toFloat, a)
    ensures FillAsWritten(rows, [a, a], known, geocode, toFloat, now).outcome == Raise(IntegrityError)
    ensures FillCache(rows, [a, a], geocode, toFloat, now) ==
      Fill(Ok(()), rows[a := FoundRow(geocode, toFloat, now, a)], [a])
  {
    assert [a, a][1..] == [a];
    assert [a][1..] == [];
    var step := FetchAndStore(rows, a, geocode, toFloat, now, true);
    assert step == Ok(rows[a := FoundRow(geocode, toFloat, now, a)]);
    assert FillCache(step.value, [a], geocode, toFloat, now) == Fill(Ok(()), step.value, []);
    assert [a] + [] == [a];
  }

  /** `view_restaurants` as written: the table afterwards, and the exception if any, are the
      ones `FillAsWritten` gives. */
  method ViewRestaurantsAsWritten(table: LocationTable, restaurants: seq<Restaurant>,
                                  geocode: string -> seq<Candidate>, toFloat: string -> Option<real>, now: int)
    returns (res: Result<()>)
    requires table.Valid()
    modifies table
    ensures table.Valid()
    ensures var addresses := Addresses(restaurants);
      var f := FillAsWritten(old(table.rows), addresses, (set a | a in addresses && a in old(table.rows)), geocode, toFloat, now);
      res == f.outcome && table.rows == f.rows
  {
    var addresses := Addresses(restaurants);
    // the queryset of cached addresses is evaluated by the first `in` test, before any insert
    var known := set a | a in addresses && a in table.rows;
    ghost var spec := FillAsWritten(table.rows, addresses, known, geocode, toFloat, now);
    var i := 0;
    while i < |addresses|
      invariant 0 <= i <= |addresses|
      invariant table.Valid()
      invariant var f := FillAsWritten(table.rows, addresses[i..], known, geocode, toFloat, now);
        f.outcome == spec.outcome && f.rows == spec.rows
    {
      var address := addresses[i];
      FillAsWrittenStep(table.rows, addresses, known, geocode, toFloat, now, i);
      if address !in known {
        var found := FetchCoordinates(geocode(address));
        if found.Raise? {
          return Raise(found.exc);
        }
        if found.value.None? {
          // unpacking None into `latitude, longitude`
          return Raise(TypeError);
        }
        var (latitude, longitude) := found.value.value;
        var created := table.Create(address, latitude, longitude, toFloat, now);
        if created.Raise? {
          return Raise(created.exc);
        }
      }
      i := i + 1;
    }
    res := Ok(());
  }

  /** `view_restaurants` as intended: the table afterwards, and the exception if any, are the
      ones `FillCache` gives. */
  method ViewRestaurants(table: LocationTable, restaurants: seq<Restaurant>,
                         geocode: string -> seq<Candidate>, toFloat: string -> Option<real>, now: int)
    returns (res: Result<()>)
    requires table.Valid()
    modifies table
    ensures table.Valid()
    ensures var f := FillCache(old(table.rows), Addresses(restaurants), geocode, toFloat, now);
      res == f.outcome && table.rows == f.rows
  {
    var addresses := Addresses(restaurants);
    ghost var spec := FillCache(table.rows, addresses, geocode, toFloat, now);
    var i := 0;
    while i < |addresses|
      invariant 0 <= i <= |addresses|
      invariant table.Valid()
      invariant var f := FillCache(table.rows, addresses[i..], geocode, toFloat, now);
        f.outcome == spec.outcome && f.rows == spec.rows
    {
      var address := addresses[i];
      ghost var rows := table.rows;
      FillCacheStep(rows, addresses, geocode, toFloat, now, i);
      if address !in table.rows {
        var found := FetchCoordinates(geocode(address));
        if found.Raise? {
          return Raise(found.exc);
        }
        if found.value.Some? {
          var (latitude, longitude) := found.value.value;
          var created := table.Create(address, latitude, longitude, toFloat, now);
          if created.Raise? {
            return Raise(created.exc);
          }
          assert FetchAndStore(rows, address, geocode, toFloat, now, true) == Ok(table.rows);
        }
      }
      i := i + 1;
    }
    res := Ok(());
  }

  // ---------------------------------------------------------------------------
  // view_orders: total prices, suitable restaurants, and distances per order

  const TOTAL_PRICE: string := "total_price"
  const DISTANCES: string := "distances"
  const SUITABLE_RESTAURANTS: string := "suitable_restaurants"

  /** The restaurants of a list of (restaurant, distance) pairs. */
  function Firsts(ps: seq<Pair>): (rs: seq<Restaurant>)
    ensures |rs| == |ps| && forall k :: 0 <= k < |rs| ==> rs[k] == ps[k].0
  {
    seq(|ps|, k requires 0 <= k < |ps| => ps[k].0)
  }

  /** The restaurants a loop over `order.<key>` visits. An attribute nobody set is an
      AttributeError and a total price is not iterable. Over the (restaurant, distance) pairs
      that `with_restaurants` sets, the loop is the unpacking one,
      `for restaurant, _ in order.<key>`, and visits the first component of each pair. */
  function Listed(annotations: map<string, Annotation>, key: string): (r: Result<seq<Restaurant>>)
    ensures key !in annotations ==> r == Raise(AttributeError)
    ensures r.Raise? ==> r.exc == AttributeError || r.exc == TypeError
  {
    if key !in annotations then Raise(AttributeError)
    else match annotations[key]
      case Pairs(ps) => Ok(Firsts(ps))
      case Total(_) => Raise(TypeError)
  }

  /** The inner loop of `view_orders`: each listed restaurant with its distance from the
      delivery address, in list order; a restaurant whose address is not cached raises. */
  function Measure(rs: seq<Restaurant>, orderAddress: string, cache: map<string, Location>,
                   dist: (Coordinates, Coordinates) -> real): (r: Result<seq<Pair>>)
    ensures r.Ok? <==> forall k :: 0 <= k < |rs| ==> CalculateDistance(cache, orderAddress, rs[k].address, dist).Ok?
    ensures r.Raise? ==> r.exc == DoesNotExist
    ensures r.Ok? ==> |r.value| == |rs| && forall k :: 0 <= k < |rs| ==>
      r.value[k].0 == rs[k] && CalculateDistance(cache, orderAddress, rs[k].address, dist) == Ok(r.value[k].1)
  {
    if rs == [] then Ok([])
    else
      var init := rs[..|rs| - 1];
      assert forall k :: 0 <= k < |init| ==> init[k] == rs[k];
      match Measure(init, orderAddress, cache, dist)
      case Raise(e) => Raise(e)
      case Ok(ps) =>
        match CalculateDistance(cache, orderAddress, rs[|rs| - 1].address, dist)
        case Raise(e) => Raise(e)
        case Ok(d) => Ok(ps + [(rs[|rs| - 1], d)])
  }

  /** `order.distances` for one order: the measured pairs sorted by distance. */
  function OrderDistances(annotations: map<string, Annotation>, key: string, orderAddress: string,
                          cache: map<string, Location>, dist: (Coordinates, Coordinates) -> real)
    : (r: Result<seq<Pair>>)
    ensures r.Raise? ==> r.exc in {AttributeError, TypeError, DoesNotExist}
    ensures r.Ok? ==> Listed(annotations, key).Ok? && Measure(Listed(annotations, key).value, orderAddress, cache, dist).Ok?
    ensures r.Ok? ==> SortedByDistance(r.value)
    ensures r.Ok? ==> multiset(r.value) == multiset(Measure(Listed(annotations, key).value, orderAddress, cache, dist).value)
  {
    match Listed(annotations, key)
    case Raise(e) => Raise(e)
    case Ok(rs) =>
      match Measure(rs, orderAddress, cache, dist)
      case Raise(e) => Raise(e)
      case Ok(ps) => SortByDistanceCorrect(ps); Ok(SortByDistance(ps))
  }

  /** Re-measuring a correct `suitable_restaurants_with_distances` gives it back: the pairs
      already carry the cached distances and are already sorted. */
  lemma RemeasureMatches(menu: seq<MenuItem>, ordered: set<ProductId>, orderAddress: string,
                         cache: map<string, Location>, dist: (Coordinates, Coordinates) -> real, s: seq<Pair>)
    requires Matches(menu, ordered, orderAddress, cache, dist, s)
    ensures Measure(Firsts(s), orderAddress, cache, dist) == Ok(s)
    ensures OrderDistances(map[WITH_DISTANCES := Pairs(s)], WITH_DISTANCES, orderAddress, cache, dist) == Ok(s)
  {
    var m := Measure(Firsts(s), orderAddress, cache, dist);
    assert m.Ok?;
    assert forall k :: 0 <= k < |s| ==> m.value[k] == s[k];
    assert m.value == s;
    SortSortedIsIdentity(s);
  }

  /** The staff view reads `suitable_restaurants`, which neither annotation sets: for any order
      carrying only the attributes that `with_total_prices` and `with_restaurants` set, the
      loop over it raises AttributeError. */
  lemma SuitableRestaurantsNeverSet(annotations: map<string, Annotation>)
    requires annotations.Keys <= {TOTAL_PRICE, WITH_DISTANCES}
    ensures Listed(annotations, SUITABLE_RESTAURANTS) == Raise(AttributeError)
    ensures WITH_DISTANCES in annotations && annotations[WITH_DISTANCES].Pairs? ==>
      Listed(annotations, WITH_DISTANCES).Ok?
  {
    assert SUITABLE_RESTAURANTS != TOTAL_PRICE by { assert |SUITABLE_RESTAURANTS| != |TOTAL_PRICE|; }
    assert SUITABLE_RESTAURANTS != WITH_DISTANCES by { assert |SUITABLE_RESTAURANTS| != |WITH_DISTANCES|; }
  }

  /** After both annotations, the unpacking loop over `suitable_restaurants_with_distances` gives back
      the matched list, and a loop over any other attribute raises AttributeError. */
  lemma DistancesAfterMatching(annotations: map<string, Annotation>, key: string, menu: seq<MenuItem>,
                               ordered: set<ProductId>, orderAddress: string,
                               cache: map<string, Location>, dist: (Coordinates, Coordinates) -> real)
    requires annotations.Keys <= {TOTAL_PRICE, WITH_DISTANCES}
    requires WITH_DISTANCES in annotations && annotations[WITH_DISTANCES].Pairs?
    requires Matches(menu, ordered, orderAddress, cache, dist, annotations[WITH_DISTANCES].pairs)
    ensures key == WITH_DISTANCES ==>
      OrderDistances(annotations, key, orderAddress, cache, dist) == Ok(annotations[WITH_DISTANCES].pairs)
    ensures key !in {TOTAL_PRICE, WITH_DISTANCES} ==>
      OrderDistances(annotations, key, orderAddress, cache, dist) == Raise(AttributeError)
  {
    RemeasureMatches(menu, ordered, orderAddress, cache, dist, annotations[WITH_DISTANCES].pairs);
  }

  /** `with_total_prices()` on the queryset: the lookup is resolved once, before any row is
      read, and then every order gets its `total_price`. */
  method AnnotateTotals(orders: seq<OrderObject>, relation: string, lines: seq<LineRow>) returns (res: Result<()>)
    modifies set o | o in orders
    ensures res.Ok? <==> relation in LINE_RELATIONS
    ensures res.Raise? ==> res.exc == FieldError && forall o :: o in orders ==> o.annotations == old(o.annotations)
    ensures res.Ok? ==> forall o :: o in orders ==>
      o.annotations == old(o.annotations)[TOTAL_PRICE := Total(TotalPrice(lines, o.id))]
  {
    if relation !in LINE_RELATIONS {
      return Raise(FieldError);
    }
    for i := 0 to |orders|
      invariant forall o :: o in orders ==>
        o.annotations == (if o in orders[..i] then old(o.annotations)[TOTAL_PRICE := Total(TotalPrice(lines, o.id))] else old(o.annotations))
    {
      var order := orders[i];
      assert orders[..i + 1] == orders[..i] + [order];
      order.annotations := order.annotations[TOTAL_PRICE := Total(TotalPrice(lines, order.id))];
    }
    assert orders[..|orders|] == orders;
    res := Ok(());
  }

  /** Setting `order.distances` does not change what a loop over another attribute visits. */
  lemma ListedIgnoresDistances(m1: map<string, Annotation>, m2: map<string, Annotation>, key: string,
                                orderAddress: string, cache: map<string, Location>, dist: (Coordinates, Coordinates) -> real)
    requires m1 - {DISTANCES} == m2 - {DISTANCES} && key != DISTANCES
    ensures Listed(m1, key) == Listed(m2, key)
    ensures OrderDistances(m1, key, orderAddress, cache, dist) == OrderDistances(m2, key, orderAddress, cache, dist)
  {
    assert key in m1 - {DISTANCES} <==> key in m1;
    assert key in m2 - {DISTANCES} <==> key in m2;
    assert key in m1 ==> m1[key] == (m1 - {DISTANCES})[key];
    assert key in m2 ==> m2[key] == (m2 - {DISTANCES})[key];
  }

  lemma SetDistancesKeepsRest(m: map<string, Annotation>, v: Annotation)
    ensures m[DISTANCES := v] - {DISTANCES} == m - {DISTANCES}
  {
  }

  /** The loop that builds `order_distances`: the result is the one `Measure` gives. */
  method MeasureDistances(restaurants: seq<Restaurant>, orderAddress: string, cache: map<string, Location>,
                          dist: (Coordinates, Coordinates) -> real) returns (res: Result<seq<Pair>>)
    ensures res == Measure(restaurants, orderAddress, cache, dist)
  {
    var orderDistances: seq<Pair> := [];
    for j := 0 to |restaurants|
      invariant Measure(restaurants[..j], orderAddress, cache, dist) == Ok(orderDistances)
    {
      var d := CalculateDistance(cache, orderAddress, restaurants[j].address, dist);
      if d.Raise? {
        return Raise(d.exc);
      }
      assert restaurants[..j + 1][..j] == restaurants[..j];
      orderDistances := orderDistances + [(restaurants[j], d.value)];
    }
    assert restaurants[..|restaurants|] == restaurants;
    res := Ok(orderDistances);
  }

  /** The body of the loop of `view_orders` for one order: `order.distances` becomes the
      listed restaurants with their distances, sorted; nothing else changes. */
  method AnnotateOrder(order: OrderObject, key: string, cache: map<string, Location>,
                       dist: (Coordinates, Coordinates) -> real) returns (res: Result<()>)
    requires key != DISTANCES
    modifies order
    ensures var r := OrderDistances(old(order.annotations), key, order.address, cache, dist);
      && (res.Ok? <==> r.Ok?)
      && (res.Raise? ==> r == Raise(res.exc) && order.annotations == old(order.annotations))
      && (res.Ok? ==> order.annotations == old(order.annotations)[DISTANCES := Pairs(r.value)])
  {
    var listed := Listed(order.annotations, key);
    if listed.Raise? {
      return Raise(listed.exc);
    }
    var measured := MeasureDistances(listed.value, order.address, cache, dist);
    if measured.Raise? {
      return Raise(measured.exc);
    }
    order.annotations := order.annotations[DISTANCES := Pairs(SortByDistance(measured.value))];
    res := Ok(());
  }

  /** `order.distances` holds the listed restaurants of `before` with their distances, sorted. */
  ghost predicate Annotated(o: OrderObject, before: map<string, Annotation>, key: string,
                            cache: map<string, Location>, dist: (Coordinates, Coordinates) -> real)
    reads o
  {
    var r := OrderDistances(before, key, o.address, cache, dist);
    r.Ok? && DISTANCES in o.annotations && o.annotations[DISTANCES] == Pairs(r.value)
  }

  /** The loop of `view_orders`: for each order in turn, `order.distances` becomes the listed
      restaurants with their distances, sorted; the first exception stops the loop. */
  method AnnotateDistances(orders: seq<OrderObject>, key: string, cache: map<string, Location>,
                           dist: (Coordinates, Coordinates) -> real) returns (res: Result<()>)
    requires key != DISTANCES
    modifies set o | o in orders
    ensures res.Ok? <==> forall o :: o in orders ==> OrderDistances(old(o.annotations), key, o.address, cache, dist).Ok?
    ensures res.Raise? ==> exists o :: o in orders && OrderDistances(old(o.annotations), key, o.address, cache, dist) == Raise(res.exc)
    ensures forall o :: o in orders ==> o.annotations - {DISTANCES} == old(o.annotations) - {DISTANCES}
    ensures res.Ok? ==> forall o :: o in orders ==>
      DISTANCES in o.annotations && o.annotations[DISTANCES] == Pairs(OrderDistances(old(o.annotations), key, o.address, cache, dist).value)
  {
    ghost var before := map o | o in orders :: o.annotations;
    var i := 0;
    while i < |orders|
      invariant 0 <= i <= |orders|
      invariant forall o :: o in orders ==> o.annotations - {DISTANCES} == before[o] - {DISTANCES}
      invariant forall k :: 0 <= k < i ==> Annotated(orders[k], before[orders[k]], key, cache, dist)
    {
      var order := orders[i];
      ghost var current := order.annotations;
      ListedIgnoresDistances(current, before[order], key, order.address, cache, dist);
      res := AnnotateOrder(order, key, cache, dist);
      if res.Raise? {
        return;
      }
      SetDistancesKeepsRest(current, order.annotations[DISTANCES]);
      i := i + 1;
    }
    res := Ok(());
  }

  /** `Order.objects.order_by("status").with_total_prices().with_restaurants()` on orders
      with no attribute set: each order ends with exactly its total price and its matched list. */
  method OrdersQuery(orders: seq<OrderObject>, relation: string, lines: seq<LineRow>,
                     menu: seq<MenuItem>, cache: map<string, Location>, dist: (Coordinates, Coordinates) -> real)
    returns (res: Result<()>)
    requires forall o :: o in orders ==> o.annotations == map[]
    modifies set o | o in orders
    ensures relation !in LINE_RELATIONS ==> res == Raise(FieldError)
    ensures relation in LINE_RELATIONS ==>
      (res.Ok? <==> forall o :: o in orders ==> MatchSucceeds(menu, o.products, o.address, cache, dist))
    ensures res.Ok? ==> forall o :: o in orders ==>
      && o.annotations.Keys <= {TOTAL_PRICE, WITH_DISTANCES}
      && TOTAL_PRICE in o.annotations && o.annotations[TOTAL_PRICE] == Total(TotalPrice(lines, o.id))
      && WITH_DISTANCES in o.annotations && o.annotations[WITH_DISTANCES].Pairs?
      && Matches(menu, o.products, o.address, cache, dist, o.annotations[WITH_DISTANCES].pairs)
  {
    assert TOTAL_PRICE != WITH_DISTANCES by { assert |TOTAL_PRICE| != |WITH_DISTANCES|; }
    res := AnnotateTotals(orders, relation, lines);
    if res.Raise? {
      return;
    }
    ghost var failedAt;
    res, failedAt := WithRestaurants(orders, menu, cache, dist);
  }

  /** `view_orders` with the lookup of `with_total_prices` and the attribute the loop reads as
      parameters. The orders come fresh from the queryset, with no attribute set. */
  method ViewOrdersWith(orders: seq<OrderObject>, relation: string, key: string, lines: seq<LineRow>,
                        menu: seq<MenuItem>, cache: map<string, Location>, dist: (Coordinates, Coordinates) -> real)
    returns (res: Result<()>)
    requires key != DISTANCES
    requires forall o :: o in orders ==> o.annotations == map[]
    modifies set o | o in orders
    ensures relation !in LINE_RELATIONS ==> res == Raise(FieldError)
    ensures relation in LINE_RELATIONS && key !in {TOTAL_PRICE, WITH_DISTANCES} && orders != []
            && (forall o :: o in orders ==> MatchSucceeds(menu, o.products, o.address, cache, dist))
            ==> res == Raise(AttributeError)
    ensures relation in LINE_RELATIONS && key == WITH_DISTANCES ==>
      (res.Ok? <==> forall o :: o in orders ==> MatchSucceeds(menu, o.products, o.address, cache, dist))
    ensures relation in LINE_RELATIONS && key == WITH_DISTANCES && res.Ok? ==> forall o :: o in orders ==>
      && TOTAL_PRICE in o.annotations && o.annotations[TOTAL_PRICE] == Total(TotalPrice(lines, o.id))
      && WITH_DISTANCES in o.annotations && o.annotations[WITH_DISTANCES].Pairs?
      && Matches(menu, o.products, o.address, cache, dist, o.annotations[WITH_DISTANCES].pairs)
      && DISTANCES in o.annotations && o.annotations[DISTANCES] == o.annotations[WITH_DISTANCES]
  {
    assert TOTAL_PRICE != WITH_DISTANCES && DISTANCES != WITH_DISTANCES && DISTANCES != TOTAL_PRICE by {
      assert |TOTAL_PRICE| != |WITH_DISTANCES| && |DISTANCES| != |WITH_DISTANCES| && |DISTANCES| != |TOTAL_PRICE|;
    }
    res := OrdersQuery(orders, relation, lines, menu, cache, dist);
    if res.Raise? {
      return;
    }
    forall o | o in orders
      ensures key == WITH_DISTANCES ==>
        OrderDistances(o.annotations, key, o.address, cache, dist) == Ok(o.annotations[WITH_DISTANCES].pairs)
      ensures key !in {TOTAL_PRICE, WITH_DISTANCES} ==>
        OrderDistances(o.annotations, key, o.address, cache, dist) == Raise(AttributeError)
    {
      DistancesAfterMatching(o.annotations, key, menu, o.products, o.address, cache, dist);
    }
    ghost var matched := map o | o in orders :: o.annotations;
    res := AnnotateDistances(orders, key, cache, dist);
    if key !in {TOTAL_PRICE, WITH_DISTANCES} && orders != [] {
      assert orders[0] in orders;
      ghost var o :| o in orders && OrderDistances(matched[o], key, o.address, cache, dist) == Raise(res.exc);
    }
    if key == WITH_DISTANCES && res.Ok? {
      forall o | o in orders
        ensures TOTAL_PRICE in o.annotations && o.annotations[TOTAL_PRICE] == Total(TotalPrice(lines, o.id))
        ensures WITH_DISTANCES in o.annotations && o.annotations[WITH_DISTANCES] == matched[o][WITH_DISTANCES]
        ensures DISTANCES in o.annotations && o.annotations[DISTANCES] == o.annotations[WITH_DISTANCES]
      {
        assert o.annotations - {DISTANCES} == matched[o] - {DISTANCES};
        assert TOTAL_PRICE in matched[o] - {DISTANCES};
        assert WITH_DISTANCES in matched[o] - {DISTANCES};
      }
    }
  }

  /** `view_orders` as written: the lookup `products__static_price` fails before anything else. */
  method ViewOrdersAsWritten(orders: seq<OrderObject>, lines: seq<LineRow>, menu: seq<MenuItem>,
                             cache: map<string, Location>, dist: (Coordinates, Coordinates) -> real)
    returns (res: Result<()>)
    requires forall o :: o in orders ==> o.annotations == map[]
    modifies set o | o in orders
    ensures res == Raise(FieldError)
  {
    assert SUITABLE_RESTAURANTS != DISTANCES by { assert |SUITABLE_RESTAURANTS| != |DISTANCES|; }
    assert "products" !in LINE_RELATIONS by { assert |"products"| != |"order_products"|; }
    res := ViewOrdersWith(orders, "products", SUITABLE_RESTAURANTS, lines, menu, cache, dist);
  }

  /** `view_orders` as intended: the lookup through `order_products`, and the loop
      `for restaurant, _ in order.suitable_restaurants_with_distances`. It completes exactly when every
      order can be matched, and then `order.distances` is the matched list itself. */
  method ViewOrders(orders: seq<OrderObject>, lines: seq<LineRow>, menu: seq<MenuItem>,
                    cache: map<string, Location>, dist: (Coordinates, Coordinates) -> real)
    returns (res: Result<()>)
    requires forall o :: o in orders ==> o.annotations == map[]
    modifies set o | o in orders
    ensures res.Ok? <==> forall o :: o in orders ==> MatchSucceeds(menu, o.products, o.address, cache, dist)
    ensures res.Ok? ==> forall o :: o in orders ==>
      && TOTAL_PRICE in o.annotations && o.annotations[TOTAL_PRICE] == Total(TotalPrice(lines, o.id))
      && DISTANCES in o.annotations && o.annotations[DISTANCES].Pairs?
      && Matches(menu, o.products, o.address, cache, dist, o.annotations[DISTANCES].pairs)
  {
    assert WITH_DISTANCES != DISTANCES by { assert |WITH_DISTANCES| != |DISTANCES|; }
    res := ViewOrdersWith(orders, "order_products", WITH_DISTANCES, lines, menu, cache, dist);
  }
}
