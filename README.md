# burger-store core, modelled in Dafny

This project models the core of a Django food-delivery site:

- **The customer API** (`foodcartapp/views.py`):
  - the product listing, which shows only products that some restaurant has on sale;
  - the order endpoint, which writes an order row and one line item per requested product.
- **The catalogue and order models** (`foodcartapp/models.py`):
  - the menu items, which are unique per (restaurant, product);
  - the `available()` filter;
  - the `total_price` annotation;
  - the matcher `with_restaurants`. For every order it finds the restaurants that sell every ordered product that is on sale anywhere. It pairs each with its distance to the delivery address and sorts the pairs by that distance.
- **The geocoding cache** (`locations/`):
  - one `Location` row per address;
  - the parser of the geocoder's answer, which reads a `"lon lat"` position and returns `(lat, lon)`;
  - the cache-only distance lookup.
- **The manager views** (`restaurateur/views.py`):
  - the availability grid of products against restaurants;
  - the restaurant list, which fills the geocoding cache;
  - the order list, which re-measures and sorts the distances.
- **The data migration** that back-fills `OrderProduct.static_price` in place.

## How the model is built

- Each module follows one part of the program:
  - `Catalog`: entities, constraints, `available`, totals;
  - `Locations`: the cache table;
  - `Geocoding`: the parser and the distance;
  - `Ranking`: Python's stable `sorted` by distance, written as an insertion sort;
  - `Matching`: `with_restaurants`;
  - `Restaurateur`: the three manager views;
  - `FoodcartViews`: the customer API;
  - `StaticPriceMigration`: the back-fill.
- Loops in the source are methods with loops in the model. Each method is proved against a function that specifies it, such as `IngestLines` for the line-item loop or `FillCache` for the cache fill. The properties are lemmas about those functions.
- The order objects that the querysets annotate are instances of the class `OrderObject`. The attributes set on them form a map that the methods update. The cache table and the order and line tables are classes whose fields the methods reassign. The migration works on an `array` that it overwrites in place.
- Errors are values. A `Result` is either a value or the Python exception raised instead (`IndexError`, `KeyError`, `TypeError`, `ValueError`, `AttributeError`, `DoesNotExist`, `FieldError`, `IntegrityError`). Writes made before an exception stay, because the views run in autocommit mode and nothing is rolled back.
- `Model.objects.create` runs no field validators. An insert fails only on what the database enforces: NOT NULL, UNIQUE, and the CHECK on positive-integer columns. The declared validators are separate predicates (`OrderFieldsValid`, `LineFieldsValid`, `LocationFieldsValid`).
- Anything outside the program is a parameter:
  - the geocoder's answer for an address, `geocode: string -> seq<Candidate>`;
  - Python's `float()` on text, `toFloat`;
  - Python's rendering of a float, `fmt`;
  - the geodesic distance, `dist`;
  - the current instant, `now`.
- Prices are integer cents. Coordinates are `real`.
- The code is modelled as it is, including these behaviours a reader may not expect:
  - An ordered product that no restaurant has on sale drops out of the matcher, as long as some other ordered product is on sale (`UnsoldProductDropsOut`).
  - When no ordered product is on sale anywhere, `with_restaurants` raises IndexError (`MatchOrder`; see "## Left out").
  - `calculate_distance` looks only in the cache. Its fetch fallback is commented out (`CalculateDistance`).
  - The matcher does not drop a restaurant whose distance cannot be computed. One uncached address, the delivery address or a restaurant's, raises DoesNotExist for the whole order (`UncachedAddressFailsOrder`).
  - The only code that fills the cache stores restaurant addresses (`restaurateur/views.py:108-116`, `test.py:6-13`). So a delivery address is cached only when a restaurant shares it.
  - `register_order` writes the order row before it checks the products list, and it never checks the quantity.
  - `register_order` is not atomic. The order row and the line items written before an exception stay (`RegisterOrderWith`, `IngestLinesMeaning`).
  - Ties in distance are not broken by restaurant id. Their order is Python's set iteration order, and the sort keeps it (`SortByDistanceStable`).

## Model

| member | source | states |
|---|---|---|
| Catalog.CreateMenuItem | foodcartapp/models.py:88-106 | inserting a menu item succeeds exactly when its (restaurant, product) pair is new, and otherwise raises IntegrityError; on success it appends exactly that item; inserts keep the pairs unique |
| Catalog.CreatedMenuItemIsOnSale | foodcartapp/models.py:101 | a menu item created without an explicit flag puts its product on sale |
| Catalog.Available | foodcartapp/models.py:35-39 | a product is returned exactly when it is in the input and some menu item for it has `availability=True`; the result is no longer than the input |
| Catalog.NewOrderRow | foodcartapp/models.py:155-206 | a new order has status NEW, which is among the five status choices, no restaurant, no call or delivery time, and is registered at `now`; the database accepts it exactly when a non-negative payment is given; it passes `full_clean` exactly when the first name has 1 to 20 characters, the last name 1 to 40, the phone number is not blank, the address has 10 to 100 characters and the payment is card or cash |
| Catalog.PricedLines | foodcartapp/models.py:113-114 | the summed values are exactly the non-null static prices of the order's lines |
| Catalog.TotalPrice | foodcartapp/models.py:113-114 | the SQL sum of an order is non-NULL exactly when some line of that order has a static price |
| Catalog.TotalPriceMeaning | foodcartapp/models.py:113-114 | the SQL sum is NULL exactly when no line of the order has a price, and it is never negative when no price is |
| Catalog.TotalPriceAppend | foodcartapp/models.py:113-114 | adding a line changes an order's total only when the line belongs to that order and has a price, and then adds exactly that price |
| Catalog.AnnotateTotalPrice | foodcartapp/models.py:113-114 | the annotation succeeds exactly when the lookup names the reverse relation of OrderProduct.order, and otherwise raises FieldError |
| Catalog.TotalPriceLookupMismatch | foodcartapp/models.py:113-114 | with the lookup `products` as written, the annotation raises FieldError for every table; with `order_products` it is the SQL sum |
| Ranking.Insert | foodcartapp/models.py:146-148 | one insertion step of the stable sort adds exactly one element; InsertPermutes, InsertKeepsSorted and InsertKeepsDistinct give the rest |
| Ranking.SortByDistance | foodcartapp/models.py:146-148 | `sorted(..., key=lambda pair: pair[1])` keeps the length; SortByDistanceCorrect states that it is a distinct-preserving permutation sorted by distance |
| Ranking.InsertPermutes | foodcartapp/models.py:146-148 | inserting a pair adds exactly that pair to the multiset |
| Ranking.InsertKeepsSorted | foodcartapp/models.py:146-148 | inserting into a list sorted by distance keeps it sorted |
| Ranking.InsertKeepsDistinct | foodcartapp/models.py:146-148 | inserting a pair for a new restaurant keeps restaurants distinct |
| Ranking.SortByDistancePermutes | foodcartapp/models.py:146-148 | sorting returns a permutation of its input |
| Ranking.SortByDistanceSorts | foodcartapp/models.py:146-148 | the sorted list has non-decreasing distances |
| Ranking.SortByDistanceKeepsDistinct | foodcartapp/models.py:146-148 | sorting keeps restaurants distinct |
| Ranking.SortByDistanceCorrect | foodcartapp/models.py:146-148 | sorting gives a permutation, sorted by distance, that stays distinct when the input was |
| Ranking.AtDistance | foodcartapp/models.py:146-148 | the pairs at one distance, a subsequence of the list, all at that distance |
| Ranking.InsertStable | foodcartapp/models.py:146-148 | an insertion step puts the new pair ahead of every pair at its own distance and moves no pair relative to pairs at the same distance |
| Ranking.SortByDistanceStable | foodcartapp/models.py:146-148 | `sorted` is stable: for every distance, the pairs at that distance come out in their input order |
| Ranking.SortSortedIsIdentity | restaurateur/views.py:142 | sorting a list that is already sorted by distance returns it unchanged |
| Ranking.SortedPermutationsAgreeOnDistances | foodcartapp/models.py:146-148 | two sorted permutations of each other have the same length and the same distance at every index |
| Locations.Display | locations/models.py:36-37 | `__str__` is the address, then ": (", then the longitude and the latitude separated by a space, then ")" |
| Locations.InsertRow | locations/models.py:8-30 | an insert raises ValueError exactly when a coordinate is not a float, and IntegrityError exactly when both are floats but the address is taken; otherwise it adds one row under the new address with the converted coordinates and `now`, and keeps every other row; rows stay keyed by their own address |
| Locations.InsertRowSkipsValidators | locations/models.py:8-26 | a new address with float coordinates is stored with exactly those coordinates even when the row fails the declared validators, for example a latitude above 90 |
| Locations.LocationTable.Create | locations/models.py:8-30 | the table after `create` is the one `InsertRow` gives, or is unchanged when the insert raises; the unique-address invariant is kept |
| Geocoding.Split | locations/geocoding.py:25 | `split(" ")` gives one more part than there are spaces, and no part holds a space |
| Geocoding.SplitJoin | locations/geocoding.py:25 | splitting joined parts that hold no separator gives back the parts |
| Geocoding.JoinSplit | locations/geocoding.py:25 | joining the split parts gives back the text |
| Geocoding.ParsePos | locations/geocoding.py:25 | unpacking into two names succeeds exactly when the position holds one space, and otherwise raises ValueError; the two parts joined by a space are the position |
| Geocoding.FetchCoordinates | locations/geocoding.py:19-26 | the parser returns None exactly when there is no candidate; its only error is ValueError |
| Geocoding.FirstCandidateOnly | locations/geocoding.py:24 | only the first candidate matters |
| Geocoding.PosRoundTrip | locations/geocoding.py:25-26 | a position "lon lat" whose parts hold no space parses to (lat, lon), so the order is swapped |
| Geocoding.MalformedPos | locations/geocoding.py:25 | a position that does not split into exactly two parts raises ValueError |
| Geocoding.DisplayedCoordinatesParse | locations/models.py:36-37 | the coordinates a cache entry prints are in the provider's order and parse back to (latitude, longitude) |
| Geocoding.CalculateDistance | locations/geocoding.py:29-47 | the distance is computed exactly when both addresses are cached, and otherwise DoesNotExist is raised, since there is no fetch fallback |
| Geocoding.DistanceDependsOnlyOnCoordinates | locations/geocoding.py:37-40 | the distance is `dist` of the two cached (latitude, longitude) pairs, so caches that agree on them give the same distance |
| Matching.OrderItems | foodcartapp/models.py:118-123 | the selected menu items are exactly those in the menu that are available and offer an ordered product |
| Matching.IntersectionOf | foodcartapp/models.py:136 | a restaurant is in `first.intersection(*others)` exactly when it is in `first` and in every other set |
| Matching.ProductsOf | foodcartapp/models.py:125 | `products` holds the product of every selected menu item and nothing else |
| Matching.RestaurantsWith | foodcartapp/models.py:128-133 | `restaurants_with_product` holds the restaurant of every selected menu item for that product and nothing else |
| Matching.OfferedIsProductsOf | foodcartapp/models.py:119-125 | `products` is exactly the set of ordered products that some restaurant has on sale |
| Matching.RestaurantsWithIsSells | foodcartapp/models.py:128-133 | a restaurant is in `restaurants_with_product` exactly when it has an available menu item for that product |
| Matching.IntersectionIsSuitable | foodcartapp/models.py:127-136 | the intersection of the per-product sets is exactly the set of restaurants that sell every offered ordered product |
| Matching.RestaurantsPerProduct | foodcartapp/models.py:127-134 | the loop builds one restaurant set per product of `products`, each the set of restaurants selling it; the list is empty exactly when `products` is |
| Matching.PairWithDistances | foodcartapp/models.py:138-144 | the loop completes exactly when every suitable restaurant's distance can be computed, and otherwise raises DoesNotExist; it gives one pair per suitable restaurant, with that restaurant's distance |
| Matching.SortedPairsCover | foodcartapp/models.py:146-148 | after sorting there is still exactly one pair per suitable restaurant with its distance, and the list is sorted |
| Matching.MatchOrder | foodcartapp/models.py:117-148 | for one order: IndexError exactly when no ordered product is on sale anywhere, and otherwise DoesNotExist or, exactly when every needed distance is cached, a list with one pair per suitable restaurant, each with its distance, sorted by distance |
| Matching.UnsoldProductDropsOut | foodcartapp/models.py:120-125 | adding an ordered product that nobody has on sale changes neither the offered products nor the suitable restaurants |
| Matching.MoreProductsFewerRestaurants | foodcartapp/models.py:127-136 | once something is offered, ordering more products can only shrink the suitable set |
| Matching.MatchedRestaurantsSellEverything | foodcartapp/models.py:119-136 | every restaurant in a correct result has an available menu item for every ordered product that is on sale |
| Matching.MatchesAgreeUpToTies | foodcartapp/models.py:139-148 | two correct results hold the same pairs and the same sequence of distances, so set iteration order only reorders ties |
| Matching.UncachedAddressFailsOrder | foodcartapp/models.py:138-144 | one suitable restaurant whose address, or the delivery address, is not cached makes the whole order fail; no restaurant is dropped |
| Matching.TwoRestaurantExample | foodcartapp/models.py:119-136 | where A sells 1 and 2 and B sells 1 and 3: {1, 2} suits only A, while {1} and {1, 4} suit both, since 4 is sold nowhere |
| Matching.MatchOne | foodcartapp/models.py:118-148 | one order: on success its `suitable_restaurants_with_distances` is a correct result and nothing else changes; on failure it is untouched |
| Matching.MatchNext | foodcartapp/models.py:117-148 | one turn of the order loop: when the orders before it are done, either this one is done as well, with only its matched list added, or the loop stops at it with that order untouched |
| Matching.WithRestaurants | foodcartapp/models.py:116-150 | the loop completes exactly when every order can be matched, and then every order carries a correct result; when it stops, it stops at an order that cannot be matched, and every order before that one carries a correct result; only that attribute is added |
| Restaurateur.MenuItemsOf | restaurateur/views.py:82 | `product.menu_items.all()` is exactly the menu items of that product |
| Restaurateur.Flags | restaurateur/views.py:80-83 | the comprehension has a key exactly for each restaurant with a menu item |
| Restaurateur.FlagsLastWins | restaurateur/views.py:80-83 | the comprehension keeps the flag of the last item of each restaurant |
| Restaurateur.DefaultAvailability | restaurateur/views.py:74 | the default map has a key exactly for each restaurant, and every value is False |
| Restaurateur.AvailabilityRow | restaurateur/views.py:78-87 | a row has one entry per restaurant |
| Restaurateur.AvailabilityRowEntry | restaurateur/views.py:74-87 | an entry is False when the product has no menu item at that restaurant, and otherwise equals the flag of its last menu item there |
| Restaurateur.AvailabilityRowIsOnSaleAt | restaurateur/views.py:78-87 | with unique (restaurant, product) pairs, an entry is True exactly when that restaurant has the product on sale |
| Restaurateur.ViewProducts | restaurateur/views.py:70-89 | one grid row per product, in order, pairing it with the availability row built from that product's menu items alone, so no row depends on another |
| Restaurateur.Addresses | restaurateur/views.py:104 | the address list is the restaurants' addresses in order |
| Restaurateur.FetchAndStore | restaurateur/views.py:111-116 | a geocoder miss gives TypeError (or is skipped); a hit inserts the returned (latitude, longitude) as `InsertRow` does; an unparsable answer gives ValueError |
| Restaurateur.FillAsWritten | restaurateur/views.py:108-116 | the loop as written makes no more geocoder requests than there are listed addresses, only for addresses outside the pre-read cached set, and fails only with TypeError, ValueError or IntegrityError |
| Restaurateur.FillCache | restaurateur/views.py:108-116 | the corrected loop makes no more geocoder requests than there are listed addresses, asks only about listed addresses, and never removes a cached address |
| Restaurateur.FillCacheKeepsAndStores | restaurateur/views.py:105-118 | the fill never rewrites a cached entry and never sends a cached address to the geocoder; every new entry is for a listed address and holds the parsed coordinates; rows stay keyed by address |
| Restaurateur.FillCacheCovers | restaurateur/views.py:109-116 | the fill's only error is ValueError; when it completes, every address is cached or unknown to the geocoder, and every found address is cached |
| Restaurateur.FillCacheStable | restaurateur/views.py:109-118 | on a table where every address is cached or unknown, the fill completes and changes nothing |
| Restaurateur.FillCacheIdempotent | restaurateur/views.py:109-118 | filling a second time leaves the table of the first fill |
| Restaurateur.FillAsWrittenKeepsAndStores | restaurateur/views.py:108-116 | the loop as written never rewrites an existing entry; every entry it adds is for a listed address outside the pre-read cached set and holds the parsed coordinates; rows stay keyed by address |
| Restaurateur.FillAsWrittenCovers | restaurateur/views.py:108-116 | the loop as written completes only when the geocoder found every address outside the pre-read cached set, and then every address is cached |
| Restaurateur.FillAsWrittenFromCache | restaurateur/views.py:102-118 | with the cached set read before the loop: no cached address reaches the geocoder, cached entries are kept, new entries hold the parsed coordinates, and a completed loop leaves every address cached after the geocoder found each uncached one |
| Restaurateur.FillAsWrittenAgrees | restaurateur/views.py:105-118 | on distinct addresses that the geocoder all knows, the loop as written and the corrected loop agree |
| Restaurateur.UnknownAddressRaises | restaurateur/views.py:111 | as written, an uncached address that the geocoder does not know raises TypeError; the corrected loop skips it |
| Restaurateur.SharedAddressRaises | restaurateur/views.py:105-116 | as written, two restaurants at one uncached address make the second insert raise IntegrityError; the corrected loop caches the address once |
| Restaurateur.ViewRestaurantsAsWritten | restaurateur/views.py:102-118 | the table afterwards and the exception, if any, are those of `FillAsWritten` with the cached addresses read before the first insert, so FillAsWrittenFromCache applies: cached entries are kept, new ones hold the parsed coordinates, and success means every address is cached |
| Restaurateur.ViewRestaurants | restaurateur/views.py:102-118 | the table afterwards and the exception, if any, are those of the corrected fill |
| Restaurateur.Listed | restaurateur/views.py:135 | a loop over an attribute nobody set raises AttributeError; its only other error is TypeError |
| Restaurateur.Measure | restaurateur/views.py:134-141 | the inner loop completes exactly when every listed restaurant's distance can be computed, and otherwise raises DoesNotExist; it pairs each restaurant, in order, with its distance |
| Restaurateur.OrderDistances | restaurateur/views.py:133-142 | `order.distances` is sorted by distance and is a permutation of the measured pairs |
| Restaurateur.RemeasureMatches | restaurateur/views.py:134-142 | re-measuring a correct matcher result gives back the same list |
| Restaurateur.SuitableRestaurantsNeverSet | restaurateur/views.py:135 | on an order carrying only the two annotations, the loop over `suitable_restaurants` raises AttributeError, while the loop over the attribute that is set succeeds |
| Restaurateur.DistancesAfterMatching | restaurateur/views.py:131-142 | after both annotations, the loop over the matched list gives it back, and a loop over an unset attribute raises AttributeError |
| Restaurateur.AnnotateTotals | restaurateur/views.py:131 | the lookup is resolved before any row, so a wrong lookup raises FieldError and changes nothing; otherwise every order gets its SQL total |
| Restaurateur.ListedIgnoresDistances | restaurateur/views.py:142 | setting `order.distances` does not change what a loop over another attribute visits |
| Restaurateur.MeasureDistances | restaurateur/views.py:134-141 | the loop that builds `order_distances` gives what `Measure` gives |
| Restaurateur.AnnotateOrder | restaurateur/views.py:134-142 | for one order, `distances` becomes the sorted measured pairs, or the exception is raised and the order is untouched |
| Restaurateur.AnnotateDistances | restaurateur/views.py:133-142 | the loop completes exactly when every order's distances can be computed, and then every order's `distances` is its sorted measured list; an error is one of the orders' errors; no other attribute changes |
| Restaurateur.OrdersQuery | restaurateur/views.py:131 | a wrong lookup raises FieldError; otherwise the query completes exactly when every order can be matched, leaving each order with exactly its total and a correct matched list |
| Restaurateur.ViewOrdersWith | restaurateur/views.py:130-142 | a wrong lookup raises FieldError; looping over an attribute nobody set raises AttributeError; looping over the matched list completes exactly when every order can be matched, and then `distances` equals the matched list |
| Restaurateur.ViewOrdersAsWritten | restaurateur/views.py:130-142 | as written, the view raises FieldError for every set of orders |
| Restaurateur.ViewOrders | restaurateur/views.py:130-142 | corrected, the view completes exactly when every order can be matched; then each order has its total, and its `distances` has one pair per suitable restaurant with its distance, sorted |
| FoodcartViews.Dump | foodcartapp/views.py:43-60 | the dict holds the product's fields; `category` is null exactly when the product has none and otherwise holds its id and name; `restaurant` holds the product's own id and name |
| FoodcartViews.ProductListApi | foodcartapp/views.py:38-61 | one dict per available product, in order, and a dict is listed exactly when it is the dump of a product on sale |
| FoodcartViews.LineArgs | foodcartapp/views.py:88-92 | evaluating the arguments raises KeyError for a missing key and DoesNotExist for an unknown product, and otherwise gives the row for that order and product with `amount = quantity` and, when priced, price times quantity |
| FoodcartViews.LineFor | foodcartapp/views.py:88-92 | a line item is written exactly when the product exists, both keys are present, the quantity is non-negative and a static price is passed; the written row has `amount = quantity` and static price = price × quantity |
| FoodcartViews.IngestLines | foodcartapp/views.py:87-92 | the loop writes at most one row per entry, each for this order with a static price and a non-negative amount, and fails only with KeyError, DoesNotExist or IntegrityError |
| FoodcartViews.IngestLinesMeaning | foodcartapp/views.py:87-92 | the loop completes exactly when every entry can be written, and then writes one row per entry in order; otherwise it writes the rows of the entries before the first failing one and raises that entry's exception |
| FoodcartViews.UnknownProductRaises | foodcartapp/views.py:90 | an entry with an unknown product id stops the loop, at or before that entry |
| FoodcartViews.UnpricedLinesRefused | foodcartapp/views.py:88-92 | without a static price, no entry is ever written |
| FoodcartViews.WrittenLineValidIff | foodcartapp/models.py:256-265 | a written line item meets the declared validators exactly when its quantity is in [1, 10]; `create` stores the others too |
| FoodcartViews.Store.CreateOrder | foodcartapp/views.py:76-81 | `Order.objects.create` appends the new row with the next id, or raises IntegrityError and writes nothing |
| FoodcartViews.Store.CreateLine | foodcartapp/views.py:88-92 | `OrderProduct.objects.create` appends the row when the database accepts it, and otherwise raises IntegrityError |
| FoodcartViews.Store.CreateLines | foodcartapp/views.py:87-92 | the loop writes exactly the rows, and raises exactly the exception, that `IngestLines` gives |
| FoodcartViews.Store.RegisterOrderWith | foodcartapp/views.py:73-94 | a missing key raises KeyError and writes nothing; the order row is written before the products field is checked; a bad products field gives 400 "Bad products!" and leaves the order; otherwise the line items are written as `IngestLines` says, and the answer is 200 "Order placed" exactly when they all are |
| FoodcartViews.Store.RegisterOrderAsWritten | foodcartapp/views.py:76-81 | as written, every request with the four keys raises IntegrityError, because no payment is passed, and writes nothing |
| FoodcartViews.Store.RegisterOrder | foodcartapp/views.py:73-94 | corrected, a request with the four keys always leaves an order row; with a proper products list it writes one priced line item per entry until one fails, and answers 200 exactly when none does |
| StaticPriceMigration.BackfillLine | foodcartapp/migrations/0041_auto_20220505_1121.py:9-11 | a processed line gets price × amount as its static price; only that field changes |
| StaticPriceMigration.Backfill | foodcartapp/migrations/0041_auto_20220505_1121.py:8-11 | the same lines in the same order; lines with a null static price are unchanged, and the others get price × amount |
| StaticPriceMigration.BackfillIdempotent | foodcartapp/migrations/0041_auto_20220505_1121.py:9-11 | running the back-fill twice with the same prices gives what running it once gives |
| StaticPriceMigration.AddStaticPrice | foodcartapp/migrations/0041_auto_20220505_1121.py:6-11 | the array after the in-place loop is the back-filled table |

## Left out

- The HTTP call to the geocoder (`requests`, the API key, `raise_for_status`, the JSON path) is left out. The geocoder is the parameter `geocode`, which gives the candidate list for an address. A failed HTTP call is not modelled.
- geopy's ellipsoidal distance is left out, because it is floating-point arithmetic. It is the parameter `dist`, into `real`.
- Python's `float()` on text and its printing of floats are the parameters `toFloat` and `fmt`.
- The following are left out: Django's ORM, query planning, the `select_related`/`prefetch_related` hints, templates, the login and logout views, the `is_manager` check, phone-number format validation (`OrderFieldsValid` keeps only its non-blank rule), and image URLs. The image is a string.
- Name ordering of restaurants (`order_by("name")`) and status ordering of orders (`order_by("status")`) are left out. They are taken as the given order of the input lists, so collation is not modelled.
- `banners_list_api` is left out: it returns constant data.
- The schema-only migrations and the import-time script `test.py` are left out. The script duplicates the cache fill and does network I/O.
- Concurrent requests and races between cache inserts are left out.
- Decimal prices are integer cents. The `max_digits=8` bound of the decimal columns is not modelled.
- The upper bound 32767 of `PositiveSmallIntegerField` is not modelled. The non-negativity CHECK is.
- Entries of the products list that are not dicts are not modelled. Every entry is a (product, quantity) record whose fields may be missing.
- FoodcartViews.Store.NextOrderId: ids are the row count plus one. The database's sequence, and deleted rows, are not modelled.
- Matching.Sells and Matching.RestaurantsWith compare restaurants as whole records, while Django compares model instances by primary key. Within one request every query returns the same record for an id, so the two agree; records that share an id but differ in other fields are not modelled.
- Matching.MatchOrder: the order among restaurants at equal distance is left open, because it is Python's set iteration order. Matching.MatchesAgreeUpToTies proves that this order is all that is left open.
- Restaurateur.ViewOrdersWith: when the loop reads an attribute other than the matched list, the contract states only the AttributeError case, for orders that can all be matched. The TypeError of a loop over `total_price` is not stated.
- Locations.InsertRow: the declared coordinate ranges and address length (`LocationFieldsValid`) are not checked on insert, because `create` runs no validators.
- `product_list_api` puts the product's own id and name under "restaurant". This is modelled as written, because nothing in the code shows which restaurant was meant.
- Migration 0041 processes the rows whose static price is not null (`exclude(static_price__isnull=True)`). This is modelled as written.
- When no ordered product is on sale anywhere, `with_restaurants` raises IndexError. This is modelled as written, and the model does not guess a replacement.

## Findings

| source | as written | input that shows it | evidently intended | confidence | as-written member | corrected member |
|---|---|---|---|---|---|---|
| foodcartapp/models.py:113-114 | `Sum("products__static_price")`, but the reverse relation of OrderProduct.order is `order_products` (line 247) | any queryset, even an empty one: FieldError | `Sum("order_products__static_price")` | high (not executed) | Catalog.TotalPriceLookupMismatch | Restaurateur.ViewOrders |
| restaurateur/views.py:135 | loops over `order.suitable_restaurants`, which nothing sets | any order after `with_restaurants`: AttributeError | `for restaurant, _ in order.suitable_restaurants_with_distances:`, unpacking each (restaurant, distance) pair | high (not executed) | Restaurateur.SuitableRestaurantsNeverSet | Restaurateur.ViewOrders |
| foodcartapp/views.py:76-81 | `Order.objects.create` without `payment`, a NOT NULL column with no default (models.py:203-206) | any request with the four customer keys: IntegrityError | pass a payment choice | high (not executed) | FoodcartViews.Store.RegisterOrderAsWritten | FoodcartViews.Store.RegisterOrder |
| foodcartapp/views.py:88-92 | `OrderProduct.objects.create` without `static_price`, a NOT NULL column with no default (models.py:260-265) | a payment given and a products list of one existing product: IntegrityError, no line written | pass `static_price = price * quantity` | high (not executed) | FoodcartViews.UnpricedLinesRefused | FoodcartViews.Store.RegisterOrder |
| restaurateur/views.py:111 | `latitude, longitude = fetch_coordinates(address)`, where the call returns None when nothing is found | an uncached restaurant address for which the geocoder returns no candidates: TypeError | skip addresses the geocoder does not know | medium (not executed) | Restaurateur.UnknownAddressRaises | Restaurateur.ViewRestaurants |
| restaurateur/views.py:105-110 | membership is tested against the cached addresses as read before the first insert | two restaurants at the same uncached address: the second insert raises IntegrityError | test the cache as it is at each step | medium (not executed) | Restaurateur.SharedAddressRaises | Restaurateur.ViewRestaurants |
