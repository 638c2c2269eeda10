/** The data migration that fills `OrderProduct.static_price`: every line item whose static
    price is not null gets the product's current price times its amount, and is saved. */
module StaticPriceMigration {
  import opened Wrappers
  import opened Catalog

  /** Every line refers to a product with a known price (the foreign key on `product`). */
  predicate PricesKnown(lines: seq<LineRow>, prices: map<ProductId, Cents>) {
    forall k :: 0 <= k < |lines| ==> lines[k].product in prices
  }

  /** A line is processed when `exclude(static_price__isnull=True)` keeps it. */
  predicate Processed(l: LineRow) {
    l.staticPrice.Some?
  }

  /** One iteration of the loop: a processed line gets price times amount; only that field
      changes. A line with a null static price is not visited. */
  function BackfillLine(l: LineRow, prices: map<ProductId, Cents>): (r: LineRow)
    requires l.product in prices
    ensures r.order == l.order && r.product == l.product && r.amount == l.amount
    ensures Processed(r) <==> Processed(l)
    ensures !Processed(l) ==> r == l
    ensures Processed(l) ==> r.staticPrice == Some(prices[l.product] * l.amount)
  {
    if Processed(l) then l.(staticPrice := Some(prices[l.product] * l.amount)) else l
  }

  /** The table after the migration: the same lines in the same order, where only the static
      price of the processed ones has changed, to price times amount. */
  function Backfill(lines: seq<LineRow>, prices: map<ProductId, Cents>): (r: seq<LineRow>)
    requires PricesKnown(lines, prices)
    ensures |r| == |lines| && PricesKnown(r, prices)
    ensures forall k :: 0 <= k < |r| ==>
      r[k].order == lines[k].order && r[k].product == lines[k].product && r[k].amount == lines[k].amount
    ensures forall k :: 0 <= k < |r| && !Processed(lines[k]) ==> r[k] == lines[k]
    ensures forall k :: 0 <= k < |r| && Processed(lines[k]) ==>
      r[k].staticPrice == Some(prices[lines[k].product] * lines[k].amount)
  {
    seq(|lines|, k requires 0 <= k < |lines| && PricesKnown(lines, prices) => BackfillLine(lines[k], prices))
  }

  /** Running the migration a second time, with the same prices, changes nothing. */
  lemma BackfillIdempotent(lines: seq<LineRow>, prices: map<ProductId, Cents>)
    requires PricesKnown(lines, prices)
    ensures Backfill(Backfill(lines, prices), prices) == Backfill(lines, prices)
  {
    var once := Backfill(lines, prices);
    forall k | 0 <= k < |lines| ensures Backfill(once, prices)[k] == once[k] {
      assert BackfillLine(once[k], prices) == once[k];
    }
  }

  /** `add_static_price`: the loop over the selected rows, overwriting each in place. */
  method AddStaticPrice(lines: array<LineRow>, prices: map<ProductId, Cents>)
    requires PricesKnown(lines[..], prices)
    modifies lines
    ensures PricesKnown(old(lines[..]), prices)
    ensures lines[..] == Backfill(old(lines[..]), prices)
  {
    ghost var original := lines[..];
    for i := 0 to lines.Length
      invariant forall k :: 0 <= k < lines.Length ==> original[k].product in prices
      invariant forall k :: 0 <= k < i ==> lines[k] == BackfillLine(original[k], prices)
      invariant forall k :: i <= k < lines.Length ==> lines[k] == original[k]
    {
      var line := lines[i];
      if line.staticPrice.Some? {
        lines[i] := line.(staticPrice := Some(prices[line.product] * line.amount));
      }
    }
  }
}
