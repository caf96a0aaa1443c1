/** Stock intake, shrinkage and lookup: receiving a batch creates a cost lot and raises the
    product's stock, reporting a loss drains the lots oldest first and records its cost, and the
    product search matches names and, for all-digit queries, barcodes. */
module Inventory {
  import opened Outcomes
  import opened Text
  import opened Fifo
  import opened Store
  import opened Seqs

  // ---- receiving stock ----

  /** `provider || null`: an empty provider name is stored as no provider. */
  function ProviderField(provider: Option<string>): (r: Option<string>)
    ensures r == None <==> provider == None || provider == Some("")
    ensures r.Some? ==> r == provider
  {
    if provider == Some("") then None else provider
  }

  /** Stock not backed by any lot (initial stock, and stock given back by voided sales). */
  function LegacyStock(p: Product): int
  {
    p.stock - Available(p.lots)
  }

  /** Receive `quantity` units at unit cost `costPrice`. The checks come in the source's order;
      a product that does not exist makes the batch insert fail and nothing is written. */
  function AddProductBatch(st: State, productId: ProductId, quantity: int, costPrice: int, provider: Option<string>): (r: Result<State>)
    ensures quantity <= 0 ==> r == Err(InvalidQuantity)
    ensures quantity > 0 && costPrice < 0 ==> r == Err(NegativeCost)
    ensures quantity > 0 && costPrice >= 0 ==> (r.Ok? <==> productId in st.products)
    ensures r.Err? ==> r.error in {InvalidQuantity, NegativeCost, ProductNotFound}
    ensures r.Ok? ==> productId in st.products && productId in r.value.products
    ensures r.Ok? ==>
      var p := st.products[productId];
      var q := r.value.products[productId];
      && q.lots == p.lots + [Lot(quantity, quantity, costPrice, ProviderField(provider))]
      && q.stock == p.stock + quantity
      && q.costPrice == costPrice
      && q == p.(stock := q.stock, costPrice := q.costPrice, lots := q.lots)
      && r.value == st.(products := st.products[productId := q])
  {
    if quantity <= 0 then Err(InvalidQuantity)
    else if costPrice < 0 then Err(NegativeCost)
    else if productId !in st.products then Err(ProductNotFound)
    else
      var p := st.products[productId];
      var lot := Lot(quantity, quantity, costPrice, ProviderField(provider));
      Ok(st.(products := st.products[productId := p.(stock := p.stock + quantity, costPrice := costPrice, lots := p.lots + [lot])]))
  }

  /** A received batch is fully backed by its lot: the stock outside the lots does not move, and
      the lot invariant `0 <= current <= initial` keeps holding. */
  lemma BatchKeepsLegacyStock(st: State, productId: ProductId, quantity: int, costPrice: int, provider: Option<string>)
    requires AddProductBatch(st, productId, quantity, costPrice, provider).Ok?
    ensures var q := AddProductBatch(st, productId, quantity, costPrice, provider).value.products[productId];
      var p := st.products[productId];
      && LegacyStock(q) == LegacyStock(p)
      && Available(q.lots) == Available(p.lots) + quantity
      && (ValidLots(p.lots) ==> ValidLots(q.lots))
  {
    var p := st.products[productId];
    AvailableAppend(p.lots, Lot(quantity, quantity, costPrice, ProviderField(provider)));
  }

  // ---- drawing stock ----

  /** The updated product and the cost of one line drawn from it. */
  datatype Deduction = Deduction(product: Product, cogs: int)

  /** The per-line step shared by a loss and a sale line: stock drops by the quantity (below
      zero if need be) and the lots are drained oldest first. */
  function DeductLine(p: Product, quantity: int): (d: Deduction)
    ensures d.product == p.(stock := p.stock - quantity, lots := d.product.lots)
    ensures |d.product.lots| == |p.lots|
    ensures forall i :: 0 <= i < |p.lots| ==> Drains(p.lots[i], d.product.lots[i])
    ensures quantity > 0 ==> Drawn(p.lots, d.product.lots) == Min(quantity, Available(p.lots))
    ensures quantity > 0 ==>
      d.cogs == DrawnCost(p.lots, d.product.lots) + (quantity - Min(quantity, Available(p.lots))) * p.costPrice
    ensures quantity <= 0 ==> d.cogs == 0 && d.product.lots == p.lots
    ensures ValidLots(p.lots) ==> ValidLots(d.product.lots)
  {
    var line := CostLine(p.lots, quantity, p.costPrice);
    if quantity > 0 then
      DrawnIsMinOfNeedAndAvailable(p.lots, quantity);
      Deduction(p.(stock := p.stock - quantity, lots := line.lots), line.cogs)
    else
      Deduction(p.(stock := p.stock - quantity, lots := line.lots), line.cogs)
  }

  /** What the lots cannot cover comes out of the stock outside the lots. */
  lemma DeductLineLegacyStock(p: Product, quantity: int)
    requires quantity > 0
    ensures var q := DeductLine(p, quantity).product;
      && Available(q.lots) == Available(p.lots) - Min(quantity, Available(p.lots))
      && LegacyStock(q) == LegacyStock(p) - (quantity - Min(quantity, Available(p.lots)))
  {
    var q := DeductLine(p, quantity).product;
    AvailableAfterDrain(p.lots, q.lots);
  }

  // ---- losses ----

  /** Write off `quantity` units. Quantity and reason are checked before the product is looked
      up; the stored reason is the one given, untrimmed. */
  function ReportProductLoss(st: State, caller: Caller, productId: ProductId, quantity: int, reason: string): (r: Result<State>)
    ensures quantity <= 0 ==> r == Err(InvalidQuantity)
    ensures quantity > 0 && IsBlank(reason) ==> r == Err(MissingReason)
    ensures quantity > 0 && !IsBlank(reason) ==> (r.Ok? <==> productId in st.products)
    ensures r.Err? ==> r.error in {InvalidQuantity, MissingReason, ProductNotFound}
    ensures r.Ok? ==> productId in st.products && productId in r.value.products
    ensures r.Ok? ==>
      var p := st.products[productId];
      var q := r.value.products[productId];
      && q.stock == p.stock - quantity
      && q == p.(stock := q.stock, lots := q.lots)
      && (ValidLots(p.lots) ==> ValidLots(q.lots))
    ensures r.Ok? ==>
      var p := st.products[productId];
      var q := r.value.products[productId];
      && r.value == st.(products := st.products[productId := q], losses := r.value.losses)
      && |r.value.losses| == |st.losses| + 1
      && r.value.losses[..|st.losses|] == st.losses
      && r.value.losses[|st.losses|] == Loss(productId, quantity, DeductLine(p, quantity).cogs, reason, caller.id)
  {
    if quantity <= 0 then Err(InvalidQuantity)
    else if Trim(reason) == "" then Err(MissingReason)
    else if productId !in st.products then Err(ProductNotFound)
    else
      var p := st.products[productId];
      var d := DeductLine(p, quantity);
      Ok(st.(products := st.products[productId := d.product],
             losses := st.losses + [Loss(productId, quantity, d.cogs, reason, caller.id)]))
  }

  /** An accepted loss leaves its product as the per-line deduction does and records that
      deduction's cost. */
  lemma LossDeducts(st: State, caller: Caller, productId: ProductId, quantity: int, reason: string)
    requires quantity > 0 && !IsBlank(reason) && productId in st.products
    ensures var r := ReportProductLoss(st, caller, productId, quantity, reason);
      var d := DeductLine(st.products[productId], quantity);
      && r.Ok?
      && r.value.products[productId] == d.product
      && r.value.losses[|st.losses|].cogs == d.cogs
  {
  }

  /** A loss of a product with no stock in its lots costs `quantity * costPrice` and leaves
      every lot as it was. */
  lemma LossWithoutLotStock(st: State, caller: Caller, productId: ProductId, quantity: int, reason: string)
    requires quantity > 0 && !IsBlank(reason) && productId in st.products
    requires Available(st.products[productId].lots) == 0
    ensures var s' := ReportProductLoss(st, caller, productId, quantity, reason).value;
      var p := st.products[productId];
      && s'.products[productId].lots == p.lots
      && s'.losses[|st.losses|].cogs == quantity * p.costPrice
  {
    var p := st.products[productId];
    CostLineWithoutStock(p.lots, quantity, p.costPrice);
  }

  // ---- search ----

  /** The database filter of the product search: active, and either the exact barcode (only for
      all-digit queries) or a case-insensitive substring of the name. */
  predicate Matches(p: Product, query: string)
  {
    && p.active
    && ((IsAllDigits(query) && p.barcode == Some(query)) || Contains(AsciiLower(p.name), AsciiLower(query)))
  }

  /** Every catalogue entry that passes the filter, in the order the store scans them (`scan`
      stands for the storage order, which the code does not choose). */
  function AllMatches(st: State, scan: seq<ProductId>, query: string): (r: seq<ProductId>)
    ensures |r| <= |scan|
    ensures forall id :: id in r <==> id in scan && id in st.products && Matches(st.products[id], query)
    ensures Distinct(scan) ==> Distinct(r)
  {
    if |scan| == 0 then []
    else
      var rest := AllMatches(st, scan[1..], query);
      var id := scan[0];
      if id in st.products && Matches(st.products[id], query) then
        if Distinct(scan) then
          DistinctTail(scan);
          DistinctCons(id, rest);
          [id] + rest
        else [id] + rest
      else
        if Distinct(scan) then
          DistinctTail(scan);
          rest
        else rest
  }

  /** The identifiers of the catalogue entries that pass the filter. */
  function MatchingIds(st: State, query: string): set<ProductId>
  {
    set id | id in st.products && Matches(st.products[id], query)
  }

  /** A storage scan visits every catalogue entry exactly once. */
  predicate ScansCatalogue(st: State, scan: seq<ProductId>)
  {
    && Distinct(scan)
    && (forall id :: id in st.products ==> id in scan)
    && (forall i :: 0 <= i < |scan| ==> scan[i] in st.products)
  }

  /** Over a full scan, the matches are exactly the matching catalogue entries, once each. */
  lemma AllMatchesOfCatalogue(st: State, scan: seq<ProductId>, query: string)
    requires ScansCatalogue(st, scan)
    ensures var all := AllMatches(st, scan, query);
      Distinct(all) && (set id | id in all) == MatchingIds(st, query) && |all| == |MatchingIds(st, query)|
  {
    var all := AllMatches(st, scan, query);
    assert (set id | id in all) == MatchingIds(st, query);
    DistinctCard(all);
  }

  /** `searchProduct`: at most ten matches, none at all for a blank query. `scan` is the order
      the store visits the catalogue in, each entry once. */
  function SearchProduct(st: State, scan: seq<ProductId>, query: string): (r: seq<ProductId>)
    requires ScansCatalogue(st, scan)
    ensures IsBlank(query) ==> r == []
    ensures !IsBlank(query) ==> |r| == Min(10, |MatchingIds(st, query)|)
    ensures forall id :: id in r ==> id in MatchingIds(st, query)
    ensures Distinct(r)
    ensures !IsBlank(query) && |MatchingIds(st, query)| <= 10 ==> (set id | id in r) == MatchingIds(st, query)
    ensures r <= AllMatches(st, scan, query)
  {
    if Trim(query) == "" then []
    else
      var all := AllMatches(st, scan, query);
      AllMatchesOfCatalogue(st, scan, query);
      if |all| <= 10 then all
      else
        DistinctPrefix(all, 10);
        all[..10]
  }

  /** An all-digit query finds an active product by its exact barcode, whatever its name. */
  lemma BarcodeQueryMatches(p: Product, query: string)
    requires p.active && IsAllDigits(query) && p.barcode == Some(query)
    ensures Matches(p, query)
  {
  }

  /** A query that is not all digits can only match through the name. */
  lemma NonDigitQueryMatchesNameOnly(p: Product, query: string)
    requires !IsAllDigits(query)
    ensures Matches(p, query) <==> p.active && Contains(AsciiLower(p.name), AsciiLower(query))
  {
  }

  // ---- barcode uniqueness ----

  /** Some product other than `currentId` already carries `code`. */
  predicate HeldByOther(products: map<ProductId, Product>, code: string, currentId: Option<ProductId>)
  {
    exists id :: id in products && products[id].barcode == Some(code) && Some(id) != currentId
  }

  /** The barcode check run before a product is created (`currentId` absent) or updated. The
      message names "another product" exactly when a non-empty `currentId` was supplied. */
  function AssertUniqueBarcode(products: map<ProductId, Product>, barcode: Option<string>, currentId: Option<ProductId>): (r: Outcome)
    ensures barcode == None || barcode == Some("") ==> r == Pass
    ensures barcode.Some? && barcode.value != "" ==>
      (r.Fail? <==> HeldByOther(products, barcode.value, currentId))
    ensures r.Fail? ==> r.error == BarcodeInUse(currentId.Some? && currentId.value != "")
  {
    if barcode == None || barcode == Some("") then Pass
    else if HeldByOther(products, barcode.value, currentId) then
      Fail(BarcodeInUse(currentId.Some? && currentId.value != ""))
    else Pass
  }

  /** Keeping one's own barcode passes: when barcodes are unique, the only holder of the code
      is the product being updated. */
  lemma OwnBarcodePasses(products: map<ProductId, Product>, id: ProductId, code: string)
    requires id in products && products[id].barcode == Some(code) && code != ""
    requires forall a, b :: a in products && b in products && products[a].barcode == products[b].barcode && products[a].barcode.Some? ==> a == b
    ensures AssertUniqueBarcode(products, Some(code), Some(id)) == Pass
  {
  }
}
