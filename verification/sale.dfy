/** The point-of-sale checkout: the total is checked first, then every line, in order, lowers
    its product's stock (with no sufficiency check) and drains its lots oldest first, all inside
    one database transaction; the sale row is written afterwards with a receipt that records
    each line's cost of goods. */
module Sale {
  import opened Outcomes
  import opened Vocabulary
  import opened Sums
  import opened Text
  import opened Fifo
  import opened Store
  import opened Inventory
  import opened Balances
  import opened Ledger
  import opened Seqs

  /** One cart line sent by the checkout screen. */
  datatype SaleItem = SaleItem(productId: ProductId, quantity: int, price: int)

  function LineAmount(it: SaleItem): int
  {
    it.quantity * it.price
  }

  /** The sale total, `Σ quantity × price`. */
  function SaleTotal(items: seq<SaleItem>): int
  {
    Sum(items, LineAmount)
  }

  /** Units of product `id` the lines ask for. */
  function SaleQty(items: seq<SaleItem>, id: ProductId): int
  {
    Sum(items, (it: SaleItem) => if it.productId == id then it.quantity else 0)
  }

  predicate AllListed(products: map<ProductId, Product>, items: seq<SaleItem>)
  {
    forall i :: 0 <= i < |items| ==> items[i].productId in products
  }

  /** A receipt line records its sale line, the product's name and the line's cost. */
  predicate Records(r: ReceiptItem, it: SaleItem, name: string)
  {
    r.productId == it.productId && r.quantity == it.quantity && r.price == it.price && r.name == name && r.cogs.Some?
  }

  datatype Applied = Applied(products: map<ProductId, Product>, receipt: seq<ReceiptItem>)

  /** The stock-and-lots loop. Lines run in order against the state the earlier lines left, so
      two lines of one product draw from its lots one after the other. A line naming a missing
      product makes the stock update throw, which rolls back every line. */
  function ApplyLines(products: map<ProductId, Product>, items: seq<SaleItem>): (r: Option<Applied>)
    ensures r.Some? <==> AllListed(products, items)
    ensures r.Some? ==> r.value.products.Keys == products.Keys
    ensures r.Some? ==> |r.value.receipt| == |items|
    ensures r.Some? ==> forall i :: 0 <= i < |items| ==>
      Records(r.value.receipt[i], items[i], products[items[i].productId].name)
    decreases |items|
  {
    if |items| == 0 then Some(Applied(products, []))
    else
      var it := items[0];
      if it.productId !in products then None
      else
        var d := DeductLine(products[it.productId], it.quantity);
        var rest := ApplyLines(products[it.productId := d.product], items[1..]);
        AllListedTail(products, items, d.product);
        if rest.None? then None
        else
          var line := ReceiptItem(it.productId, it.quantity, it.price, d.product.name, Some(d.cogs));
          ConsTail(line, rest.value.receipt);
          Some(Applied(rest.value.products, [line] + rest.value.receipt))
  }

  /** With the first line's product listed, the lines are listed exactly when the remaining
      lines are listed after that product is replaced. */
  lemma AllListedTail(products: map<ProductId, Product>, items: seq<SaleItem>, q: Product)
    requires |items| > 0 && items[0].productId in products
    ensures AllListed(products, items) <==> AllListed(products[items[0].productId := q], items[1..])
  {
    var p' := products[items[0].productId := q];
    assert p'.Keys == products.Keys;
    if AllListed(p', items[1..]) {
      forall i | 0 <= i < |items|
        ensures items[i].productId in products
      {
        if i > 0 {
          assert items[i] == items[1..][i - 1];
        }
      }
    }
  }

  lemma SaleQtyCons(items: seq<SaleItem>, id: ProductId)
    requires |items| > 0
    ensures SaleQty(items, id) == (if items[0].productId == id then items[0].quantity else 0) + SaleQty(items[1..], id)
  {
    assert items == [items[0]] + items[1..];
    SumCons(items[0], items[1..], (x: SaleItem) => if x.productId == id then x.quantity else 0);
  }

  /** Every product loses exactly the units the lines ask for, even below zero; only its stock
      and lots change. */
  lemma {:induction false} ApplyLinesStock(products: map<ProductId, Product>, items: seq<SaleItem>, id: ProductId)
    requires AllListed(products, items) && id in products
    ensures var a := ApplyLines(products, items).value;
      a.products[id] == products[id].(stock := products[id].stock - SaleQty(items, id), lots := a.products[id].lots)
    decreases |items|
  {
    if |items| > 0 {
      var it := items[0];
      var d := DeductLine(products[it.productId], it.quantity);
      AllListedTail(products, items, d.product);
      ApplyLinesStock(products[it.productId := d.product], items[1..], id);
      SaleQtyCons(items, id);
    }
  }

  /** The lots of every product stay well formed through a sale. */
  lemma {:induction false} ApplyLinesKeepsValidLots(products: map<ProductId, Product>, items: seq<SaleItem>, id: ProductId)
    requires AllListed(products, items) && id in products && ValidLots(products[id].lots)
    ensures ValidLots(ApplyLines(products, items).value.products[id].lots)
    decreases |items|
  {
    if |items| > 0 {
      var it := items[0];
      var d := DeductLine(products[it.productId], it.quantity);
      AllListedTail(products, items, d.product);
      ApplyLinesKeepsValidLots(products[it.productId := d.product], items[1..], id);
    }
  }

  /** `processSale`. A non-positive total is refused before anything is touched; a missing
      product leaves everything as it was; otherwise the stock and lots of the lines' products
      change and one income row for the whole sale is appended. */
  function ProcessSale(st: State, caller: Caller, shiftId: nat, items: seq<SaleItem>, pay: ContainerKey): (r: Result<State>)
    ensures SaleTotal(items) <= 0 ==> r == Err(InvalidSaleTotal)
    ensures SaleTotal(items) > 0 ==> (r.Ok? <==> AllListed(st.products, items))
    ensures r.Err? ==> r.error in {InvalidSaleTotal, ProductNotFound}
    ensures r.Ok? ==>
      && r.value.shifts == st.shifts && r.value.losses == st.losses
      && r.value.products == ApplyLines(st.products, items).value.products
      && |r.value.txs| == |st.txs| + 1 && r.value.txs[..|st.txs|] == st.txs
    ensures r.Ok? ==>
      var tx := r.value.txs[|st.txs|];
      && (forall i :: 0 <= i < |st.txs| ==> st.txs[i].id != tx.id)
      && tx.txType == Income && tx.category == Sale && tx.amount == SaleTotal(items)
      && tx.source == Some(Cash) && tx.destination == Some(ContainerToDb(pay))
      && tx.shiftId == Some(shiftId) && tx.userId == Some(caller.id)
      && tx.description == "Venta POS: " + NatToString(|items|) + " productos"
      && tx.receipt == Items(ApplyLines(st.products, items).value.receipt)
  {
    var total := SaleTotal(items);
    if total <= 0 then Err(InvalidSaleTotal)
    else
      var applied := ApplyLines(st.products, items);
      if applied.None? then Err(ProductNotFound)
      else
        var tx := DbTx(NextTxId(st.txs), Some(shiftId), Some(caller.id), Income, Sale, total,
                       "Venta POS: " + NatToString(|items|) + " productos",
                       Some(Cash), Some(ContainerToDb(pay)), Items(applied.value.receipt));
        Ok(st.(products := applied.value.products, txs := st.txs + [tx]))
  }

  lemma PaymentEffect(tx: DbTx, pay: ContainerKey, k: ContainerKey)
    requires tx.txType == Income && tx.destination == Some(ContainerToDb(pay))
    ensures Effect(tx, k) == (if k == pay then tx.amount else 0)
  {
  }

  /** The sale credits the chosen payment container with the total and no other container. */
  lemma SaleCreditsPaymentContainer(st: State, caller: Caller, shiftId: nat, items: seq<SaleItem>, pay: ContainerKey, k: ContainerKey)
    requires ProcessSale(st, caller, shiftId, items, pay).Ok?
    ensures var st' := ProcessSale(st, caller, shiftId, items, pay).value;
      BalanceOf(st', k) == BalanceOf(st, k) + (if k == pay then SaleTotal(items) else 0)
  {
    var st' := ProcessSale(st, caller, shiftId, items, pay).value;
    var tx := st'.txs[|st.txs|];
    Snoc(st'.txs, st.txs);
    AppendMovesOneContainer(st, tx, k);
    PaymentEffect(tx, pay, k);
    BalanceReadsLedgerAndShifts(st', st.(txs := st.txs + [tx]), k);
  }

  /** A one-line sale and a loss of the same quantity of the same product cost the same and
      leave the same lots behind: both run the same allocation. */
  lemma SingleLineSaleMatchesLoss(st: State, caller: Caller, shiftId: nat, id: ProductId, quantity: int, price: int,
                                  pay: ContainerKey, reason: string)
    requires id in st.products && quantity > 0 && price > 0 && !IsBlank(reason)
    ensures var sale := ProcessSale(st, caller, shiftId, [SaleItem(id, quantity, price)], pay);
      var loss := ReportProductLoss(st, caller, id, quantity, reason);
      && sale.Ok? && loss.Ok?
      && sale.value.products[id] == loss.value.products[id]
      && sale.value.txs[|st.txs|].receipt.items[0].cogs == Some(loss.value.losses[|st.losses|].cogs)
  {
    OneLineSale(st, caller, shiftId, id, quantity, price, pay);
    LossDeducts(st, caller, id, quantity, reason);
  }

  /** A one-line sale leaves its product as the per-line deduction does and records that
      deduction's cost on its receipt line. */
  lemma OneLineSale(st: State, caller: Caller, shiftId: nat, id: ProductId, quantity: int, price: int, pay: ContainerKey)
    requires id in st.products && quantity > 0 && price > 0
    ensures var r := ProcessSale(st, caller, shiftId, [SaleItem(id, quantity, price)], pay);
      var d := DeductLine(st.products[id], quantity);
      && r.Ok?
      && r.value.products[id] == d.product
      && r.value.txs[|st.txs|].receipt == Items([ReceiptItem(id, quantity, price, d.product.name, Some(d.cogs))])
  {
    var items := [SaleItem(id, quantity, price)];
    SumCons(items[0], [], LineAmount);
    AppendEmpty(items);
    ApplySingle(st.products, items[0]);
  }

  /** A one-line sale runs that line's deduction and records it. */
  lemma ApplySingle(products: map<ProductId, Product>, it: SaleItem)
    requires it.productId in products
    ensures var d := DeductLine(products[it.productId], it.quantity);
      ApplyLines(products, [it]) ==
        Some(Applied(products[it.productId := d.product],
                     [ReceiptItem(it.productId, it.quantity, it.price, d.product.name, Some(d.cogs))]))
  {
    var d := DeductLine(products[it.productId], it.quantity);
    var p' := products[it.productId := d.product];
    assert [it][1..] == [];
    assert ApplyLines(p', []) == Some(Applied(p', []));
    AppendEmpty([ReceiptItem(it.productId, it.quantity, it.price, d.product.name, Some(d.cogs))]);
  }

  /** Each receipt line carries the cost of its own deduction, taken against the lots the
      earlier lines of the same sale left behind. */
  lemma ReceiptLineCost(products: map<ProductId, Product>, items: seq<SaleItem>, i: nat)
    requires AllListed(products, items) && i < |items|
    ensures AllListed(products, items[..i])
    ensures var before := ApplyLines(products, items[..i]).value.products;
      && items[i].productId in before
      && ApplyLines(products, items).value.receipt[i].cogs ==
         Some(DeductLine(before[items[i].productId], items[i].quantity).cogs)
  {
    var pre, post := items[..i], items[i..];
    SplitOff(items, i);
    ApplyLinesAppend(products, pre, post);
    var before := ApplyLines(products, pre).value;
    ApplyLinesCons(before.products, post);
  }

  /** A sale's lines run as its first lines followed by the others against what the first ones
      left, and the receipt is the two receipts one after the other. */
  lemma {:induction false} ApplyLinesAppend(products: map<ProductId, Product>, a: seq<SaleItem>, b: seq<SaleItem>)
    requires AllListed(products, a + b)
    ensures AllListed(products, a)
    ensures var first := ApplyLines(products, a).value;
      && AllListed(first.products, b)
      && var second := ApplyLines(first.products, b).value;
         ApplyLines(products, a + b).value == Applied(second.products, first.receipt + second.receipt)
    decreases |a|
  {
    AllListedAppend(products, a, b);
    if |a| == 0 {
      assert a + b == b;
      AppendEmpty(ApplyLines(products, b).value.receipt);
    } else {
      var it := a[0];
      var p' := products[it.productId := DeductLine(products[it.productId], it.quantity).product];
      HeadOfAppend(a, b);
      ApplyLinesCons(products, a + b);
      ApplyLinesCons(products, a);
      ApplyLinesAppend(p', a[1..], b);
      var first := ApplyLines(products, a).value;
      JoinAfterHead(ApplyLines(products, a + b).value, first, ApplyLines(first.products, b).value,
                    ApplyLines(p', a[1..] + b).value, ApplyLines(p', a[1..]).value, first.receipt[0]);
    }
  }

  /** Lines listed together are listed apart. */
  lemma AllListedAppend(products: map<ProductId, Product>, a: seq<SaleItem>, b: seq<SaleItem>)
    requires AllListed(products, a + b)
    ensures AllListed(products, a) && AllListed(products, b)
  {
    assert forall j :: 0 <= j < |a| ==> a[j] == (a + b)[j];
    assert forall j :: 0 <= j < |b| ==> b[j] == (a + b)[|a| + j];
  }

  /** The receipt of the first line, then the rest, is one receipt: when the whole run and the
      first part both start with the same line and the remainders join up, so do the wholes. */
  lemma JoinAfterHead(whole: Applied, first: Applied, second: Applied, restWhole: Applied, restFirst: Applied,
                      head: ReceiptItem)
    requires whole.products == restWhole.products && whole.receipt == [head] + restWhole.receipt
    requires first.products == restFirst.products && first.receipt == [head] + restFirst.receipt
    requires restWhole == Applied(second.products, restFirst.receipt + second.receipt)
    ensures whole == Applied(second.products, first.receipt + second.receipt)
  {
    Assoc([head], restFirst.receipt, second.receipt);
  }

  /** The first line's deduction, then the rest of the lines against what it left. */
  lemma ApplyLinesCons(products: map<ProductId, Product>, items: seq<SaleItem>)
    requires AllListed(products, items) && |items| > 0
    ensures var it := items[0];
      var d := DeductLine(products[it.productId], it.quantity);
      var p' := products[it.productId := d.product];
      && AllListed(p', items[1..])
      && var rest := ApplyLines(p', items[1..]).value;
         ApplyLines(products, items).value ==
           Applied(rest.products, [ReceiptItem(it.productId, it.quantity, it.price, d.product.name, Some(d.cogs))] + rest.receipt)
  {
    var it := items[0];
    var d := DeductLine(products[it.productId], it.quantity);
    AllListedTail(products, items, d.product);
  }

  /** Both sides of a receipt-quantity sum: the receipt counts each product's units exactly as
      the sale lines did. */
  lemma {:induction false} ReceiptQtyMatchesSale(receipt: seq<ReceiptItem>, items: seq<SaleItem>, id: ProductId)
    requires |receipt| == |items|
    requires forall i :: 0 <= i < |items| ==> receipt[i].productId == items[i].productId && receipt[i].quantity == items[i].quantity
    ensures QtyFor(receipt, id) == SaleQty(items, id)
    decreases |items|
  {
    if |items| > 0 {
      var n := |items| - 1;
      ReceiptQtyMatchesSale(receipt[..n], items[..n], id);
    }
  }

  lemma SaleReceiptQty(products: map<ProductId, Product>, items: seq<SaleItem>, id: ProductId)
    requires AllListed(products, items)
    ensures QtyFor(ApplyLines(products, items).value.receipt, id) == SaleQty(items, id)
  {
    var a := ApplyLines(products, items).value;
    forall i | 0 <= i < |items|
      ensures a.receipt[i].productId == items[i].productId && a.receipt[i].quantity == items[i].quantity
    {
      assert Records(a.receipt[i], items[i], products[items[i].productId].name);
    }
    ReceiptQtyMatchesSale(a.receipt, items, id);
  }

  /** Every receipt line of a sale names a product that still exists afterwards. */
  lemma ReceiptNamesKnownProducts(products: map<ProductId, Product>, items: seq<SaleItem>)
    requires AllListed(products, items)
    ensures var a := ApplyLines(products, items).value;
      AllKnown(a.products, a.receipt)
  {
    var a := ApplyLines(products, items).value;
    forall i | 0 <= i < |a.receipt|
      ensures a.receipt[i].productId in a.products
    {
      assert Records(a.receipt[i], items[i], products[items[i].productId].name);
    }
  }

  /** Giving a sale's receipt back restores every product exactly, lots aside. */
  lemma RestoreUndoesApply(products: map<ProductId, Product>, items: seq<SaleItem>, id: ProductId)
    requires AllListed(products, items) && id in products
    ensures var a := ApplyLines(products, items).value;
      && RestoreStock(a.products, a.receipt).Some?
      && RestoreStock(a.products, a.receipt).value[id] == products[id].(lots := a.products[id].lots)
  {
    ReceiptNamesKnownProducts(products, items);
    ApplyLinesStock(products, items, id);
    SaleReceiptQty(products, items, id);
  }

  /** An admin can void the newest ledger row if it is a sale whose receipt names only existing
      products: the row goes and the receipt's quantities go back onto the stock. */
  lemma VoidLastRow(st: State, n: nat, voider: Caller)
    requires n + 1 == |st.txs| && voider.isAdmin
    requires forall i :: 0 <= i < n ==> st.txs[i].id != st.txs[n].id
    requires st.txs[n].category == Sale && st.txs[n].receipt.Items?
    requires AllKnown(st.products, st.txs[n].receipt.items)
    ensures var r := DeleteTransaction(st, voider, st.txs[n].id);
      && r.Ok? && r.value.txs == st.txs[..n]
      && r.value.products == RestoreStock(st.products, st.txs[n].receipt.items).value
  {
    assert FindTx(st.txs, st.txs[n].id) == Some(n);
    assert RemoveAt(st.txs, n) == st.txs[..n];
  }

  /** Voiding a sale right after it was made puts every product's stock back where it was, but
      the lots stay drained: the given-back units become stock outside the lots. */
  lemma VoidAfterSaleRestoresStock(st: State, caller: Caller, shiftId: nat, items: seq<SaleItem>, pay: ContainerKey,
                                   voider: Caller, id: ProductId)
    requires ProcessSale(st, caller, shiftId, items, pay).Ok?
    requires voider.isAdmin
    requires id in st.products
    ensures var st' := ProcessSale(st, caller, shiftId, items, pay).value;
      var st'' := DeleteTransaction(st', voider, st'.txs[|st.txs|].id);
      && st''.Ok?
      && st''.value.txs == st.txs
      && st''.value.products[id].stock == st.products[id].stock
      && st''.value.products[id].lots == st'.products[id].lots
  {
    var st' := ProcessSale(st, caller, shiftId, items, pay).value;
    ReceiptNamesKnownProducts(st.products, items);
    VoidLastRow(st', |st.txs|, voider);
    assert st'.txs[..|st.txs|] == st.txs;
    RestoreUndoesApply(st.products, items, id);
  }
}
