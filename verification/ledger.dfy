/** The ledger actions: recording a shift movement from the screen vocabulary, voiding a
    transaction (with the stock give-back for sales and the cashier restrictions), the admin-only
    safe and petty-cash movements, and the read-side mapping back to the screen vocabulary. */
module Ledger {
  import opened Outcomes
  import opened Vocabulary
  import opened Sums
  import opened Store
  import opened Balances

  /** `assertValidAmount`. */
  function AssertValidAmount(amount: int): (r: Outcome)
    ensures r.Fail? <==> amount <= 0
    ensures r.Fail? ==> r.error == InvalidAmount
  {
    if amount <= 0 then Fail(InvalidAmount) else Pass
  }

  /** `addTransaction`: a movement of the shift `shiftId`, written with the forward tables. The
      row's shift reference is a foreign key, so a row for a shift the store does not hold is
      refused. */
  function AddTransaction(st: State, caller: Caller, shiftId: nat, t: UiType, c: UiCategory, k: ContainerKey,
                          amount: int, description: string): (r: Result<State>)
    ensures amount <= 0 ==> r == Err(InvalidAmount)
    ensures amount > 0 && (forall i :: 0 <= i < |st.shifts| ==> st.shifts[i].id != shiftId) ==>
      r == Err(ShiftNotFound)
    ensures r.Ok? <==> amount > 0 && exists i :: 0 <= i < |st.shifts| && st.shifts[i].id == shiftId
    ensures r.Ok? ==>
      && |r.value.txs| == |st.txs| + 1
      && r.value == st.(txs := st.txs + [r.value.txs[|st.txs|]])
    ensures r.Ok? ==>
      var tx := r.value.txs[|st.txs|];
      var m := MapTransactionInput(t, c, k);
      && (forall i :: 0 <= i < |st.txs| ==> st.txs[i].id != tx.id)
      && tx.shiftId == Some(shiftId) && tx.userId == Some(caller.id)
      && tx.amount == amount && tx.description == description && tx.receipt == NoReceipt
      && tx.txType == m.txType && tx.category == m.category
      && tx.source == m.source && tx.destination == m.destination
  {
    if AssertValidAmount(amount).Fail? then Err(InvalidAmount)
    else if FindShift(st.shifts, shiftId).None? then Err(ShiftNotFound)
    else
      var m := MapTransactionInput(t, c, k);
      var tx := DbTx(NextTxId(st.txs), Some(shiftId), Some(caller.id), m.txType, m.category, amount,
                     description, m.source, m.destination, NoReceipt);
      Ok(st.(txs := st.txs + [tx]))
  }

  /** A recorded movement moves the chosen container by its amount, in the direction of its
      type, and no other container. */
  lemma AddTransactionMovesChosenContainer(st: State, caller: Caller, shiftId: nat, t: UiType, c: UiCategory,
                                           k: ContainerKey, amount: int, description: string, j: ContainerKey)
    requires AddTransaction(st, caller, shiftId, t, c, k, amount, description).Ok?
    ensures var st' := AddTransaction(st, caller, shiftId, t, c, k, amount, description).value;
      BalanceOf(st', j) == BalanceOf(st, j) + (if j != k then 0 else if t == Ingreso then amount else -amount)
  {
    var st' := AddTransaction(st, caller, shiftId, t, c, k, amount, description).value;
    var tx := st'.txs[|st.txs|];
    AppendMovesOneContainer(st, tx, j);
    MappedEffect(tx, t, c, k, j);
  }

  /** A row written from the mapped form moves only the chosen container. */
  lemma MappedEffect(tx: DbTx, t: UiType, c: UiCategory, k: ContainerKey, j: ContainerKey)
    requires var m := MapTransactionInput(t, c, k);
      tx.txType == m.txType && tx.source == m.source && tx.destination == m.destination
    ensures Effect(tx, j) == (if j != k then 0 else if t == Ingreso then tx.amount else -tx.amount)
  {
    assert Bucket(ContainerToDb(k)) == k;
  }

  // ---- voiding ----

  /** Total quantity the lines give for product `id`. */
  function QtyFor(items: seq<ReceiptItem>, id: ProductId): int
  {
    Sum(items, (it: ReceiptItem) => if it.productId == id then it.quantity else 0)
  }

  predicate AllKnown(products: map<ProductId, Product>, items: seq<ReceiptItem>)
  {
    forall i :: 0 <= i < |items| ==> items[i].productId in products
  }

  /** The give-back of a voided sale: every line's quantity goes back onto its product's stock
      (lots are not touched). The updates run inside one database transaction, so a line naming
      a product that no longer exists undoes all of them. */
  function RestoreStock(products: map<ProductId, Product>, items: seq<ReceiptItem>): (r: Option<map<ProductId, Product>>)
    ensures r.Some? <==> AllKnown(products, items)
    ensures r.Some? ==> Restored(products, items, r.value)
  {
    if |items| == 0 then Some(products)
    else
      var init := RestoreStock(products, items[..|items| - 1]);
      var it := items[|items| - 1];
      AllKnownSnoc(products, items);
      if init.None? || it.productId !in products then None
      else
        RestoreStep(products, items, init.value);
        var p := init.value[it.productId];
        Some(init.value[it.productId := p.(stock := p.stock + it.quantity)])
  }

  /** Restores the stock of every product for the given lines. */
  predicate Restored(products: map<ProductId, Product>, items: seq<ReceiptItem>, m: map<ProductId, Product>)
  {
    && m.Keys == products.Keys
    && forall id :: id in products ==> m[id] == products[id].(stock := products[id].stock + QtyFor(items, id))
  }

  /** Giving back the last line on top of the give-back of the others gives back all of them. */
  lemma RestoreStep(products: map<ProductId, Product>, items: seq<ReceiptItem>, m: map<ProductId, Product>)
    requires |items| > 0 && items[|items| - 1].productId in products
    requires Restored(products, items[..|items| - 1], m)
    ensures var it := items[|items| - 1];
      Restored(products, items, m[it.productId := m[it.productId].(stock := m[it.productId].stock + it.quantity)])
  {
    QtyForSnoc(items);
  }

  /** The last line adds its quantity to its own product's count only. */
  lemma QtyForSnoc(items: seq<ReceiptItem>)
    requires |items| > 0
    ensures var last := items[|items| - 1];
      forall id :: QtyFor(items, id) == QtyFor(items[..|items| - 1], id) + (if last.productId == id then last.quantity else 0)
  {
  }

  lemma AllKnownSnoc(products: map<ProductId, Product>, items: seq<ReceiptItem>)
    requires |items| > 0
    ensures AllKnown(products, items) <==>
      AllKnown(products, items[..|items| - 1]) && items[|items| - 1].productId in products
  {
    if AllKnown(products, items[..|items| - 1]) && items[|items| - 1].productId in products {
      forall i | 0 <= i < |items|
        ensures items[i].productId in products
      {
        if i < |items| - 1 {
          assert items[i] == items[..|items| - 1][i];
        }
      }
    }
  }

  /** A cashier may void a sale only while the shift it belongs to is open and theirs. */
  predicate OwnOpenShift(shifts: seq<Shift>, shiftId: Option<nat>, user: UserId)
  {
    exists i :: 0 <= i < |shifts| && Some(shifts[i].id) == shiftId && shifts[i].status == Open && shifts[i].userId == user
  }

  /** `deleteTransaction`: checks, then the stock give-back for a sale with a receipt, then the
      removal. A failed give-back (unreadable receipt, unknown product) is swallowed: the
      transaction is removed all the same. */
  function DeleteTransaction(st: State, caller: Caller, txId: nat): (r: Result<State>)
    ensures FindTx(st.txs, txId).None? ==> r == Err(TxNotFound)
    ensures FindTx(st.txs, txId).Some? ==>
      var tx := st.txs[FindTx(st.txs, txId).value];
      && (!caller.isAdmin && tx.category != Sale ==> r == Err(SalesOnly))
      && (!caller.isAdmin && tx.category == Sale && !OwnOpenShift(st.shifts, tx.shiftId, caller.id) ==> r == Err(NotYourActiveShift))
      && (caller.isAdmin || (tx.category == Sale && OwnOpenShift(st.shifts, tx.shiftId, caller.id)) ==> r.Ok?)
    ensures r.Ok? ==>
      var i := FindTx(st.txs, txId).value;
      var tx := st.txs[i];
      && r.value.txs == RemoveAt(st.txs, i)
      && r.value.shifts == st.shifts && r.value.losses == st.losses
      && (tx.category == Sale && tx.receipt.Items? && AllKnown(st.products, tx.receipt.items) ==>
            r.value.products == RestoreStock(st.products, tx.receipt.items).value)
      && (!(tx.category == Sale && tx.receipt.Items? && AllKnown(st.products, tx.receipt.items)) ==>
            r.value.products == st.products)
  {
    var found := FindTx(st.txs, txId);
    if found.None? then Err(TxNotFound)
    else
      var i := found.value;
      var tx := st.txs[i];
      if !caller.isAdmin && tx.category != Sale then Err(SalesOnly)
      else if !caller.isAdmin && !OwnOpenShift(st.shifts, tx.shiftId, caller.id) then Err(NotYourActiveShift)
      else
        var restored := if tx.category == Sale && tx.receipt.Items? then RestoreStock(st.products, tx.receipt.items) else None;
        var products := if restored.Some? then restored.value else st.products;
        Ok(st.(products := products, txs := RemoveAt(st.txs, i)))
  }

  /** A cashier's void either removes one of their own open shift's sales or changes nothing. */
  lemma CashierVoidIsRestricted(st: State, caller: Caller, txId: nat)
    requires !caller.isAdmin
    ensures var r := DeleteTransaction(st, caller, txId);
      r.Ok? ==> (exists i :: 0 <= i < |st.txs| && st.txs[i].id == txId && st.txs[i].category == Sale &&
                                OwnOpenShift(st.shifts, st.txs[i].shiftId, caller.id))
  {
    var r := DeleteTransaction(st, caller, txId);
    if r.Ok? {
      var i := FindTx(st.txs, txId).value;
      assert st.txs[i].id == txId;
    }
  }

  /** Voiding a sale gives back stock only: the lots keep what the sale took from them. */
  lemma VoidNeverTouchesLots(st: State, caller: Caller, txId: nat, id: ProductId)
    requires DeleteTransaction(st, caller, txId).Ok? && id in st.products
    ensures var st' := DeleteTransaction(st, caller, txId).value;
      id in st'.products && st'.products[id] == st.products[id].(stock := st'.products[id].stock)
  {
  }

  // ---- admin containers ----

  /** `addSafeTransaction`: admin only, positive amount; a deposit credits the safe, a
      withdrawal debits it; no shift. */
  function AddSafeTransaction(st: State, caller: Caller, t: UiType, amount: int, description: string): (r: Result<State>)
    ensures !caller.isAdmin ==> r == Err(Unauthorized)
    ensures caller.isAdmin && amount <= 0 ==> r == Err(InvalidAmount)
    ensures caller.isAdmin && amount > 0 ==> r.Ok?
    ensures r.Ok? ==> |r.value.txs| == |st.txs| + 1 && r.value == st.(txs := st.txs + [r.value.txs[|st.txs|]])
    ensures r.Ok? ==>
      var tx := r.value.txs[|st.txs|];
      && tx.shiftId == None && tx.userId == Some(caller.id) && tx.amount == amount && tx.description == description
      && (t == Ingreso ==> tx.txType == Income && tx.category == SafeDeposit && tx.source == None && tx.destination == Some(Safe))
      && (t == Egreso ==> tx.txType == Expense && tx.category == SafeWithdrawal && tx.source == Some(Safe) && tx.destination == None)
  {
    if !caller.isAdmin then Err(Unauthorized)
    else if AssertValidAmount(amount).Fail? then Err(InvalidAmount)
    else
      var income := t == Ingreso;
      var tx := DbTx(NextTxId(st.txs), None, Some(caller.id),
                     if income then Income else Expense,
                     if income then SafeDeposit else SafeWithdrawal,
                     amount, description,
                     if income then None else Some(Safe),
                     if income then Some(Safe) else None,
                     NoReceipt);
      Ok(st.(txs := st.txs + [tx]))
  }

  /** `addPettyCashTransaction`: the same rules, written under the legacy petty-cash tag. */
  function AddPettyCashTransaction(st: State, caller: Caller, t: UiType, amount: int, description: string): (r: Result<State>)
    ensures !caller.isAdmin ==> r == Err(Unauthorized)
    ensures caller.isAdmin && amount <= 0 ==> r == Err(InvalidAmount)
    ensures caller.isAdmin && amount > 0 ==> r.Ok?
    ensures r.Ok? ==> |r.value.txs| == |st.txs| + 1 && r.value == st.(txs := st.txs + [r.value.txs[|st.txs|]])
    ensures r.Ok? ==>
      var tx := r.value.txs[|st.txs|];
      && tx.shiftId == None && tx.userId == Some(caller.id) && tx.amount == amount && tx.description == description
      && (t == Ingreso ==> tx.txType == Income && tx.category == PettyCashDeposit && tx.source == None && tx.destination == Some(CajaChicaTag))
      && (t == Egreso ==> tx.txType == Expense && tx.category == PettyCashWithdrawal && tx.source == Some(CajaChicaTag) && tx.destination == None)
  {
    if !caller.isAdmin then Err(Unauthorized)
    else if AssertValidAmount(amount).Fail? then Err(InvalidAmount)
    else
      var income := t == Ingreso;
      var tx := DbTx(NextTxId(st.txs), None, Some(caller.id),
                     if income then Income else Expense,
                     if income then PettyCashDeposit else PettyCashWithdrawal,
                     amount, description,
                     if income then None else Some(CajaChicaTag),
                     if income then Some(CajaChicaTag) else None,
                     NoReceipt);
      Ok(st.(txs := st.txs + [tx]))
  }

  /** A safe movement changes the safe balance by its signed amount and no other balance. */
  lemma SafeMovesOnlySafe(st: State, caller: Caller, t: UiType, amount: int, description: string, k: ContainerKey)
    requires AddSafeTransaction(st, caller, t, amount, description).Ok?
    ensures var st' := AddSafeTransaction(st, caller, t, amount, description).value;
      BalanceOf(st', k) == BalanceOf(st, k) + (if k != CajaFuerte then 0 else if t == Ingreso then amount else -amount)
  {
    var st' := AddSafeTransaction(st, caller, t, amount, description).value;
    AppendMovesOneContainer(st, st'.txs[|st.txs|], k);
  }

  /** A petty-cash movement changes the petty-cash balance by its signed amount and no other. */
  lemma PettyCashMovesOnlyPettyCash(st: State, caller: Caller, t: UiType, amount: int, description: string, k: ContainerKey)
    requires AddPettyCashTransaction(st, caller, t, amount, description).Ok?
    ensures var st' := AddPettyCashTransaction(st, caller, t, amount, description).value;
      BalanceOf(st', k) == BalanceOf(st, k) + (if k != CajaChica then 0 else if t == Ingreso then amount else -amount)
  {
    var st' := AddPettyCashTransaction(st, caller, t, amount, description).value;
    AppendMovesOneContainer(st, st'.txs[|st.txs|], k);
  }

  /** A petty-cash deposit followed by a withdrawal of the same amount leaves every balance as
      it was. */
  lemma PettyCashDepositThenWithdrawal(st: State, caller: Caller, amount: int, d1: string, d2: string, k: ContainerKey)
    requires caller.isAdmin && amount > 0
    ensures var st1 := AddPettyCashTransaction(st, caller, Ingreso, amount, d1).value;
      var st2 := AddPettyCashTransaction(st1, caller, Egreso, amount, d2).value;
      BalanceOf(st2, k) == BalanceOf(st, k)
  {
    var st1 := AddPettyCashTransaction(st, caller, Ingreso, amount, d1).value;
    PettyCashMovesOnlyPettyCash(st, caller, Ingreso, amount, d1, k);
    PettyCashMovesOnlyPettyCash(st1, caller, Egreso, amount, d2, k);
  }

  // ---- read side ----

  /** A transaction as the screens see it. */
  datatype UiTx = UiTx(
    id: nat, shiftId: Option<nat>, txType: UiType, category: UiCategory, amount: int,
    source: Option<ContainerKey>, destination: Option<ContainerKey>, description: string, createdBy: string)

  /** `mapTx`: the reverse tables; a row whose user was deleted is attributed to
      "System (Deleted)". */
  function MapTx(tx: DbTx): (u: UiTx)
    ensures u.txType == Ingreso <==> tx.txType == Income
    ensures u.category == CategoryFromDb(tx.category)
    ensures u.source == OptContainerFromDb(tx.source) && u.destination == OptContainerFromDb(tx.destination)
    ensures u.createdBy == (if tx.userId == None || tx.userId == Some("") then "System (Deleted)" else tx.userId.value)
    ensures u.id == tx.id && u.shiftId == tx.shiftId && u.amount == tx.amount && u.description == tx.description
  {
    UiTx(tx.id, tx.shiftId, TypeFromDb(tx.txType), CategoryFromDb(tx.category), tx.amount,
         OptContainerFromDb(tx.source), OptContainerFromDb(tx.destination), tx.description,
         if tx.userId == None || tx.userId == Some("") then "System (Deleted)" else tx.userId.value)
  }

  /** A movement recorded from the screen reads back with the type, the container and, for a
      tabled category, the category it was entered with. */
  lemma AddTransactionReadsBack(st: State, caller: Caller, shiftId: nat, t: UiType, c: UiCategory,
                                k: ContainerKey, amount: int, description: string)
    requires amount > 0 && FindShift(st.shifts, shiftId).Some?
    ensures var u := MapTx(AddTransaction(st, caller, shiftId, t, c, k, amount, description).value.txs[|st.txs|]);
      && u.txType == t && u.amount == amount && u.description == description && u.createdBy == (if caller.id == "" then "System (Deleted)" else caller.id)
      && (IsTabled(c) <==> u.category == c)
      && (t == Ingreso ==> u.destination == Some(k) && u.source == Some(Efectivo))
      && (t == Egreso ==> u.source == Some(k) && u.destination == None)
  {
    TypeRoundTrip(t);
    CategoryRoundTrip(c);
    ContainerRoundTrip(k);
  }
}
