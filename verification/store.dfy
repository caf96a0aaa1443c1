/** The persistent state the server actions read and write, as one immutable record: the
    product catalogue (each product owning its cost lots in creation order), the shifts and the
    ledger transactions in creation order, and the recorded losses. */
module Store {
  import opened Outcomes
  import opened Vocabulary
  import opened Fifo

  type ProductId = string
  type UserId = string

  /** A catalogue entry. `costPrice` is the reference cost: the unit cost of the latest batch,
      used to cost whatever the lots cannot cover. */
  datatype Product = Product(
    name: string,
    barcode: Option<string>,
    costPrice: int,
    salePrice: int,
    stock: int,
    minStock: int,
    active: bool,
    lots: seq<Lot>)

  /** A shrinkage record: the quantity written off and its FIFO cost. */
  datatype Loss = Loss(productId: ProductId, quantity: int, cogs: int, reason: string, userId: UserId)

  /** One stored receipt line. `cogs` is the line's cost of goods (stored under the key
      `cost_price`); receipts written before cost lots existed lack it. */
  datatype ReceiptItem = ReceiptItem(productId: ProductId, quantity: int, price: int, name: string, cogs: Option<int>)

  /** The stored receipt payload: absent, present but not parseable, or a list of lines. */
  datatype Receipt = NoReceipt | Unparseable | Items(items: seq<ReceiptItem>)

  /** A ledger row. `userId` is `None` once the creating user has been deleted. */
  datatype DbTx = DbTx(
    id: nat,
    shiftId: Option<nat>,
    userId: Option<UserId>,
    txType: DbType,
    category: DbCategory,
    amount: int,
    description: string,
    source: Option<DbContainer>,
    destination: Option<DbContainer>,
    receipt: Receipt)

  datatype ShiftStatus = Open | Closed

  /** A cash-register session. `shiftType` is the stored upper-case period name and `date` the
      start instant, as the ISO rendering of the day it was opened for. */
  datatype Shift = Shift(
    id: nat,
    userId: UserId,
    shiftType: string,
    date: string,
    initialCash: int,
    initialMp: int,
    status: ShiftStatus,
    finalCash: Option<int>,
    finalMp: Option<int>)

  datatype State = State(
    products: map<ProductId, Product>,
    shifts: seq<Shift>,
    txs: seq<DbTx>,
    losses: seq<Loss>)

  /** The authenticated user on whose behalf an action runs. */
  datatype Caller = Caller(id: UserId, isAdmin: bool)

  /** An identifier larger than every identifier `key` gives the elements. */
  function NextId<T>(s: seq<T>, key: T -> nat): (n: nat)
    ensures forall i :: 0 <= i < |s| ==> key(s[i]) < n
  {
    if |s| == 0 then 0
    else
      var m := NextId(s[..|s| - 1], key);
      var last := key(s[|s| - 1]) + 1;
      if m < last then last else m
  }

  /** Position of the first element whose `key` is `k`. */
  function FindKey<T, K(==)>(s: seq<T>, key: T -> K, k: K): (r: Option<nat>)
    ensures r.Some? ==> r.value < |s| && key(s[r.value]) == k
    ensures r.Some? ==> forall i :: 0 <= i < r.value ==> key(s[i]) != k
    ensures r.None? <==> forall i :: 0 <= i < |s| ==> key(s[i]) != k
  {
    if |s| == 0 then None
    else if key(s[0]) == k then Some(0)
    else
      var rest := FindKey(s[1..], key, k);
      if rest.Some? then Some(rest.value + 1) else None
  }

  /** An identifier larger than every transaction identifier in use. */
  function NextTxId(txs: seq<DbTx>): (n: nat)
    ensures forall i :: 0 <= i < |txs| ==> txs[i].id < n
  {
    NextId(txs, (tx: DbTx) => tx.id)
  }

  /** An identifier larger than every shift identifier in use. */
  function NextShiftId(shifts: seq<Shift>): (n: nat)
    ensures forall i :: 0 <= i < |shifts| ==> shifts[i].id < n
  {
    NextId(shifts, (s: Shift) => s.id)
  }

  /** Position of the transaction with the given identifier (the first, should there be two). */
  function FindTx(txs: seq<DbTx>, id: nat): (r: Option<nat>)
    ensures r.Some? ==> r.value < |txs| && txs[r.value].id == id
    ensures r.Some? ==> forall i :: 0 <= i < r.value ==> txs[i].id != id
    ensures r.None? <==> forall i :: 0 <= i < |txs| ==> txs[i].id != id
  {
    FindKey(txs, (tx: DbTx) => tx.id, id)
  }

  /** The shift mapper's `date`: the first ten characters of the ISO start instant, that is,
      its day. */
  function ShiftDay(s: Shift): (d: string)
    ensures |d| == if |s.date| < 10 then |s.date| else 10
    ensures d <= s.date
  {
    if |s.date| < 10 then s.date else s.date[..10]
  }

  /** Position of the shift with the given identifier (the first, should there be two). */
  function FindShift(shifts: seq<Shift>, id: nat): (r: Option<nat>)
    ensures r.Some? ==> r.value < |shifts| && shifts[r.value].id == id
    ensures r.Some? ==> forall i :: 0 <= i < r.value ==> shifts[i].id != id
    ensures r.None? <==> forall i :: 0 <= i < |shifts| ==> shifts[i].id != id
  {
    FindKey(shifts, (s: Shift) => s.id, id)
  }

  /** The transactions of shift `id`, in ledger order. */
  function ShiftTxs(txs: seq<DbTx>, id: nat): (r: seq<DbTx>)
    ensures |r| <= |txs|
    ensures forall tx :: tx in r <==> tx in txs && tx.shiftId == Some(id)
  {
    if |txs| == 0 then []
    else
      var init := ShiftTxs(txs[..|txs| - 1], id);
      assert txs == txs[..|txs| - 1] + [txs[|txs| - 1]];
      if txs[|txs| - 1].shiftId == Some(id) then init + [txs[|txs| - 1]] else init
  }

  /** A row appended to the ledger joins the end of its own shift's transactions only. */
  lemma ShiftTxsSnoc(txs: seq<DbTx>, tx: DbTx, id: nat)
    ensures ShiftTxs(txs + [tx], id) == if tx.shiftId == Some(id) then ShiftTxs(txs, id) + [tx] else ShiftTxs(txs, id)
  {
    assert (txs + [tx])[..|txs|] == txs;
  }

  /** The sequence without its element at position `i`. */
  function RemoveAt<T>(s: seq<T>, i: nat): (r: seq<T>)
    requires i < |s|
    ensures |r| == |s| - 1
    ensures forall j :: 0 <= j < i ==> r[j] == s[j]
    ensures forall j :: i <= j < |r| ==> r[j] == s[j + 1]
  {
    s[..i] + s[i + 1..]
  }
}
