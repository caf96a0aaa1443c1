/** Container balances are not stored: they are recomputed from the whole ledger. An income
    credits its destination container, an expense debits its source container, the two legacy
    container tags count with their canonical containers, and every open shift adds its opening
    float to the cash and Mercado Pago containers. */
module Balances {
  import opened Outcomes
  import opened Vocabulary
  import opened Sums
  import opened Store

  /** The four figures shown on the dashboard, keyed by screen container name. */
  datatype Balances = Balances(efectivo: int, mercadoPago: int, cajaChica: int, cajaFuerte: int)

  function Get(b: Balances, k: ContainerKey): int
  {
    match k
    case Efectivo => b.efectivo
    case MercadoPago => b.mercadoPago
    case CajaChica => b.cajaChica
    case CajaFuerte => b.cajaFuerte
  }

  /** The container a stored tag is counted in: the legacy tags merge with the canonical ones. */
  function Bucket(c: DbContainer): (k: ContainerKey)
    ensures ContainerToDb(k) == c || c in {CajaChicaTag, CajaFuerteTag}
  {
    match c
    case Cash => Efectivo
    case MercadoPagoTag => MercadoPago
    case PettyCash => CajaChica
    case CajaChicaTag => CajaChica
    case Safe => CajaFuerte
    case CajaFuerteTag => CajaFuerte
  }

  /** What one ledger row does to container `k`: an income only through its destination, an
      expense only through its source; a row without the relevant container does nothing. */
  function Effect(tx: DbTx, k: ContainerKey): (e: int)
    ensures tx.txType == Income ==> e in {0, tx.amount}
    ensures tx.txType == Expense ==> e in {0, -tx.amount}
    ensures e != 0 ==>
      if tx.txType == Income then tx.destination.Some? && Bucket(tx.destination.value) == k
      else tx.source.Some? && Bucket(tx.source.value) == k
  {
    if tx.txType == Income then
      (if tx.destination.Some? && Bucket(tx.destination.value) == k then tx.amount else 0)
    else
      (if tx.source.Some? && Bucket(tx.source.value) == k then -tx.amount else 0)
  }

  /** Net ledger movement of container `k`. */
  function Net(txs: seq<DbTx>, k: ContainerKey): int
  {
    Sum(txs, tx => Effect(tx, k))
  }

  /** Opening floats of the open shifts, for cash (`cash == true`) or for Mercado Pago. */
  function OpenFloat(shifts: seq<Shift>, cash: bool): int
  {
    Sum(shifts, (s: Shift) => if s.status == Open then (if cash then s.initialCash else s.initialMp) else 0)
  }

  /** The balance of container `k` as the dashboard reports it. */
  function BalanceOf(st: State, k: ContainerKey): (b: int)
    ensures k !in {Efectivo, MercadoPago} ==> b == Net(st.txs, k)
    ensures (forall i :: 0 <= i < |st.shifts| ==> st.shifts[i].status == Closed) ==> b == Net(st.txs, k)
  {
    NoOpenShiftNoFloat(st.shifts);
    Net(st.txs, k)
    + (if k == Efectivo then OpenFloat(st.shifts, true) else 0)
    + (if k == MercadoPago then OpenFloat(st.shifts, false) else 0)
  }

  lemma NetSnoc(txs: seq<DbTx>, tx: DbTx, k: ContainerKey)
    ensures Net(txs + [tx], k) == Net(txs, k) + Effect(tx, k)
  {
    assert (txs + [tx])[..|txs|] == txs;
  }

  /** One step of the ledger pass, with the source's per-tag branches. */
  method FoldRow(b: Balances, tx: DbTx) returns (b': Balances)
    ensures forall k :: Get(b', k) == Get(b, k) + Effect(tx, k)
  {
    b' := b;
    if tx.txType == Income && tx.destination.Some? {
      var d := tx.destination.value;
      if d == Cash { b' := b'.(efectivo := b'.efectivo + tx.amount); }
      if d == MercadoPagoTag { b' := b'.(mercadoPago := b'.mercadoPago + tx.amount); }
      if d == PettyCash || d == CajaChicaTag { b' := b'.(cajaChica := b'.cajaChica + tx.amount); }
      if d == Safe || d == CajaFuerteTag { b' := b'.(cajaFuerte := b'.cajaFuerte + tx.amount); }
    } else if tx.txType == Expense && tx.source.Some? {
      var s := tx.source.value;
      if s == Cash { b' := b'.(efectivo := b'.efectivo - tx.amount); }
      if s == MercadoPagoTag { b' := b'.(mercadoPago := b'.mercadoPago - tx.amount); }
      if s == PettyCash || s == CajaChicaTag { b' := b'.(cajaChica := b'.cajaChica - tx.amount); }
      if s == Safe || s == CajaFuerteTag { b' := b'.(cajaFuerte := b'.cajaFuerte - tx.amount); }
    }
  }

  /** The pass over the whole ledger, starting from zero in every container. */
  method FoldLedger(txs: seq<DbTx>) returns (b: Balances)
    ensures forall k :: Get(b, k) == Net(txs, k)
  {
    b := Balances(0, 0, 0, 0);
    var i := 0;
    while i < |txs|
      invariant 0 <= i <= |txs|
      invariant forall k :: Get(b, k) == Net(txs[..i], k)
    {
      b := FoldRow(b, txs[i]);
      assert txs[..i + 1] == txs[..i] + [txs[i]];
      forall k
        ensures Get(b, k) == Net(txs[..i + 1], k)
      {
        NetSnoc(txs[..i], txs[i], k);
      }
      i := i + 1;
    }
    assert txs[..i] == txs;
  }

  /** The pass over the shifts: the opening floats of the open ones. */
  method FoldFloats(shifts: seq<Shift>) returns (cashFloat: int, mpFloat: int)
    ensures cashFloat == OpenFloat(shifts, true) && mpFloat == OpenFloat(shifts, false)
  {
    cashFloat, mpFloat := 0, 0;
    var j := 0;
    while j < |shifts|
      invariant 0 <= j <= |shifts|
      invariant cashFloat == OpenFloat(shifts[..j], true)
      invariant mpFloat == OpenFloat(shifts[..j], false)
    {
      if shifts[j].status == Open {
        cashFloat := cashFloat + shifts[j].initialCash;
        mpFloat := mpFloat + shifts[j].initialMp;
      }
      assert shifts[..j + 1][..j] == shifts[..j];
      j := j + 1;
    }
    assert shifts[..j] == shifts;
  }

  /** `getBalances`: the ledger pass, then the floats of the open shifts added to cash and
      Mercado Pago. */
  method GetBalances(st: State) returns (b: Balances)
    ensures forall k :: Get(b, k) == BalanceOf(st, k)
  {
    var net := FoldLedger(st.txs);
    var cashFloat, mpFloat := FoldFloats(st.shifts);
    b := net.(efectivo := net.efectivo + cashFloat, mercadoPago := net.mercadoPago + mpFloat);
    assert forall k :: Get(b, k) == BalanceOf(st, k) by {
      forall k
        ensures Get(b, k) == BalanceOf(st, k)
      {
        assert Get(net, k) == Net(st.txs, k);
      }
    }
  }

  /** Balances are a plain sum: listing the ledger rows in another order changes nothing. */
  lemma BalancesIgnoreOrder(st: State, txs: seq<DbTx>, k: ContainerKey)
    requires multiset(txs) == multiset(st.txs)
    ensures BalanceOf(st.(txs := txs), k) == BalanceOf(st, k)
  {
    SumPermutation(txs, st.txs, tx => Effect(tx, k));
  }

  /** A row stored under a legacy tag counts exactly like one under the canonical tag. */
  lemma AliasesMerge(tx: DbTx, k: ContainerKey)
    ensures Effect(tx.(destination := Some(CajaChicaTag)), k) == Effect(tx.(destination := Some(PettyCash)), k)
    ensures Effect(tx.(source := Some(CajaChicaTag)), k) == Effect(tx.(source := Some(PettyCash)), k)
    ensures Effect(tx.(destination := Some(CajaFuerteTag)), k) == Effect(tx.(destination := Some(Safe)), k)
    ensures Effect(tx.(source := Some(CajaFuerteTag)), k) == Effect(tx.(source := Some(Safe)), k)
  {
  }

  /** The `CASH` source every income row carries plays no part in any balance. */
  lemma IncomeSourceIgnored(tx: DbTx, src: Option<DbContainer>, k: ContainerKey)
    requires tx.txType == Income
    ensures Effect(tx.(source := src), k) == Effect(tx, k)
  {
  }

  /** Balances read only the ledger and the shifts. */
  lemma BalanceReadsLedgerAndShifts(st1: State, st2: State, k: ContainerKey)
    requires st1.txs == st2.txs && st1.shifts == st2.shifts
    ensures BalanceOf(st1, k) == BalanceOf(st2, k)
  {
  }

  /** Appending a row moves exactly one container, by the row's amount, or none at all. */
  lemma AppendMovesOneContainer(st: State, tx: DbTx, k: ContainerKey)
    ensures BalanceOf(st.(txs := st.txs + [tx]), k) == BalanceOf(st, k) + Effect(tx, k)
    ensures Effect(tx, k) != 0 ==>
      tx.amount != 0 && (tx.txType == Income ==> Bucket(tx.destination.value) == k)
      && (tx.txType == Expense ==> Bucket(tx.source.value) == k)
  {
    NetSnoc(st.txs, tx, k);
  }

  /** Closing or deleting a shift removes its float: only open shifts count. */
  lemma NoOpenShiftNoFloat(shifts: seq<Shift>)
    ensures (forall i :: 0 <= i < |shifts| ==> shifts[i].status == Closed) ==>
      OpenFloat(shifts, true) == 0 && OpenFloat(shifts, false) == 0
  {
    if forall i :: 0 <= i < |shifts| ==> shifts[i].status == Closed {
      ClosedShiftsAddNothing(shifts, true);
      ClosedShiftsAddNothing(shifts, false);
    }
  }

  lemma {:induction false} ClosedShiftsAddNothing(shifts: seq<Shift>, cash: bool)
    requires forall i :: 0 <= i < |shifts| ==> shifts[i].status == Closed
    ensures OpenFloat(shifts, cash) == 0
    decreases |shifts|
  {
    if |shifts| > 0 {
      ClosedShiftsAddNothing(shifts[..|shifts| - 1], cash);
    }
  }
}
