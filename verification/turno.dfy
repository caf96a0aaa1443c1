/** The shift screen's own rules: the period offered for a new shift, the checks before opening,
    the closing amounts computed on screen from the shift's movements, the checks and the
    petty-cash reroute before a movement is sent, and the running shift total. */
module Turno {
  import opened Outcomes
  import opened Vocabulary
  import opened Sums
  import opened Text
  import opened Store
  import opened Balances
  import opened Ledger
  import opened Shifts

  /** `getCurrentPeriod` for the local hour `h` (the clock is left to the caller). */
  function GetCurrentPeriod(h: int): (p: Period)
    ensures p == Manana <==> 6 <= h < 14
    ensures p == Tarde <==> 14 <= h < 22
    ensures p == Noche <==> h < 6 || 22 <= h
  {
    if 6 <= h && h < 14 then Manana
    else if 14 <= h && h < 22 then Tarde
    else Noche
  }

  /** What the open form does with the two entered amounts. */
  datatype OpenCheck = RejectCash | RejectMp | SendOpen(cash: int, mp: int)

  /** The open form: a missing or negative amount is refused, cash first. */
  function CheckOpenForm(cash: Option<int>, mp: Option<int>): (r: OpenCheck)
    ensures r.SendOpen? <==> cash.Some? && cash.value >= 0 && mp.Some? && mp.value >= 0
    ensures r.SendOpen? ==> r.cash == cash.value && r.mp == mp.value
    ensures r == RejectMp ==> cash.Some? && cash.value >= 0
  {
    if cash.None? || cash.value < 0 then RejectCash
    else if mp.None? || mp.value < 0 then RejectMp
    else SendOpen(cash.value, mp.value)
  }

  /** What the form lets through, the server's amount check accepts: only an open shift or an
      unparseable day can still refuse it. */
  lemma OpenFormAgreesWithServer(cash: Option<int>, mp: Option<int>, st: State, caller: Caller, startedAt: Option<string>, period: Period)
    requires CheckOpenForm(cash, mp).SendOpen?
    ensures var c := CheckOpenForm(cash, mp);
      OpenShift(st, caller, startedAt, period, c.cash, c.mp).Ok? <==> !SomeShiftOpen(st.shifts) && startedAt.Some?
  {
  }

  /** What a movement does to container `k` as the screen reads it. */
  function UiEffect(u: UiTx, k: ContainerKey): int
  {
    if u.txType == Ingreso then (if u.destination == Some(k) then u.amount else 0)
    else (if u.source == Some(k) then -u.amount else 0)
  }

  function UiNet(us: seq<UiTx>, k: ContainerKey): int
  {
    Sum(us, (u: UiTx) => UiEffect(u, k))
  }

  /** The closing pass over the shift's movements, starting from its opening floats. */
  method FoldShift(cashStart: int, mpStart: int, txs: seq<UiTx>) returns (cashBal: int, mpBal: int)
    ensures cashBal == cashStart + UiNet(txs, Efectivo)
    ensures mpBal == mpStart + UiNet(txs, MercadoPago)
  {
    cashBal, mpBal := cashStart, mpStart;
    var i := 0;
    while i < |txs|
      invariant 0 <= i <= |txs|
      invariant cashBal == cashStart + UiNet(txs[..i], Efectivo)
      invariant mpBal == mpStart + UiNet(txs[..i], MercadoPago)
    {
      var t := txs[i];
      if t.txType == Ingreso {
        if t.destination == Some(Efectivo) { cashBal := cashBal + t.amount; }
        if t.destination == Some(MercadoPago) { mpBal := mpBal + t.amount; }
      } else if t.txType == Egreso {
        if t.source == Some(Efectivo) { cashBal := cashBal - t.amount; }
        if t.source == Some(MercadoPago) { mpBal := mpBal - t.amount; }
      }
      assert txs[..i + 1][..i] == txs[..i];
      i := i + 1;
    }
    assert txs[..i] == txs;
  }

  /** `Math.max(0, x)`. */
  function Clamp(x: int): (r: int)
    ensures r >= 0 && r >= x
    ensures r == x || r == 0
  {
    if x < 0 then 0 else x
  }

  /** `handleCloseShift`: the amounts sent to the server are the folded balances, never below
      zero. */
  method HandleCloseShift(sh: Shift, shiftTxs: seq<UiTx>) returns (finalCash: int, finalMp: int)
    ensures finalCash >= 0 && finalMp >= 0
    ensures finalCash == Clamp(sh.initialCash + UiNet(shiftTxs, Efectivo))
    ensures finalMp == Clamp(sh.initialMp + UiNet(shiftTxs, MercadoPago))
  {
    var cashBal, mpBal := FoldShift(sh.initialCash, sh.initialMp, shiftTxs);
    finalCash := Clamp(cashBal);
    finalMp := Clamp(mpBal);
  }

  /** The screen's list of a shift's movements, as the server maps them. */
  function MapAll(txs: seq<DbTx>): (us: seq<UiTx>)
    ensures |us| == |txs|
    ensures forall i :: 0 <= i < |txs| ==> us[i] == MapTx(txs[i])
  {
    seq(|txs|, i requires 0 <= i < |txs| => MapTx(txs[i]))
  }

  /** For cash and Mercado Pago the screen reads a row exactly as the balance fold counts it. */
  lemma ScreenEffectMatchesLedger(tx: DbTx, k: ContainerKey)
    requires k == Efectivo || k == MercadoPago
    ensures UiEffect(MapTx(tx), k) == Effect(tx, k)
  {
  }

  /** So the on-screen closing fold equals the floats plus the shift's net ledger movement in
      each of the two containers. */
  lemma {:induction false} ScreenFoldMatchesLedger(txs: seq<DbTx>, k: ContainerKey)
    requires k == Efectivo || k == MercadoPago
    ensures UiNet(MapAll(txs), k) == Net(txs, k)
    decreases |txs|
  {
    if |txs| > 0 {
      var n := |txs| - 1;
      ScreenFoldMatchesLedger(txs[..n], k);
      assert MapAll(txs)[..n] == MapAll(txs[..n]);
      ScreenEffectMatchesLedger(txs[n], k);
    }
  }

  /** A petty-cash row stored under the legacy tag moves the petty-cash balance, yet the screen
      reads it as moving no container at all. */
  lemma LegacyTagInvisibleOnScreen()
    ensures var tx := DbTx(0, None, None, Expense, ToPettyCash, 5, "", Some(CajaChicaTag), None, NoReceipt);
      Effect(tx, CajaChica) == -5 && UiEffect(MapTx(tx), CajaChica) == 0
  {
  }

  /** So the amounts the screen sends when it closes shift `sh`, whose ledger rows are `txs`,
      are for each container the opening float plus the shift's net ledger movement, floored at
      zero. */
  lemma CloseAmountsMatchLedger(sh: Shift, txs: seq<DbTx>)
    ensures Clamp(sh.initialCash + UiNet(MapAll(txs), Efectivo)) == Clamp(sh.initialCash + Net(txs, Efectivo))
    ensures Clamp(sh.initialMp + UiNet(MapAll(txs), MercadoPago)) == Clamp(sh.initialMp + Net(txs, MercadoPago))
  {
    ScreenFoldMatchesLedger(txs, Efectivo);
    ScreenFoldMatchesLedger(txs, MercadoPago);
  }

  /** The movement form. An empty amount field reads as 0. */
  datatype TxForm = TxForm(txType: UiType, category: UiCategory, amount: Option<int>, container: ContainerKey, description: string)

  datatype AddTxDecision =
    | RejectAmount
    | RejectDescription
    | RejectBalance
    | Submit(t: UiType, c: UiCategory, k: ContainerKey, amount: int, description: string)

  function FormAmount(form: TxForm): int
  {
    if form.amount.Some? then form.amount.value else 0
  }

  /** What a rerouted payment's description is prefixed with. */
  const AutoPrefix: string := "(Auto) Caja Chica → "

  /** A provider payment from cash that cash cannot cover, but petty cash can. */
  predicate Reroutes(form: TxForm, balances: Balances)
  {
    && form.txType == Egreso && FormAmount(form) > Get(balances, form.container)
    && form.category == Proveedor && form.container == Efectivo && balances.cajaChica >= FormAmount(form)
  }

  /** The balance rule `handleAddTx` applies once amount and description have passed: an
      outflow larger than its container's balance is refused unless it reroutes to petty cash;
      anything else is submitted as entered. */
  function RouteOutflow(form: TxForm, balances: Balances): (d: AddTxDecision)
    ensures d != RejectAmount && d != RejectDescription
    ensures d.Submit? ==> d.amount == FormAmount(form)
    ensures d.Submit? && d.t == Egreso ==> d.amount <= Get(balances, d.k)
    ensures form.txType == Ingreso ==>
      d == Submit(Ingreso, form.category, form.container, FormAmount(form), form.description)
    ensures form.txType == Egreso && FormAmount(form) <= Get(balances, form.container) ==>
      d == Submit(Egreso, form.category, form.container, FormAmount(form), form.description)
    ensures Reroutes(form, balances) ==>
      d == Submit(Egreso, RetiroChica, CajaChica, FormAmount(form), AutoPrefix + form.description)
    ensures d == RejectBalance <==>
      form.txType == Egreso && FormAmount(form) > Get(balances, form.container) && !Reroutes(form, balances)
  {
    var amount := FormAmount(form);
    if form.txType == Egreso && amount > Get(balances, form.container) then
      if form.category == Proveedor && form.container == Efectivo && balances.cajaChica >= amount then
        assert Get(balances, CajaChica) == balances.cajaChica;
        Submit(Egreso, RetiroChica, CajaChica, amount, AutoPrefix + form.description)
      else RejectBalance
    else Submit(form.txType, form.category, form.container, amount, form.description)
  }

  /** `handleAddTx`: a non-positive amount, then a blank description, is refused before the
      balance rule is consulted. */
  function HandleAddTx(form: TxForm, balances: Balances): (d: AddTxDecision)
    ensures FormAmount(form) <= 0 ==> d == RejectAmount
    ensures FormAmount(form) > 0 && IsBlank(form.description) ==> d == RejectDescription
    ensures FormAmount(form) > 0 && !IsBlank(form.description) ==> d == RouteOutflow(form, balances)
    ensures d.Submit? ==> d.amount == FormAmount(form) > 0 && !IsBlank(form.description)
  {
    if FormAmount(form) <= 0 then RejectAmount
    else if Trim(form.description) == "" then RejectDescription
    else RouteOutflow(form, balances)
  }

  /** With the dashboard balances current and the shift on record, whatever the form submits is accepted by the server
      and an outflow never takes its container below zero. */
  lemma SubmittedOutflowKeepsBalance(st: State, caller: Caller, shiftId: nat, form: TxForm, balances: Balances)
    requires forall k :: Get(balances, k) == BalanceOf(st, k)
    requires FindShift(st.shifts, shiftId).Some?
    requires HandleAddTx(form, balances).Submit?
    ensures var d := HandleAddTx(form, balances);
      var r := AddTransaction(st, caller, shiftId, d.t, d.c, d.k, d.amount, d.description);
      && r.Ok?
      && (d.t == Egreso ==> BalanceOf(r.value, d.k) == BalanceOf(st, d.k) - d.amount >= 0)
  {
    var d := HandleAddTx(form, balances);
    AddTransactionMovesChosenContainer(st, caller, shiftId, d.t, d.c, d.k, d.amount, d.description, d.k);
  }

  function IngresoAmount(u: UiTx): int
  {
    if u.txType == Ingreso then u.amount else 0
  }

  function EgresoAmount(u: UiTx): int
  {
    if u.txType == Egreso then u.amount else 0
  }

  /** `saldoTurno`: both opening floats (0 without an active shift) plus all inflows less all
      outflows of the shift, whatever their container. */
  function SaldoTurno(active: Option<Shift>, txs: seq<UiTx>): int
  {
    (if active.Some? then active.value.initialCash + active.value.initialMp else 0)
    + Sum(txs, IngresoAmount) - Sum(txs, EgresoAmount)
  }

  /** Moves only cash or Mercado Pago. */
  predicate CashOrMp(u: UiTx)
  {
    if u.txType == Ingreso then u.destination in {Some(Efectivo), Some(MercadoPago)}
    else u.source in {Some(Efectivo), Some(MercadoPago)}
  }

  /** When every movement of the shift goes through cash or Mercado Pago, the running total is
      the sum of the two amounts the close would compute (before flooring); movements through
      other containers make the two differ. */
  lemma SaldoMatchesCloseFold(sh: Shift, txs: seq<UiTx>)
    requires forall i :: 0 <= i < |txs| ==> CashOrMp(txs[i])
    ensures SaldoTurno(Some(sh), txs) ==
      (sh.initialCash + UiNet(txs, Efectivo)) + (sh.initialMp + UiNet(txs, MercadoPago))
  {
    var signed := (u: UiTx) => IngresoAmount(u) - EgresoAmount(u);
    SumDifference(txs, IngresoAmount, EgresoAmount, signed);
    SumAdd(txs, (u: UiTx) => UiEffect(u, Efectivo), (u: UiTx) => UiEffect(u, MercadoPago), signed);
  }
}
