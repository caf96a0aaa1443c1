/** The manual-adjustment forms of the petty-cash and safe screens: both refuse a missing or
    non-positive amount, then a blank description, then a withdrawal larger than the balance
    shown; anything else is sent to the container's admin action with the description trimmed. */
module CashForms {
  import opened Outcomes
  import opened Vocabulary
  import opened Text
  import opened Store
  import opened Balances
  import opened Ledger

  /** The form as filled in: the direction, the amount (absent until typed), the description. */
  datatype CashForm = CashForm(t: UiType, amount: Option<int>, description: string)

  datatype CashDecision =
    | NoUser
    | RejectAmount
    | RejectDescription
    | RejectBalance
    | Send(t: UiType, amount: int, description: string)

  /** `amount || 0`. */
  function EnteredAmount(form: CashForm): int
  {
    if form.amount.Some? then form.amount.value else 0
  }

  /** `handleSubmit` of both screens; `balance` is the container balance the screen loaded and
      `signedIn` whether a user is present. */
  function HandleCashSubmit(form: CashForm, signedIn: bool, balance: int): (d: CashDecision)
    ensures !signedIn ==> d == NoUser
    ensures signedIn && EnteredAmount(form) <= 0 ==> d == RejectAmount
    ensures signedIn && EnteredAmount(form) > 0 && IsBlank(form.description) ==> d == RejectDescription
    ensures d == RejectBalance <==>
      signedIn && EnteredAmount(form) > 0 && !IsBlank(form.description)
      && form.t == Egreso && EnteredAmount(form) > balance
    ensures d.Send? <==>
      signedIn && EnteredAmount(form) > 0 && !IsBlank(form.description)
      && (form.t == Egreso ==> EnteredAmount(form) <= balance)
    ensures d.Send? ==>
      && d.t == form.t && d.amount == EnteredAmount(form) && d.description == Trim(form.description)
      && d.description != ""
  {
    if !signedIn then NoUser
    else
      var amt := EnteredAmount(form);
      if amt <= 0 then RejectAmount
      else if Trim(form.description) == "" then RejectDescription
      else if form.t == Egreso && amt > balance then RejectBalance
      else Send(form.t, amt, Trim(form.description))
  }

  /** A withdrawal of exactly the balance shown passes; one a unit larger does not. */
  lemma WithdrawalBoundIsInclusive(description: string, signedIn: bool, balance: int)
    requires signedIn && balance > 0 && !IsBlank(description)
    ensures HandleCashSubmit(CashForm(Egreso, Some(balance), description), signedIn, balance).Send?
    ensures HandleCashSubmit(CashForm(Egreso, Some(balance + 1), description), signedIn, balance) == RejectBalance
  {
  }

  /** A deposit passes whatever the balance. */
  lemma DepositIgnoresBalance(form: CashForm, signedIn: bool, b1: int, b2: int)
    requires form.t == Ingreso
    ensures HandleCashSubmit(form, signedIn, b1) == HandleCashSubmit(form, signedIn, b2)
  {
  }

  /** What the petty-cash screen sends, when the balance it shows is the ledger's, is accepted
      by the admin action for an admin, leaves petty cash non-negative after a withdrawal, and
      moves it by exactly the amount sent. */
  lemma PettyCashFormKeepsBalance(st: State, caller: Caller, form: CashForm)
    requires caller.isAdmin
    requires HandleCashSubmit(form, true, BalanceOf(st, CajaChica)).Send?
    ensures var d := HandleCashSubmit(form, true, BalanceOf(st, CajaChica));
      var r := AddPettyCashTransaction(st, caller, d.t, d.amount, d.description);
      && r.Ok?
      && (d.t == Egreso ==> BalanceOf(r.value, CajaChica) >= 0)
      && BalanceOf(r.value, CajaChica) == BalanceOf(st, CajaChica) + (if d.t == Ingreso then d.amount else -d.amount)
  {
    var d := HandleCashSubmit(form, true, BalanceOf(st, CajaChica));
    PettyCashMovesOnlyPettyCash(st, caller, d.t, d.amount, d.description, CajaChica);
  }

  /** The same for the safe screen and the safe action. */
  lemma SafeFormKeepsBalance(st: State, caller: Caller, form: CashForm)
    requires caller.isAdmin
    requires HandleCashSubmit(form, true, BalanceOf(st, CajaFuerte)).Send?
    ensures var d := HandleCashSubmit(form, true, BalanceOf(st, CajaFuerte));
      var r := AddSafeTransaction(st, caller, d.t, d.amount, d.description);
      && r.Ok?
      && (d.t == Egreso ==> BalanceOf(r.value, CajaFuerte) >= 0)
      && BalanceOf(r.value, CajaFuerte) == BalanceOf(st, CajaFuerte) + (if d.t == Ingreso then d.amount else -d.amount)
  {
    var d := HandleCashSubmit(form, true, BalanceOf(st, CajaFuerte));
    SafeMovesOnlySafe(st, caller, d.t, d.amount, d.description, CajaFuerte);
  }
}
