/** The shift lifecycle: at most one shift may be open at a time, opening stores the caller and
    the opening floats verbatim, closing stores the final amounts the caller computed, deleting
    removes the shift with all its transactions, and the active shift a user sees depends on
    their role. */
module Shifts {
  import opened Outcomes
  import opened Text
  import opened Store
  import opened Seqs

  /** The three working periods of the day, as the screens name them. */
  datatype Period = Manana | Tarde | Noche

  function PeriodName(p: Period): string
  {
    match p
    case Manana => "mañana"
    case Tarde => "tarde"
    case Noche => "noche"
  }

  /** `toDbShiftType`: the stored shift type is the upper-case period name. */
  function ToDbShiftType(p: Period): (s: string)
    ensures |s| == |PeriodName(p)|
    ensures forall i :: 0 <= i < |s| ==> !IsLowerLetter(s[i])
  {
    Upper(PeriodName(p))
  }

  /** Reading a shift back lower-cases its type, which gives the period name back. */
  lemma ShiftTypeRoundTrip(p: Period)
    ensures Lower(ToDbShiftType(p)) == PeriodName(p)
  {
    var n := PeriodName(p);
    assert forall i :: 0 <= i < |n| ==> !IsUpperLetter(n[i]);
    LowerUpperRoundTrip(n);
  }

  predicate SomeShiftOpen(shifts: seq<Shift>)
  {
    exists i :: 0 <= i < |shifts| && shifts[i].status == Open
  }

  /** `assertCanOpenShift`: the open-shift check comes first, so its error wins. Zero floats
      are accepted. */
  function AssertCanOpenShift(shifts: seq<Shift>, cashStart: int, mpStart: int): (r: Outcome)
    ensures SomeShiftOpen(shifts) ==> r == Fail(ShiftAlreadyOpen)
    ensures !SomeShiftOpen(shifts) && (cashStart < 0 || mpStart < 0) ==> r == Fail(InvalidOpeningAmounts)
    ensures r == Pass <==> !SomeShiftOpen(shifts) && cashStart >= 0 && mpStart >= 0
  {
    if SomeShiftOpen(shifts) then Fail(ShiftAlreadyOpen)
    else if cashStart < 0 || mpStart < 0 then Fail(InvalidOpeningAmounts)
    else Pass
  }

  /** `openShift`: nothing is created unless the check passes and the day the screen sent
      parses; the new shift is open, owned by the caller, and holds the floats exactly as given.
      `startedAt` is the ISO rendering of that day, `None` when it is not a valid date (the
      rendering then throws, after the check). */
  function OpenShift(st: State, caller: Caller, startedAt: Option<string>, period: Period, cashStart: int, mpStart: int): (r: Result<State>)
    ensures AssertCanOpenShift(st.shifts, cashStart, mpStart).Fail? ==>
      r == Err(AssertCanOpenShift(st.shifts, cashStart, mpStart).error)
    ensures AssertCanOpenShift(st.shifts, cashStart, mpStart) == Pass && startedAt.None? ==>
      r == Err(InvalidTimeValue)
    ensures r.Ok? <==> AssertCanOpenShift(st.shifts, cashStart, mpStart) == Pass && startedAt.Some?
    ensures r.Ok? ==> |r.value.shifts| == |st.shifts| + 1 && r.value == st.(shifts := st.shifts + [r.value.shifts[|st.shifts|]])
    ensures r.Ok? ==>
      var s := r.value.shifts[|st.shifts|];
      && (forall i :: 0 <= i < |st.shifts| ==> st.shifts[i].id != s.id)
      && s.userId == caller.id && s.status == Open && s.date == startedAt.value
      && s.initialCash == cashStart && s.initialMp == mpStart
      && Lower(s.shiftType) == PeriodName(period)
      && s.finalCash == None && s.finalMp == None
  {
    var check := AssertCanOpenShift(st.shifts, cashStart, mpStart);
    if check.Fail? then Err(check.error)
    else if startedAt.None? then Err(InvalidTimeValue)
    else
      ShiftTypeRoundTrip(period);
      var s := Shift(NextShiftId(st.shifts), caller.id, ToDbShiftType(period), startedAt.value, cashStart, mpStart, Open, None, None);
      Ok(st.(shifts := st.shifts + [s]))
  }

  /** `closeShift`: the shift is marked closed and the final amounts are stored as given. There
      is no status check: closing a closed shift overwrites its final amounts. */
  function CloseShift(st: State, shiftId: nat, finalCash: int, finalMp: int): (r: Result<State>)
    ensures r.Err? <==> FindShift(st.shifts, shiftId).None?
    ensures r.Err? ==> r.error == ShiftNotFound
    ensures r.Ok? ==>
      var i := FindShift(st.shifts, shiftId).value;
      && |r.value.shifts| == |st.shifts|
      && r.value == st.(shifts := r.value.shifts)
      && r.value.shifts[i] == st.shifts[i].(status := Closed, finalCash := Some(finalCash), finalMp := Some(finalMp))
      && (forall j :: 0 <= j < |st.shifts| && j != i ==> r.value.shifts[j] == st.shifts[j])
  {
    var found := FindShift(st.shifts, shiftId);
    if found.None? then Err(ShiftNotFound)
    else
      var i := found.value;
      Ok(st.(shifts := st.shifts[i := st.shifts[i].(status := Closed, finalCash := Some(finalCash), finalMp := Some(finalMp))]))
  }

  /** The ledger without the transactions of shift `id`, in the same order. */
  function WithoutShiftTxs(txs: seq<DbTx>, id: nat): (r: seq<DbTx>)
    ensures |r| <= |txs|
    ensures forall tx :: tx in r <==> tx in txs && tx.shiftId != Some(id)
    ensures forall tx :: tx in txs && tx.shiftId != Some(id) ==> multiset(r)[tx] == multiset(txs)[tx]
  {
    if |txs| == 0 then []
    else
      var rest := WithoutShiftTxs(txs[1..], id);
      HeadTail(txs);
      if txs[0].shiftId == Some(id) then rest else [txs[0]] + rest
  }

  /** Dropping a shift's rows keeps the others in ledger order: a single row stays exactly when it
      belongs to another shift, and the ledger can be cut anywhere and filtered piecewise. */
  lemma {:induction false} WithoutShiftTxsKeepsOrder(a: seq<DbTx>, b: seq<DbTx>, tx: DbTx, id: nat)
    ensures WithoutShiftTxs([tx], id) == (if tx.shiftId == Some(id) then [] else [tx])
    ensures WithoutShiftTxs(a + b, id) == WithoutShiftTxs(a, id) + WithoutShiftTxs(b, id)
  {
    assert [tx][1..] == [];
    if |a| == 0 {
      assert a + b == b;
    } else {
      HeadOfAppend(a, b);
      WithoutShiftTxsKeepsOrder(a[1..], b, tx, id);
      if a[0].shiftId != Some(id) {
        Assoc([a[0]], WithoutShiftTxs(a[1..], id), WithoutShiftTxs(b, id));
      }
    }
  }

  /** `deleteShift`: admin only; the shift and every transaction that references it go, every
      other shift and transaction stays. */
  function DeleteShift(st: State, caller: Caller, shiftId: nat): (r: Result<State>)
    ensures !caller.isAdmin ==> r == Err(Unauthorized)
    ensures caller.isAdmin ==> (r.Err? <==> FindShift(st.shifts, shiftId).None?)
    ensures r.Err? ==> r.error in {Unauthorized, ShiftNotFound}
    ensures r.Ok? ==>
      && r.value.shifts == RemoveAt(st.shifts, FindShift(st.shifts, shiftId).value)
      && r.value.txs == WithoutShiftTxs(st.txs, shiftId)
      && r.value.products == st.products && r.value.losses == st.losses
  {
    if !caller.isAdmin then Err(Unauthorized)
    else
      var found := FindShift(st.shifts, shiftId);
      if found.None? then Err(ShiftNotFound)
      else Ok(st.(shifts := RemoveAt(st.shifts, found.value), txs := WithoutShiftTxs(st.txs, shiftId)))
  }

  /** A shift `user` can see as active: open, and their own unless they are an admin. */
  predicate Visible(s: Shift, caller: Caller)
  {
    s.status == Open && (caller.isAdmin || s.userId == caller.id)
  }

  /** Position of the last shift among the first `n` that `caller` can see. */
  function LastVisible(shifts: seq<Shift>, caller: Caller, n: nat): (r: Option<nat>)
    requires n <= |shifts|
    ensures r.Some? ==> r.value < n && Visible(shifts[r.value], caller)
    ensures r.Some? ==> forall j :: r.value < j < n ==> !Visible(shifts[j], caller)
    ensures r.None? <==> forall i :: 0 <= i < n ==> !Visible(shifts[i], caller)
    decreases n
  {
    if n == 0 then None
    else if Visible(shifts[n - 1], caller) then Some(n - 1)
    else LastVisible(shifts, caller, n - 1)
  }

  /** `getActiveShift`: the most recently created visible shift. */
  function GetActiveShift(shifts: seq<Shift>, caller: Caller): (r: Option<Shift>)
    ensures r.None? <==> forall i :: 0 <= i < |shifts| ==> !Visible(shifts[i], caller)
    ensures r.Some? ==> exists i :: 0 <= i < |shifts| && shifts[i] == r.value &&
                                    (forall j :: i < j < |shifts| ==> !Visible(shifts[j], caller))
    ensures r.Some? ==> Visible(r.value, caller)
  {
    var last := LastVisible(shifts, caller, |shifts|);
    if last.Some? then Some(shifts[last.value]) else None
  }

  /** Once a shift is open nobody can open another, and its owner sees it as active. */
  lemma OpenedShiftIsActive(st: State, caller: Caller, startedAt: Option<string>, period: Period, cashStart: int, mpStart: int,
                            c2: int, m2: int)
    requires OpenShift(st, caller, startedAt, period, cashStart, mpStart).Ok?
    ensures var st' := OpenShift(st, caller, startedAt, period, cashStart, mpStart).value;
      && GetActiveShift(st'.shifts, caller) == Some(st'.shifts[|st.shifts|])
      && AssertCanOpenShift(st'.shifts, c2, m2) == Fail(ShiftAlreadyOpen)
  {
    var st' := OpenShift(st, caller, startedAt, period, cashStart, mpStart).value;
    assert st'.shifts[|st.shifts|].status == Open;
  }

  /** At most one shift is open. */
  predicate SingleOpen(shifts: seq<Shift>)
  {
    forall i, j :: 0 <= i < |shifts| && 0 <= j < |shifts| && shifts[i].status == Open && shifts[j].status == Open ==> i == j
  }

  /** Opening, closing and deleting keep at most one shift open (in this sequential model; the
      source's check-then-create can race). */
  lemma SingleOpenPreserved(st: State, caller: Caller, startedAt: Option<string>, period: Period, cashStart: int, mpStart: int,
                            shiftId: nat, finalCash: int, finalMp: int)
    requires SingleOpen(st.shifts)
    ensures var r := OpenShift(st, caller, startedAt, period, cashStart, mpStart);
      r.Ok? ==> SingleOpen(r.value.shifts)
    ensures var r := CloseShift(st, shiftId, finalCash, finalMp);
      r.Ok? ==> SingleOpen(r.value.shifts)
    ensures var r := DeleteShift(st, caller, shiftId);
      r.Ok? ==> SingleOpen(r.value.shifts)
  {
    var r := OpenShift(st, caller, startedAt, period, cashStart, mpStart);
    if r.Ok? {
      OnlyNewShiftOpen(st.shifts, r.value.shifts[|st.shifts|]);
    }
    var c := CloseShift(st, shiftId, finalCash, finalMp);
    if c.Ok? {
      var i := FindShift(st.shifts, shiftId).value;
      ClosingKeepsSingleOpen(st.shifts, i, c.value.shifts[i]);
    }
    var d := DeleteShift(st, caller, shiftId);
    if d.Ok? {
      RemovingKeepsSingleOpen(st.shifts, FindShift(st.shifts, shiftId).value);
    }
  }

  /** Appending a shift to a list with none open leaves at most one open. */
  lemma OnlyNewShiftOpen(shifts: seq<Shift>, s: Shift)
    requires !SomeShiftOpen(shifts)
    ensures SingleOpen(shifts + [s])
  {
    var r := shifts + [s];
    forall i | 0 <= i < |shifts|
      ensures r[i].status != Open
    {
      assert r[i] == shifts[i];
    }
  }

  /** Closing one shift in place keeps at most one open. */
  lemma ClosingKeepsSingleOpen(shifts: seq<Shift>, i: nat, closed: Shift)
    requires SingleOpen(shifts) && i < |shifts| && closed.status == Closed
    ensures SingleOpen(shifts[i := closed])
  {
  }

  /** Removing a shift keeps at most one open. */
  lemma RemovingKeepsSingleOpen(shifts: seq<Shift>, i: nat)
    requires SingleOpen(shifts) && i < |shifts|
    ensures SingleOpen(RemoveAt(shifts, i))
  {
    var r := RemoveAt(shifts, i);
    forall a, b | 0 <= a < |r| && 0 <= b < |r| && r[a].status == Open && r[b].status == Open
      ensures a == b
    {
      var a' := if a < i then a else a + 1;
      var b' := if b < i then b else b + 1;
      assert r[a] == shifts[a'] && r[b] == shifts[b'];
    }
  }

  /** A closed shift is no longer anyone's active shift and no longer blocks opening. */
  lemma ClosedShiftNotActive(st: State, shiftId: nat, finalCash: int, finalMp: int)
    requires SingleOpen(st.shifts)
    requires CloseShift(st, shiftId, finalCash, finalMp).Ok?
    requires st.shifts[FindShift(st.shifts, shiftId).value].status == Open
    ensures var st' := CloseShift(st, shiftId, finalCash, finalMp).value;
      !SomeShiftOpen(st'.shifts)
  {
  }
}
