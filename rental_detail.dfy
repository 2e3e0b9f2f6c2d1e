/** The rental detail page: the amount paid so far (completed payments
    only), the balance still due, the overdue banner, the late fee worked out
    when the vehicle is returned, the rental's length in days, and the return
    dialog's form with the request it sends.  Money is in integer cents on
    the rental and the payments; the return form holds the page's own
    numbers (dollars), as its inputs store them.  The clock is a parameter. */
module RentalDetail {
  import opened Base
  import opened Schemas
  import opened FormKit
  import CrudQueries
  import Crud

  // ---------------------------------------------------------------------
  // What has been paid and what is still owed

  /** Only completed payments count as paid. */
  predicate Counted(p: Payment)
  {
    p.info.status == "Completed"
  }

  function AmountOf(p: Payment): int
  {
    p.info.amount
  }

  /** calculateTotalPaid: the completed payments' amounts added up. */
  function TotalPaid(payments: seq<Payment>): int
  {
    Sum(Filter(payments, Counted), AmountOf)
  }

  /** A new payment raises the amount paid by its own amount when it is
      completed, and leaves it as it was otherwise (a pending, failed or
      refunded payment pays nothing). */
  lemma TotalPaidAppend(payments: seq<Payment>, p: Payment)
    ensures TotalPaid(payments + [p]) == TotalPaid(payments) + (if Counted(p) then p.info.amount else 0)
  {
    FilterAppend(payments, [p], Counted);
    SumAppend(Filter(payments, Counted), Filter([p], Counted), AmountOf);
    assert Filter([p], Counted) == if Counted(p) then [p] else [];
  }

  /** With no negative amounts, what is paid lies between nothing and
      the sum of all payments, whatever their status. */
  lemma {:induction false} TotalPaidBounds(payments: seq<Payment>)
    requires forall i :: 0 <= i < |payments| ==> payments[i].info.amount >= 0
    ensures 0 <= TotalPaid(payments) <= Sum(payments, AmountOf)
  {
    if payments != [] {
      var rest := payments[1..];
      TotalPaidBounds(rest);
      assert payments == [payments[0]] + rest;
      FilterAppend([payments[0]], rest, Counted);
      SumAppend(Filter([payments[0]], Counted), Filter(rest, Counted), AmountOf);
      assert Filter([payments[0]], Counted) == if Counted(payments[0]) then [payments[0]] else [];
    }
  }

  /** When every payment is completed, all of it counts. */
  lemma AllCompletedAllPaid(payments: seq<Payment>)
    requires forall i :: 0 <= i < |payments| ==> Counted(payments[i])
    ensures TotalPaid(payments) == Sum(payments, AmountOf)
  {
    FilterAll(payments, Counted);
  }

  /** The balance: the rental's total, late fees and damage fees, less what
      has been paid.  The discount and the security deposit play no part. */
  function Balance(r: RentalInfo, payments: seq<Payment>): int
  {
    r.totalAmount + r.lateFees + r.damageFees - TotalPaid(payments)
  }

  /** The discount and the deposit do not move the balance. */
  lemma BalanceIgnoresDiscountAndDeposit(r: RentalInfo, payments: seq<Payment>, discount: int, deposit: int)
    ensures Balance(r.(discountApplied := discount, securityDeposit := deposit), payments) == Balance(r, payments)
  {
  }

  /** A completed payment lowers the balance by its amount; any other
      payment leaves it. */
  lemma BalanceAfterPayment(r: RentalInfo, payments: seq<Payment>, p: Payment)
    ensures Counted(p) ==> Balance(r, payments + [p]) == Balance(r, payments) - p.info.amount
    ensures !Counted(p) ==> Balance(r, payments + [p]) == Balance(r, payments)
  {
    TotalPaidAppend(payments, p);
  }

  /** The word shown after the balance. */
  datatype Standing = Due | Overpaid | Paid

  function StandingOf(balance: int): (s: Standing)
    ensures s == Due <==> balance > 0
    ensures s == Overpaid <==> balance < 0
    ensures s == Paid <==> balance == 0
  {
    if balance > 0 then Due else if balance < 0 then Overpaid else Paid
  }

  /** The amount shown: `Math.abs(balance)`. */
  function ShownAmount(balance: int): (a: nat)
    ensures a == balance || a == -balance
  {
    if balance < 0 then -balance else balance
  }

  /** The balance box is drawn in the warning colours exactly when money is
      due. */
  predicate WarningStyle(balance: int)
  {
    balance > 0
  }

  /** The amount and the word together say what the balance is: nothing is
      lost by showing its magnitude only. */
  lemma ShownBalanceDeterminesBalance(balance: int)
    ensures balance == match StandingOf(balance)
                       case Due => ShownAmount(balance)
                       case Overpaid => -(ShownAmount(balance) as int)
                       case Paid => 0
    ensures WarningStyle(balance) <==> StandingOf(balance) == Due
  {
  }

  /** Paying exactly the balance due, as a completed payment, settles it. */
  lemma PayingBalanceSettles(r: RentalInfo, payments: seq<Payment>, p: Payment)
    requires Counted(p) && p.info.amount == Balance(r, payments)
    ensures StandingOf(Balance(r, payments + [p])) == Paid
  {
    BalanceAfterPayment(r, payments, p);
  }

  // ---------------------------------------------------------------------
  // Overdue rentals, late fees and the rental's length

  /** isOverdue: an active rental whose end date has passed. */
  predicate IsOverdue(r: Rental, now: int)
  {
    r.info.status == "Active" && now > r.info.endDate
  }

  /** The page and the server's overdue list agree, except that the server
      also asks that no return date has been recorded. */
  lemma OverdueAgreesWithServer(r: Rental, now: int)
    ensures CrudQueries.IsOverdueRow(r, now) ==> IsOverdue(r, now)
    ensures IsOverdue(r, now) && r.info.actualReturnDate.None? ==> CrudQueries.IsOverdueRow(r, now)
  {
  }

  /** A rental the server has returned no longer shows the overdue banner. */
  lemma ReturnedNotOverdue(r: Rental, d: Crud.ReturnData, returnedAt: int, now: int)
    ensures !IsOverdue(Crud.ReturnedRental(r, d, returnedAt), now)
  {
  }

  /** The days late, every started day counting in full. */
  function DaysLate(endDate: int, now: int): (d: int)
    requires now > endDate
    ensures d >= 1
    ensures DayMs * (d - 1) < now - endDate <= DayMs * d
  {
    CeilDivPositive(now - endDate, DayMs);
    CeilDiv(now - endDate, DayMs)
  }

  /** The late fee, in dollars: half the daily rate for every started day
      past the end date. */
  function LateFee(dailyRate: int, endDate: int, now: int): real
    requires now > endDate
  {
    DaysLate(endDate, now) as real * CentsToNumber(dailyRate) * 0.5
  }

  /** Up to one day late costs half a day's rent. */
  lemma LateFeeFirstDay(dailyRate: int, endDate: int, now: int)
    requires endDate < now <= endDate + DayMs
    ensures LateFee(dailyRate, endDate, now) == CentsToNumber(dailyRate) * 0.5
  {
    assert DaysLate(endDate, now) == 1;
  }

  /** k whole days late and k started days late cost the same: k halves of
      the daily rate. */
  lemma LateFeeWholeDays(dailyRate: int, endDate: int, k: int, extra: int)
    requires k >= 1 && DayMs * (k - 1) < extra <= DayMs * k
    ensures LateFee(dailyRate, endDate, endDate + extra) == k as real * CentsToNumber(dailyRate) * 0.5
  {
    CeilDivUnique(extra, DayMs, k);
  }

  /** Returning later never costs less. */
  lemma LateFeeMonotone(dailyRate: int, endDate: int, now1: int, now2: int)
    requires dailyRate >= 0 && endDate < now1 <= now2
    ensures LateFee(dailyRate, endDate, now1) <= LateFee(dailyRate, endDate, now2)
  {
    CeilDivMonotone(now1 - endDate, now2 - endDate, DayMs);
    var d1, d2 := DaysLate(endDate, now1), DaysLate(endDate, now2);
    var half := CentsToNumber(dailyRate) * 0.5;
    assert half >= 0.0;
    assert (d2 - d1) as real * half >= 0.0;
    assert d2 as real * half == d1 as real * half + (d2 - d1) as real * half;
  }

  /** A late return costs something exactly when the rate is positive. */
  lemma LateFeePositive(dailyRate: int, endDate: int, now: int)
    requires now > endDate
    ensures LateFee(dailyRate, endDate, now) > 0.0 <==> dailyRate > 0
  {
    var d := DaysLate(endDate, now) as real;
    var half := CentsToNumber(dailyRate) * 0.5;
    assert d >= 1.0;
    if dailyRate > 0 {
      assert half > 0.0;
      assert d * half >= half;
    } else {
      assert half <= 0.0;
      assert d * half <= 0.0;
    }
  }

  /** The instant the rental's length runs to: its return when there is
      one, else its end date. */
  function LastDay(r: RentalInfo): int
  {
    match r.actualReturnDate
    case Some(t) => t
    case None => r.endDate
  }

  /** calculateRentalDuration: the days from the start to LastDay, every
      started day counting in full. */
  function Duration(r: RentalInfo): (n: int)
    ensures DayMs * (n - 1) < LastDay(r) - r.startDate <= DayMs * n
  {
    CeilDiv(LastDay(r) - r.startDate, DayMs)
  }

  /** A rental booked for k days and not yet returned lasts k days; once
      returned, its length is measured to the return. */
  lemma DurationOfBooking(r: RentalInfo, k: int)
    requires r.actualReturnDate.None? && r.endDate == r.startDate + k * DayMs
    ensures Duration(r) == k
  {
    CeilDivUnique(k * DayMs, DayMs, k);
  }

  /** A rental returned early is shorter than booked or as long. */
  lemma EarlyReturnShortens(r: RentalInfo, t: int)
    requires t <= r.endDate
    ensures Duration(r.(actualReturnDate := Some(t))) <= Duration(r.(actualReturnDate := None))
  {
    CeilDivMonotone(t - r.startDate, r.endDate - r.startDate, DayMs);
  }

  // ---------------------------------------------------------------------
  // The return dialog

  /** returnData: the closing odometer reading, fuel level and fees. */
  datatype ReturnForm = ReturnForm(mileageEnd: int, fuelLevelEnd: real, lateFees: real, damageFees: real)

  const InitialReturnForm: ReturnForm := ReturnForm(0, 1.0, 0.0, 0.0)

  /** One edit in the dialog: the odometer box is read with parseInt, the
      others with parseFloat. */
  datatype ReturnEdit = SetMileage(mileage: int) | SetFuel(level: real)
                      | SetLateFees(fee: real) | SetDamageFees(fee: real)

  function Edited(f: ReturnForm, e: ReturnEdit): (r: ReturnForm)
    ensures e.SetMileage? ==> r.mileageEnd == e.mileage && r.(mileageEnd := f.mileageEnd) == f
    ensures e.SetFuel? ==> r.fuelLevelEnd == e.level && r.(fuelLevelEnd := f.fuelLevelEnd) == f
    ensures e.SetLateFees? ==> r.lateFees == e.fee && r.(lateFees := f.lateFees) == f
    ensures e.SetDamageFees? ==> r.damageFees == e.fee && r.(damageFees := f.damageFees) == f
  {
    match e
    case SetMileage(m) => f.(mileageEnd := m)
    case SetFuel(x) => f.(fuelLevelEnd := x)
    case SetLateFees(x) => f.(lateFees := x)
    case SetDamageFees(x) => f.(damageFees := x)
  }

  /** After loading, the odometer box starts at the vehicle's current
      reading when that reading is truthy (known and non-zero). */
  function WithVehicleMileage(f: ReturnForm, mileage: Option<int>): (r: ReturnForm)
    ensures mileage.Some? && mileage.value != 0 ==> r == f.(mileageEnd := mileage.value)
    ensures mileage.None? || mileage.value == 0 ==> r == f
  {
    if mileage.Some? && mileage.value != 0 then f.(mileageEnd := mileage.value) else f
  }

  /** A dialog confirmed without touching the odometer box leaves the
      vehicle's odometer where it was: the server applies a reading under
      the same truthiness rule the page used to fill the box in. */
  lemma UntouchedOdometerKept(v: Vehicle)
    ensures Crud.ReturnedVehicle(v, Some(WithVehicleMileage(InitialReturnForm, Some(v.info.mileage)).mileageEnd)).info.mileage
            == v.info.mileage
  {
  }

  /** What the return call is sent: the rental's id and the dialog's form. */
  datatype ReturnRequest = ReturnRequest(rentalId: int, data: ReturnForm)

  /** One press of the confirm button with the form f: the request sent and
      the form left behind.  The request carries f as it stood when the
      press began; the late fee, when there is one, is written into the form
      afterwards and goes out only with a later press. */
  function ReturnAttempt(r: Rental, f: ReturnForm, now: int): (a: (ReturnRequest, ReturnForm))
    ensures a.0 == ReturnRequest(r.rentalId, f)
    ensures now > r.info.endDate ==> a.1 == f.(lateFees := LateFee(r.info.dailyRate, r.info.endDate, now))
    ensures now <= r.info.endDate ==> a.1 == f
  {
    var next := if now > r.info.endDate then f.(lateFees := LateFee(r.info.dailyRate, r.info.endDate, now)) else f;
    (ReturnRequest(r.rentalId, f), next)
  }

  /** A late return sends the late fee only on the second press: the first
      request carries whatever fee the form held, the second the computed
      one, whenever it is made. */
  lemma LateFeeSentOnRetry(r: Rental, f: ReturnForm, now: int, later: int)
    requires now > r.info.endDate
    ensures ReturnAttempt(r, f, now).0.data.lateFees == f.lateFees
    ensures ReturnAttempt(r, ReturnAttempt(r, f, now).1, later).0.data.lateFees
            == LateFee(r.info.dailyRate, r.info.endDate, now)
  {
  }

  /** What a load fetches: the rental, its vehicle's odometer reading when
      the vehicle came along, and its payments. */
  datatype Loaded = Loaded(rental: Rental, vehicleMileage: Option<int>, payments: seq<Payment>)

  const LoadFailed := "Failed to load rental data"
  const ReturnFailed := "Failed to return vehicle. Please try again."

  class Page {
    var rental: Option<Rental>
    var payments: seq<Payment>
    var loading: bool
    var error: Option<string>
    var showReturnModal: bool
    var returnData: ReturnForm
    /** The last alert shown. */
    var alerted: Option<string>
    /** The return requests the page has sent, in order. */
    var sent: seq<ReturnRequest>

    constructor()
      ensures rental.None? && payments == [] && loading && error.None?
      ensures !showReturnModal && returnData == InitialReturnForm && alerted.None? && sent == []
    {
      rental := None;
      payments := [];
      loading := true;
      error := None;
      showReturnModal := false;
      returnData := InitialReturnForm;
      alerted := None;
      sent := [];
    }

    /** The balance shown, once a rental is loaded. */
    function ShownBalance(): (b: Option<int>)
      reads this
      ensures b.Some? <==> rental.Some?
      ensures rental.Some? ==>
                b.value + TotalPaid(payments)
                == rental.value.info.totalAmount + rental.value.info.lateFees + rental.value.info.damageFees
    {
      match rental
      case Some(r) => Some(Balance(r.info, payments))
      case None => None
    }

    /** fetchRentalData, with what the three requests returned as a
        parameter (None when one of them failed).  A failure keeps what was
        shown before and sets the error; the odometer box is filled in only
        from a truthy reading, the rest of the form kept. */
    method FetchRentalData(loaded: Option<Loaded>)
      modifies this`rental, this`payments, this`loading, this`error, this`returnData
      ensures !loading
      ensures loaded.None? ==>
        error == Some(LoadFailed) && rental == old(rental) && payments == old(payments)
        && returnData == old(returnData)
      ensures loaded.Some? ==>
        && error.None? && rental == Some(loaded.value.rental) && payments == loaded.value.payments
        && returnData == WithVehicleMileage(old(returnData), loaded.value.vehicleMileage)
    {
      loading := true;
      error := None;
      match loaded {
        case None =>
          error := Some(LoadFailed);
        case Some(data) =>
          rental := Some(data.rental);
          payments := data.payments;
          returnData := WithVehicleMileage(returnData, data.vehicleMileage);
      }
      loading := false;
    }

    /** The Return Vehicle button, offered for active rentals only, and only
        on the page drawn once loading is over without an error. */
    method OpenReturnModal()
      requires !loading && error.None?
      modifies this`showReturnModal
      ensures rental.Some? && rental.value.info.status == "Active" ==> showReturnModal
      ensures !(rental.Some? && rental.value.info.status == "Active") ==> showReturnModal == old(showReturnModal)
    {
      if rental.Some? && rental.value.info.status == "Active" {
        showReturnModal := true;
      }
    }

    /** One of the dialog's inputs changed. */
    method EditReturnData(e: ReturnEdit)
      modifies this`returnData
      ensures returnData == Edited(old(returnData), e)
    {
      returnData := Edited(returnData, e);
    }

    /** handleReturnVehicle at instant now, with the outcome of the return
        call (None when it succeeded) and what the reload then fetched.  The
        request carries the form as it was when the press began.  The button
        is drawn only inside the open dialog, on the loaded page without an
        error, and is disabled while loading. */
    method HandleReturnVehicle(now: int, outcome: Option<ApiFailure>, reloaded: Option<Loaded>)
      requires showReturnModal && !loading && error.None?
      modifies this`rental, this`payments, this`loading, this`error, this`returnData
      modifies this`showReturnModal, this`alerted, this`sent
      ensures old(rental).None? ==>
        && rental == old(rental) && payments == old(payments) && loading == old(loading)
        && error == old(error) && returnData == old(returnData) && showReturnModal == old(showReturnModal)
        && alerted == old(alerted) && sent == old(sent)
      ensures old(rental).Some? ==>
        var attempt := ReturnAttempt(old(rental).value, old(returnData), now);
        && sent == old(sent) + [attempt.0] && !loading
        && (outcome.Some? ==>
              && alerted == Some(ReturnFailed) && returnData == attempt.1
              && rental == old(rental) && payments == old(payments) && error == old(error)
              && showReturnModal == old(showReturnModal))
        && (outcome.None? ==>
              && alerted == old(alerted) && !showReturnModal
              && (reloaded.None? ==>
                    error == Some(LoadFailed) && rental == old(rental) && payments == old(payments)
                    && returnData == attempt.1)
              && (reloaded.Some? ==>
                    && error.None? && rental == Some(reloaded.value.rental)
                    && payments == reloaded.value.payments
                    && returnData == WithVehicleMileage(attempt.1, reloaded.value.vehicleMileage)))
    {
      if rental.None? {
        return;
      }
      var r := rental.value;
      var captured := returnData;
      if now > r.info.endDate {
        returnData := returnData.(lateFees := LateFee(r.info.dailyRate, r.info.endDate, now));
      }
      loading := true;
      sent := sent + [ReturnRequest(r.rentalId, captured)];
      if outcome.None? {
        showReturnModal := false;
        FetchRentalData(reloaded);
      } else {
        alerted := Some(ReturnFailed);
      }
      loading := false;
    }
  }
}
