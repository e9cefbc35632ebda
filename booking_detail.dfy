/** The booking page: what has been paid towards one booking, what remains,
    and the form that collects a further payment. */
module BookingDetail {
  import opened Common

  /** A payment filed under the booking; `amount` is None when it is not a number. */
  datatype BookingPayment = BookingPayment(kind: string, amount: Option<real>)

  /** The booking as the page shows it. `totalFee` is None when missing. */
  datatype BookingInfo = BookingInfo(oid: string, client: Ref, totalFee: Option<real>)

  const INCOME: string := "income"
  const MSG_COLLECT_FAILED: string := "Failed to collect payment"

  predicate IsIncome(p: BookingPayment)
  {
    p.kind == INCOME
  }

  /** The running sum of a payment list's amounts, 0 for one that is not a number. */
  function AmountSum(payments: seq<BookingPayment>): real
  {
    if payments == [] then 0.0 else AmountOr0(payments[0].amount) + AmountSum(payments[1..])
  }

  /** The paid total, in one pass; it equals the sum over the income
      payments that the page first filters out. */
  function PaidTotal(payments: seq<BookingPayment>): (r: real)
    ensures r == AmountSum(Filter(payments, IsIncome))
  {
    if payments == [] then 0.0
    else (if payments[0].kind == INCOME then AmountOr0(payments[0].amount) else 0.0) + PaidTotal(payments[1..])
  }

  /** The paid total of a concatenation is the sum of the parts' totals. */
  lemma {:induction false} PaidTotalAppend(a: seq<BookingPayment>, b: seq<BookingPayment>)
    ensures PaidTotal(a + b) == PaidTotal(a) + PaidTotal(b)
  {
    if a != [] {
      assert (a + b)[1..] == a[1..] + b;
      PaidTotalAppend(a[1..], b);
    } else {
      assert a + b == b;
    }
  }

  /** Payments that are not income leave the paid total as it was. */
  lemma {:induction false} PaidTotalIgnoresOtherKinds(payments: seq<BookingPayment>, other: seq<BookingPayment>)
    requires forall i :: 0 <= i < |other| ==> other[i].kind != INCOME
    ensures PaidTotal(payments + other) == PaidTotal(payments)
  {
    PaidTotalAppend(payments, other);
    NoIncomeNoTotal(other);
  }

  lemma {:induction false} NoIncomeNoTotal(s: seq<BookingPayment>)
    requires forall i :: 0 <= i < |s| ==> s[i].kind != INCOME
    ensures PaidTotal(s) == 0.0
  {
    if s != [] {
      NoIncomeNoTotal(s[1..]);
    }
  }

  /** With no negative amounts the paid total is never negative. */
  lemma {:induction false} PaidTotalNonNegative(s: seq<BookingPayment>)
    requires forall i :: 0 <= i < |s| ==> AmountOr0(s[i].amount) >= 0.0
    ensures PaidTotal(s) >= 0.0
  {
    if s != [] {
      PaidTotalNonNegative(s[1..]);
    }
  }

  /** Remaining: the total fee (0 when missing) less what was paid, never below 0. */
  function Remaining(totalFee: Option<real>, paid: real): (r: real)
    ensures r >= 0.0
    ensures paid <= AmountOr0(totalFee) ==> r + paid == AmountOr0(totalFee)
    ensures paid >= AmountOr0(totalFee) ==> r == 0.0
  {
    Max0(AmountOr0(totalFee) - paid)
  }

  /** The payment the collect form sends. `amount` is the field read as a number:
      0 for an empty field, None (NaN) for text that is not a number. */
  datatype Collected = Collected(clientId: string, bookingId: string, kind: string, amount: Option<real>,
                                 payMethod: string, description: string)

  /** The collect form's amount read as a number; it is sent unchecked. */
  function SentAmount(f: NumField): (a: Option<real>)
    ensures f.Blank? ==> a == Some(0.0)
    ensures f.Num? ==> a == Some(f.v)
    ensures f.Invalid? ==> a.None?
  {
    match f
    case Blank => Some(0.0)
    case Num(v) => Some(v)
    case Invalid => None
  }

  class BookingDetailPage {
    /** None until the booking has loaded; the form is shown only after. */
    var booking: Option<BookingInfo>
    var paid: real
    var amount: NumField
    var payMethod: string
    var description: string
    var error: string
    /** Payments the form has sent, oldest first. */
    var sent: seq<Collected>

    constructor ()
      ensures booking.None? && paid == 0.0 && amount == Blank && payMethod == "" && description == "" && error == "" && sent == []
    {
      booking, paid, amount, payMethod, description, error, sent := None, 0.0, Blank, "", "", "", [];
    }

    /** The booking arrived; `payments` is the payment list, None when that request failed. */
    method Load(b: BookingInfo, payments: Option<seq<BookingPayment>>)
      modifies this
      ensures booking == Some(b)
      ensures payments.Some? ==> paid == PaidTotal(payments.value)
      ensures payments.None? ==> paid == old(paid)
      ensures amount == old(amount) && payMethod == old(payMethod) && description == old(description)
      ensures error == old(error) && sent == old(sent)
    {
      booking := Some(b);
      if payments.Some? {
        paid := PaidTotal(payments.value);
      }
    }

    /** The collect form is submitted. The three requests run in order and
        each is given by how it ends: the payment creation, the booking
        reload (None on failure) and the payment list (None on failure). */
    method HandleCollect(create: ApiOutcome, reload: Option<BookingInfo>, payments: Option<seq<BookingPayment>>)
      requires booking.Some?
      modifies this
      ensures sent == old(sent) + [Collected(RefId(old(booking).value.client), old(booking).value.oid, INCOME,
                                             SentAmount(old(amount)), old(payMethod), old(description))]
      ensures create.FailedWith? ==> error == MSG_COLLECT_FAILED && booking == old(booking) && paid == old(paid)
      ensures create.Succeeded? && reload.None? ==> error == MSG_COLLECT_FAILED && booking == old(booking) && paid == old(paid)
      ensures create.Succeeded? && reload.Some? ==> booking == reload
      ensures create.Succeeded? && reload.Some? && payments.None? ==> error == MSG_COLLECT_FAILED && paid == old(paid)
      ensures create.Succeeded? && reload.Some? && payments.Some? ==>
                error == "" && paid == PaidTotal(payments.value) && amount == Blank && payMethod == "" && description == ""
      ensures !(create.Succeeded? && reload.Some? && payments.Some?) ==>
                amount == old(amount) && payMethod == old(payMethod) && description == old(description)
      ensures booking.Some?
    {
      error := "";
      var b := booking.value;
      sent := sent + [Collected(RefId(b.client), b.oid, INCOME, SentAmount(amount), payMethod, description)];
      if create.FailedWith? || reload.None? {
        error := MSG_COLLECT_FAILED;
        return;
      }
      booking := reload;
      if payments.None? {
        error := MSG_COLLECT_FAILED;
        return;
      }
      paid := PaidTotal(payments.value);
      amount, payMethod, description := Blank, "", "";
    }

    /** What the page shows as remaining. */
    function ShownRemaining(): (r: real)
      requires booking.Some?
      reads this
      ensures r >= 0.0
      ensures paid <= AmountOr0(booking.value.totalFee) ==> r + paid == AmountOr0(booking.value.totalFee)
      ensures paid >= AmountOr0(booking.value.totalFee) ==> r == 0.0
    {
      Remaining(booking.value.totalFee, paid)
    }
  }

  /** Collecting an income payment that the reloaded list then contains raises
      the paid total by that payment's amount. */
  lemma CollectedPaymentCounts(before: seq<BookingPayment>, v: real)
    ensures PaidTotal(before + [BookingPayment(INCOME, Some(v))]) == PaidTotal(before) + v
  {
    PaidTotalAppend(before, [BookingPayment(INCOME, Some(v))]);
  }
}
