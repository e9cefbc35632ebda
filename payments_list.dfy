/** The payments overview: booking summaries filtered by a search query,
    split into outstanding and settled, with the outstanding total and the
    currency to show it in; and the card of one summary, where a payment can
    be added or an existing one edited. */
module PaymentsList {
  import opened Common

  /** One recorded payment. `amount` is None when the record has none. */
  datatype PaymentEntry = PaymentEntry(oid: string, kind: string, amount: Option<real>, payMethod: string, description: string)

  /** The payment summary of one booking. `balanceDue` is None when it is not a number. */
  datatype Summary = Summary(
    bookingId: string,
    clientName: string,
    serviceName: string,
    balanceDue: Option<real>,
    priceCurrency: string,
    paymentStatus: string,
    payments: seq<PaymentEntry>)

  const PAID: string := "paid"
  const MSG_BAD_AMOUNT: string := "Enter a valid payment amount greater than zero."
  const MSG_ADD_FAILED: string := "Failed to record payment."
  const MSG_EDIT_FAILED: string := "Failed to update payment."

  // ---------------------------------------------------------------------------
  // The list

  /** The text the search box is matched against: client name, a space, service name. */
  function SummaryText(s: Summary): string
  {
    s.clientName + " " + s.serviceName
  }

  /** The `filtered` memo: everything for an empty query, otherwise the
      summaries whose text contains the query, ignoring case, in their order. */
  function FilterSummaries(items: seq<Summary>, query: string): (r: seq<Summary>)
    ensures query == "" ==> r == items
    ensures query != "" ==> forall i :: 0 <= i < |r| ==> r[i] in items && MatchesQuery(SummaryText(r[i]), query)
    ensures query != "" ==> forall i :: 0 <= i < |items| && MatchesQuery(SummaryText(items[i]), query) ==> items[i] in r
    ensures |r| <= |items|
  {
    if query == "" then items else Filter(items, (s: Summary) => MatchesQuery(SummaryText(s), query))
  }

  /** The summaries not yet paid, in their order. */
  function Outstanding(s: seq<Summary>): (r: seq<Summary>)
    ensures forall i :: 0 <= i < |r| ==> r[i] in s && r[i].paymentStatus != PAID
    ensures forall i :: 0 <= i < |s| && s[i].paymentStatus != PAID ==> s[i] in r
  {
    Filter(s, (x: Summary) => x.paymentStatus != PAID)
  }

  /** The paid summaries, in their order. */
  function Settled(s: seq<Summary>): (r: seq<Summary>)
    ensures forall i :: 0 <= i < |r| ==> r[i] in s && r[i].paymentStatus == PAID
    ensures forall i :: 0 <= i < |s| && s[i].paymentStatus == PAID ==> s[i] in r
  {
    Filter(s, (x: Summary) => x.paymentStatus == PAID)
  }

  /** Every filtered summary is outstanding or settled, never both, and
      exactly the 'paid' ones are settled. */
  lemma PartitionByStatus(s: seq<Summary>)
    ensures multiset(Outstanding(s)) + multiset(Settled(s)) == multiset(s)
    ensures |Outstanding(s)| + |Settled(s)| == |s|
    ensures forall i :: 0 <= i < |Settled(s)| ==> Settled(s)[i].paymentStatus == PAID
    ensures forall i :: 0 <= i < |Outstanding(s)| ==> Outstanding(s)[i].paymentStatus != PAID
  {
    FilterPartition(s, (x: Summary) => x.paymentStatus != PAID, (x: Summary) => x.paymentStatus == PAID);
  }

  /** The sum of the balances due, an unreadable balance counting as 0;
      with no negative balance it is not negative. */
  function BalanceTotal(s: seq<Summary>): (r: real)
    ensures (forall x :: x in s ==> AmountOr0(x.balanceDue) >= 0.0) ==> r >= 0.0
  {
    if s == [] then 0.0 else AmountOr0(s[0].balanceDue) + BalanceTotal(s[1..])
  }

  /** The outstanding total shown at the top of the list: paid summaries
      do not contribute, so a list of paid summaries totals 0. */
  function OutstandingTotal(filtered: seq<Summary>): (r: real)
    ensures (forall i :: 0 <= i < |filtered| ==> filtered[i].paymentStatus == PAID) ==> r == 0.0
  {
    BalanceTotal(Outstanding(filtered))
  }

  /** Outstanding and settled balances add up to the balance of the whole filtered list. */
  lemma {:induction false} TotalsSplit(s: seq<Summary>)
    ensures OutstandingTotal(s) + BalanceTotal(Settled(s)) == BalanceTotal(s)
  {
    if s != [] {
      TotalsSplit(s[1..]);
    }
  }

  /** With no negative balances the outstanding total is never negative. */
  lemma {:induction false} OutstandingTotalNonNegative(s: seq<Summary>)
    requires forall i :: 0 <= i < |s| ==> AmountOr0(s[i].balanceDue) >= 0.0
    ensures OutstandingTotal(s) >= 0.0
  {
  }

  /** The currency of the totals: the first outstanding summary's, else the first settled one's, else USD. */
  function DefaultCurrency(outstanding: seq<Summary>, settled: seq<Summary>): (c: string)
    ensures c != ""
    ensures outstanding != [] && outstanding[0].priceCurrency != "" ==> c == outstanding[0].priceCurrency
    ensures (outstanding == [] || outstanding[0].priceCurrency == "") && settled != [] && settled[0].priceCurrency != "" ==>
              c == settled[0].priceCurrency
    ensures (outstanding == [] || outstanding[0].priceCurrency == "") && (settled == [] || settled[0].priceCurrency == "") ==>
              c == DEFAULT_CURRENCY
  {
    if outstanding != [] && outstanding[0].priceCurrency != "" then outstanding[0].priceCurrency
    else if settled != [] && settled[0].priceCurrency != "" then settled[0].priceCurrency
    else DEFAULT_CURRENCY
  }

  /** The amount shown in the history: an expense as minus its magnitude
      (a missing amount as 0), anything else as recorded. */
  function SignedAmount(p: PaymentEntry): (a: Option<real>)
    ensures p.kind == "expense" ==> a.Some? && a.value <= 0.0
    ensures p.kind == "expense" ==> a.value == -AmountOr0(p.amount) || a.value == AmountOr0(p.amount)
    ensures p.kind != "expense" ==> a == p.amount
  {
    if p.kind == "expense" then
      var m := AmountOr0(p.amount);
      Some(if m < 0.0 then m else -m)
    else p.amount
  }

  /** An expense and its negated twin are shown the same way. */
  lemma ExpenseSignIgnored(p: PaymentEntry, v: real)
    requires p.kind == "expense"
    ensures SignedAmount(p.(amount := Some(v))) == SignedAmount(p.(amount := Some(-v)))
  {
  }

  // ---------------------------------------------------------------------------
  // The card

  /** A payment amount field is accepted when it reads as a finite number above zero. */
  function PositiveAmount(f: NumField): (a: Option<real>)
    ensures a.Some? <==> f.Num? && f.v > 0.0
    ensures a.Some? ==> a.value == f.v && a.value > 0.0
  {
    if f.Num? && f.v > 0.0 then Some(f.v) else None
  }

  /** An optional text: an empty one is left out. */
  function NonEmpty(s: string): (o: Option<string>)
    ensures o.None? <==> s == ""
    ensures o.Some? ==> o.value == s
  {
    if s == "" then None else Some(s)
  }

  /** The amount a payment's edit field starts with: the stored amount, or blank when there is none. */
  function AmountField(a: Option<real>): (f: NumField)
    ensures a.None? ==> f == Blank
    ensures a.Some? ==> f == Num(a.value)
  {
    if a.Some? then Num(a.value) else Blank
  }

  datatype NewPayment = NewPayment(bookingId: string, kind: string, amount: real, payMethod: Option<string>,
                                   description: Option<string>, priceCurrency: string)
  datatype PaymentUpdate = PaymentUpdate(paymentId: string, amount: real, payMethod: Option<string>, description: Option<string>)

  class PaymentCard {
    const item: Summary
    var expanded: bool
    var addAmount: NumField
    var addMethod: string
    var addDescription: string
    var addError: string
    var addSaving: bool
    /** The payment being edited, "" for none. */
    var editingPaymentId: string
    var editAmount: NumField
    var editMethod: string
    var editDescription: string
    var editError: string
    var editSaving: bool
    /** Requests made by the card, oldest first, and how often it asked the list to refresh. */
    var created: seq<NewPayment>
    var updated: seq<PaymentUpdate>
    var refreshes: nat

    constructor (s: Summary)
      ensures item == s && !expanded
      ensures addAmount == Blank && addMethod == "" && addDescription == "" && addError == "" && !addSaving
      ensures editingPaymentId == "" && editAmount == Blank && editMethod == "" && editDescription == "" && editError == "" && !editSaving
      ensures created == [] && updated == [] && refreshes == 0
    {
      item := s;
      expanded := false;
      addAmount, addMethod, addDescription, addError, addSaving := Blank, "", "", "", false;
      editingPaymentId, editAmount, editMethod, editDescription, editError, editSaving := "", Blank, "", "", "", false;
      created, updated, refreshes := [], [], 0;
    }

    /** Clears the add form's four fields, nothing else. */
    method ResetAddForm()
      modifies this
      ensures addAmount == Blank && addMethod == "" && addDescription == "" && addError == ""
      ensures expanded == old(expanded) && addSaving == old(addSaving)
      ensures editingPaymentId == old(editingPaymentId) && editAmount == old(editAmount) && editMethod == old(editMethod)
      ensures editDescription == old(editDescription) && editError == old(editError) && editSaving == old(editSaving)
      ensures created == old(created) && updated == old(updated) && refreshes == old(refreshes)
    {
      addAmount, addMethod, addDescription, addError := Blank, "", "", "";
    }

    /** Clears the edit form's five fields, nothing else. */
    method ResetEditForm()
      modifies this
      ensures editingPaymentId == "" && editAmount == Blank && editMethod == "" && editDescription == "" && editError == ""
      ensures expanded == old(expanded) && editSaving == old(editSaving)
      ensures addAmount == old(addAmount) && addMethod == old(addMethod) && addDescription == old(addDescription)
      ensures addError == old(addError) && addSaving == old(addSaving)
      ensures created == old(created) && updated == old(updated) && refreshes == old(refreshes)
    {
      editingPaymentId, editAmount, editMethod, editDescription, editError := "", Blank, "", "", "";
    }

    /** The expand button: collapsing runs both resets. */
    method ToggleExpanded()
      modifies this
      ensures expanded == !old(expanded)
      ensures !expanded ==> addAmount == Blank && addMethod == "" && addDescription == "" && addError == ""
                            && editingPaymentId == "" && editAmount == Blank && editMethod == "" && editDescription == "" && editError == ""
      ensures expanded ==> addAmount == old(addAmount) && addMethod == old(addMethod) && addDescription == old(addDescription)
                           && addError == old(addError) && editingPaymentId == old(editingPaymentId) && editAmount == old(editAmount)
                           && editMethod == old(editMethod) && editDescription == old(editDescription) && editError == old(editError)
      ensures addSaving == old(addSaving) && editSaving == old(editSaving)
      ensures created == old(created) && updated == old(updated) && refreshes == old(refreshes)
    {
      expanded := !expanded;
      if !expanded {
        ResetAddForm();
        ResetEditForm();
      }
    }

    /** A payment in the history was clicked: load it into the edit form. */
    method HandlePaymentClick(p: PaymentEntry)
      modifies this
      ensures editingPaymentId == p.oid && editAmount == AmountField(p.amount)
      ensures editMethod == p.payMethod && editDescription == p.description && editError == ""
      ensures expanded == old(expanded) && editSaving == old(editSaving)
      ensures addAmount == old(addAmount) && addMethod == old(addMethod) && addDescription == old(addDescription)
      ensures addError == old(addError) && addSaving == old(addSaving)
      ensures created == old(created) && updated == old(updated) && refreshes == old(refreshes)
    {
      editingPaymentId, editAmount, editMethod, editDescription, editError := p.oid, AmountField(p.amount), p.payMethod, p.description, "";
    }

    /** The add form is submitted; `api` is how the create call ends when it is made. */
    method HandleAddPayment(api: ApiOutcome)
      modifies this
      ensures PositiveAmount(old(addAmount)).None? ==>
                addError == MSG_BAD_AMOUNT && created == old(created) && refreshes == old(refreshes)
                && expanded == old(expanded) && addAmount == old(addAmount) && addMethod == old(addMethod)
                && addDescription == old(addDescription) && addSaving == old(addSaving)
      ensures PositiveAmount(old(addAmount)).Some? ==>
                created == old(created) + [NewPayment(item.bookingId, "income", old(addAmount).v, NonEmpty(old(addMethod)),
                                                      NonEmpty(old(addDescription)), item.priceCurrency)]
                && !addSaving
      ensures PositiveAmount(old(addAmount)).Some? && api.Succeeded? ==>
                addAmount == Blank && addMethod == "" && addDescription == "" && addError == ""
                && !expanded && refreshes == old(refreshes) + 1
      ensures PositiveAmount(old(addAmount)).Some? && api.FailedWith? ==>
                addError == FailureMessage(api, MSG_ADD_FAILED) && expanded == old(expanded) && refreshes == old(refreshes)
                && addAmount == old(addAmount) && addMethod == old(addMethod) && addDescription == old(addDescription)
      ensures updated == old(updated)
      ensures editingPaymentId == old(editingPaymentId) && editAmount == old(editAmount) && editMethod == old(editMethod)
      ensures editDescription == old(editDescription) && editError == old(editError) && editSaving == old(editSaving)
    {
      var amount := PositiveAmount(addAmount);
      if amount.None? {
        addError := MSG_BAD_AMOUNT;
        return;
      }
      SendNewPayment(NewPayment(item.bookingId, "income", amount.value, NonEmpty(addMethod), NonEmpty(addDescription), item.priceCurrency), api);
    }

    /** The create request for a checked payment, from raising the saving
        flag until it is lowered again when the request settles. */
    method SendNewPayment(payment: NewPayment, api: ApiOutcome)
      modifies this
      ensures created == old(created) + [payment] && !addSaving
      ensures api.Succeeded? ==>
                addAmount == Blank && addMethod == "" && addDescription == "" && addError == ""
                && !expanded && refreshes == old(refreshes) + 1
      ensures api.FailedWith? ==>
                addError == FailureMessage(api, MSG_ADD_FAILED) && expanded == old(expanded) && refreshes == old(refreshes)
                && addAmount == old(addAmount) && addMethod == old(addMethod) && addDescription == old(addDescription)
      ensures updated == old(updated)
      ensures editingPaymentId == old(editingPaymentId) && editAmount == old(editAmount) && editMethod == old(editMethod)
      ensures editDescription == old(editDescription) && editError == old(editError) && editSaving == old(editSaving)
    {
      addSaving := true;
      addError := "";
      created := created + [payment];
      if api.Succeeded? {
        ResetAddForm();
        expanded := false;
        refreshes := refreshes + 1;
      } else {
        addError := FailureMessage(api, MSG_ADD_FAILED);
      }
      addSaving := false;
    }

    /** The edit form is submitted. A bad amount is reported first; without a
        payment being edited nothing else happens. */
    method HandleEditSubmit(api: ApiOutcome)
      modifies this
      ensures PositiveAmount(old(editAmount)).None? ==>
                editError == MSG_BAD_AMOUNT && updated == old(updated) && refreshes == old(refreshes)
                && editingPaymentId == old(editingPaymentId) && editAmount == old(editAmount)
                && editMethod == old(editMethod) && editDescription == old(editDescription) && editSaving == old(editSaving)
      ensures PositiveAmount(old(editAmount)).Some? && old(editingPaymentId) == "" ==>
                editError == old(editError) && updated == old(updated) && refreshes == old(refreshes) && editingPaymentId == ""
                && editAmount == old(editAmount) && editMethod == old(editMethod) && editDescription == old(editDescription)
                && editSaving == old(editSaving)
      ensures PositiveAmount(old(editAmount)).Some? && old(editingPaymentId) != "" ==>
                updated == old(updated) + [PaymentUpdate(old(editingPaymentId), old(editAmount).v, NonEmpty(old(editMethod)),
                                                         NonEmpty(old(editDescription)))]
                && !editSaving
      ensures PositiveAmount(old(editAmount)).Some? && old(editingPaymentId) != "" && api.Succeeded? ==>
                editingPaymentId == "" && editAmount == Blank && editMethod == "" && editDescription == "" && editError == ""
                && refreshes == old(refreshes) + 1
      ensures PositiveAmount(old(editAmount)).Some? && old(editingPaymentId) != "" && api.FailedWith? ==>
                editError == FailureMessage(api, MSG_EDIT_FAILED) && editingPaymentId == old(editingPaymentId)
                && editAmount == old(editAmount) && editMethod == old(editMethod) && editDescription == old(editDescription)
                && refreshes == old(refreshes)
      ensures created == old(created) && expanded == old(expanded)
      ensures addAmount == old(addAmount) && addMethod == old(addMethod) && addDescription == old(addDescription)
      ensures addError == old(addError) && addSaving == old(addSaving)
    {
      var amount := PositiveAmount(editAmount);
      if amount.None? {
        editError := MSG_BAD_AMOUNT;
        return;
      }
      if editingPaymentId == "" {
        return;
      }
      SendPaymentUpdate(PaymentUpdate(editingPaymentId, amount.value, NonEmpty(editMethod), NonEmpty(editDescription)), api);
    }

    /** The update request for the payment being edited, from raising the
        saving flag until it is lowered again when the request settles. */
    method SendPaymentUpdate(update: PaymentUpdate, api: ApiOutcome)
      modifies this
      ensures updated == old(updated) + [update] && !editSaving
      ensures api.Succeeded? ==>
                editingPaymentId == "" && editAmount == Blank && editMethod == "" && editDescription == "" && editError == ""
                && refreshes == old(refreshes) + 1
      ensures api.FailedWith? ==>
                editError == FailureMessage(api, MSG_EDIT_FAILED) && editingPaymentId == old(editingPaymentId)
                && editAmount == old(editAmount) && editMethod == old(editMethod) && editDescription == old(editDescription)
                && refreshes == old(refreshes)
      ensures created == old(created) && expanded == old(expanded)
      ensures addAmount == old(addAmount) && addMethod == old(addMethod) && addDescription == old(addDescription)
      ensures addError == old(addError) && addSaving == old(addSaving)
    {
      editSaving := true;
      editError := "";
      updated := updated + [update];
      if api.Succeeded? {
        ResetEditForm();
        refreshes := refreshes + 1;
      } else {
        editError := FailureMessage(api, MSG_EDIT_FAILED);
      }
      editSaving := false;
    }
  }
}
