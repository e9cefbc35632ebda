/** The payment form: choosing a booking copies its client, service and
    currency; choosing a service sets the manual type; submission checks the
    amount, the client and the service type in that order and builds the
    payload. */
module PaymentCreate {
  import opened Common
  import opened Services

  /** A booking as the booking list offers it to this form. */
  datatype BookingSummary = BookingSummary(oid: string, clientId: Ref, serviceCode: string, serviceType: string, priceCurrency: string)

  datatype PaymentForm = PaymentForm(
    clientId: string,
    bookingId: string,
    serviceCode: string,
    manualServiceType: string,
    kind: string,
    amount: NumField,
    payMethod: string,
    description: string,
    priceCurrency: string,
    date: string)

  datatype PaymentPayload = PaymentPayload(
    clientId: string,
    bookingId: Option<string>,
    kind: string,
    amount: real,
    payMethod: string,
    description: string,
    date: string,
    serviceCode: Option<string>,
    serviceType: string,
    priceCurrency: string)

  datatype PaymentChecked = PaymentAccepted(payload: PaymentPayload) | PaymentRejected(message: string)

  const MSG_AMOUNT: string := "Amount must be provided as a number."
  const MSG_CLIENT: string := "Select a client for the payment."
  const MSG_SERVICE_TYPE: string := "Select the service type."
  const MSG_CREATE_FAILED: string := "Failed to create payment."

  /** The form as the page first shows it; `today` is the current date, read from the clock. */
  function InitialPaymentForm(today: string): (f: PaymentForm)
    ensures f.serviceCode == CUSTOM_SERVICE_CODE && f.manualServiceType == SERVICE && f.kind == "income"
    ensures f.amount == Blank && f.priceCurrency == DEFAULT_CURRENCY && f.date == today
    ensures f.clientId == "" && f.bookingId == ""
  {
    PaymentForm("", "", CUSTOM_SERVICE_CODE, SERVICE, "income", Blank, "", "", DEFAULT_CURRENCY, today)
  }

  /** The catalogue entry behind the code; only the custom code has none. */
  function PaymentServiceDef(cat: Catalog, code: string): (d: Option<ServiceDef>)
    ensures code == CUSTOM_SERVICE_CODE ==> d.None?
    ensures code != CUSTOM_SERVICE_CODE ==> d == FindServiceByCode(cat, code)
  {
    if code == CUSTOM_SERVICE_CODE then None else FindServiceByCode(cat, code)
  }

  /** `serviceType`: the catalogue category, else the manual type. */
  function PaymentServiceType(cat: Catalog, f: PaymentForm): (t: string)
    ensures var d := PaymentServiceDef(cat, f.serviceCode);
            if d.Some? && d.value.category != "" then t == d.value.category else t == f.manualServiceType
  {
    CategoryOr(PaymentServiceDef(cat, f.serviceCode), f.manualServiceType)
  }

  /** The first booking with that id, if any. */
  function FindBooking(bookings: seq<BookingSummary>, id: string): Option<BookingSummary>
  {
    FindFirst(bookings, (b: BookingSummary) => b.oid, id)
  }

  /** `handleBookingChange`: the booking id is always taken; a known booking
      also supplies the client, the service and the currency. */
  function BookingChosen(cat: Catalog, bookings: seq<BookingSummary>, f: PaymentForm, id: string): (r: PaymentForm)
    ensures r.bookingId == id
    ensures id == "" || FindBooking(bookings, id).None? ==> r == f.(bookingId := id)
    ensures id != "" && FindBooking(bookings, id).Some? ==>
              var b := FindBooking(bookings, id).value;
              r.clientId == RefId(b.clientId)
              && r.priceCurrency == LoadedCurrency(b.priceCurrency)
              && (b.serviceCode != "" && b.serviceCode in cat ==>
                    r.serviceCode == b.serviceCode
                    && r.manualServiceType == (if b.serviceType != "" then b.serviceType
                                               else if ServiceCategory(cat, b.serviceCode) != "" then ServiceCategory(cat, b.serviceCode)
                                               else SERVICE))
              && (b.serviceCode == "" || b.serviceCode !in cat ==>
                    r.serviceCode == CUSTOM_SERVICE_CODE
                    && r.manualServiceType == (if b.serviceType != "" then b.serviceType else SERVICE))
    ensures r.kind == f.kind && r.amount == f.amount && r.payMethod == f.payMethod
            && r.description == f.description && r.date == f.date
  {
    var g := f.(bookingId := id);
    if id == "" then g
    else match FindBooking(bookings, id)
      case None => g
      case Some(b) =>
        var g1 := g.(clientId := RefId(b.clientId));
        var g2 :=
          if b.serviceCode != "" && FindServiceByCode(cat, b.serviceCode).Some? then
            g1.(serviceCode := b.serviceCode,
                manualServiceType := if b.serviceType != "" then b.serviceType
                                     else if ServiceCategory(cat, b.serviceCode) != "" then ServiceCategory(cat, b.serviceCode)
                                     else SERVICE)
          else
            g1.(serviceCode := CUSTOM_SERVICE_CODE, manualServiceType := if b.serviceType != "" then b.serviceType else SERVICE);
        g2.(priceCurrency := LoadedCurrency(b.priceCurrency))
  }

  /** `handleServiceChange`: the custom code resets the manual type to
      "service"; a code with a category makes that the manual type. */
  function PaymentServiceChanged(cat: Catalog, f: PaymentForm, code: string): (r: PaymentForm)
    ensures r.serviceCode == code
    ensures code == CUSTOM_SERVICE_CODE ==> r.manualServiceType == SERVICE
    ensures code != CUSTOM_SERVICE_CODE && ServiceCategory(cat, code) != "" ==> r.manualServiceType == ServiceCategory(cat, code)
    ensures code != CUSTOM_SERVICE_CODE && ServiceCategory(cat, code) == "" ==> r.manualServiceType == f.manualServiceType
    ensures r.(serviceCode := f.serviceCode, manualServiceType := f.manualServiceType) == f
  {
    var g := f.(serviceCode := code);
    if code == CUSTOM_SERVICE_CODE then g.(manualServiceType := SERVICE)
    else
      var derived := ServiceCategory(cat, code);
      if derived != "" then g.(manualServiceType := derived) else g
  }

  /** After a service change the derived type is never empty when the
      previous manual type was not: the chosen category or a kept type. */
  lemma ServiceChangeKeepsAType(cat: Catalog, f: PaymentForm, code: string)
    requires f.manualServiceType != ""
    ensures PaymentServiceType(cat, PaymentServiceChanged(cat, f, code)) != ""
  {
  }

  /** Every check the form fails, in the page's order. */
  function AllPaymentFailures(cat: Catalog, f: PaymentForm): seq<string>
  {
    (if !f.amount.Num? then [MSG_AMOUNT] else [])
    + (if f.clientId == "" then [MSG_CLIENT] else [])
    + (if PaymentServiceType(cat, f) == "" then [MSG_SERVICE_TYPE] else [])
  }

  /** The checks of `handleSubmit`, first failure first, then the payload. */
  function CheckPayment(cat: Catalog, f: PaymentForm): (r: PaymentChecked)
    ensures r.PaymentRejected? <==> AllPaymentFailures(cat, f) != []
    ensures r.PaymentRejected? ==> r.message == AllPaymentFailures(cat, f)[0]
  {
    var t := PaymentServiceType(cat, f);
    if !f.amount.Num? then PaymentRejected(MSG_AMOUNT)
    else if f.clientId == "" then PaymentRejected(MSG_CLIENT)
    else if t == "" then PaymentRejected(MSG_SERVICE_TYPE)
    else PaymentAccepted(PaymentPayload(
      f.clientId,
      if f.bookingId != "" then Some(f.bookingId) else None,
      f.kind,
      f.amount.v,
      f.payMethod,
      f.description,
      f.date,
      PayloadServiceCode(PaymentServiceDef(cat, f.serviceCode)),
      t,
      SubmittedCurrency(f.priceCurrency)))
  }

  /** An accepted form's payload: the form's fields, the booking only when
      one is chosen, the resolved service and the normalised currency. */
  lemma AcceptedPaymentPayload(cat: Catalog, f: PaymentForm)
    requires CheckPayment(cat, f).PaymentAccepted?
    ensures var p := CheckPayment(cat, f).payload;
              p.clientId == f.clientId && p.clientId != ""
              && (p.bookingId.None? <==> f.bookingId == "")
              && (p.bookingId.Some? ==> p.bookingId.value == f.bookingId)
              && p.amount == f.amount.v && p.kind == f.kind
              && p.payMethod == f.payMethod && p.description == f.description && p.date == f.date
              && p.serviceCode == PayloadServiceCode(PaymentServiceDef(cat, f.serviceCode))
              && p.serviceType == PaymentServiceType(cat, f) && p.serviceType != ""
              && p.priceCurrency == SubmittedCurrency(f.priceCurrency)
  {
  }

  /** Choosing a booking with a catalogue service and then entering an
      amount gives a payload tied to that booking, its client and its service. */
  lemma ChosenBookingCarriesThrough(cat: Catalog, bookings: seq<BookingSummary>, f: PaymentForm, id: string, amount: real)
    requires id != "" && FindBooking(bookings, id).Some?
    requires var b := FindBooking(bookings, id).value;
             RefId(b.clientId) != "" && b.serviceCode in cat && cat[b.serviceCode].code == b.serviceCode
             && b.serviceCode != "" && b.serviceCode != CUSTOM_SERVICE_CODE
    requires f.manualServiceType != ""
    ensures var b := FindBooking(bookings, id).value;
            var c := CheckPayment(cat, BookingChosen(cat, bookings, f, id).(amount := Num(amount)));
            c.PaymentAccepted?
            && c.payload.clientId == RefId(b.clientId)
            && c.payload.bookingId == Some(id)
            && c.payload.serviceCode == Some(b.serviceCode)
            && c.payload.amount == amount
            && c.payload.priceCurrency == SubmittedCurrency(LoadedCurrency(b.priceCurrency))
  {
    var b := FindBooking(bookings, id).value;
    var g := BookingChosen(cat, bookings, f, id).(amount := Num(amount));
    assert g.serviceCode == b.serviceCode;
    assert PaymentServiceDef(cat, g.serviceCode) == Some(cat[b.serviceCode]);
    assert g.manualServiceType != "";
    assert PaymentServiceType(cat, g) != "";
    AcceptedPaymentPayload(cat, g);
  }

  class PaymentCreatePage {
    var form: PaymentForm
    /** The bookings offered in the booking select. */
    var bookings: seq<BookingSummary>
    var error: string
    var sent: seq<PaymentPayload>
    var navigated: bool

    constructor (today: string)
      ensures form == InitialPaymentForm(today) && bookings == [] && error == "" && sent == [] && !navigated
    {
      form := InitialPaymentForm(today);
      bookings := [];
      error := "";
      sent := [];
      navigated := false;
    }

    /** The booking list arrived (an empty list when it could not be fetched). */
    method BookingsLoaded(list: seq<BookingSummary>)
      modifies this
      ensures bookings == list
      ensures form == old(form) && error == old(error) && sent == old(sent) && navigated == old(navigated)
    {
      bookings := list;
    }

    method HandleBookingChange(cat: Catalog, id: string)
      modifies this
      ensures form == BookingChosen(cat, old(bookings), old(form), id)
      ensures bookings == old(bookings) && error == old(error) && sent == old(sent) && navigated == old(navigated)
    {
      form := BookingChosen(cat, bookings, form, id);
    }

    method HandleServiceChange(cat: Catalog, code: string)
      modifies this
      ensures form == PaymentServiceChanged(cat, old(form), code)
      ensures bookings == old(bookings) && error == old(error) && sent == old(sent) && navigated == old(navigated)
    {
      form := PaymentServiceChanged(cat, form, code);
    }

    /** The form is submitted; `api` is how the create call ends when it is made. */
    method HandleSubmit(cat: Catalog, api: ApiOutcome)
      modifies this
      ensures form == old(form) && bookings == old(bookings)
      ensures var c := CheckPayment(cat, old(form));
              if c.PaymentRejected? then error == c.message && sent == old(sent) && navigated == old(navigated)
              else sent == old(sent) + [c.payload]
                   && (api.Succeeded? ==> error == "" && navigated)
                   && (api.FailedWith? ==> error == FailureMessage(api, MSG_CREATE_FAILED) && navigated == old(navigated))
    {
      var c := CheckPayment(cat, form);
      error := "";
      if c.PaymentRejected? {
        error := c.message;
        return;
      }
      sent := sent + [c.payload];
      if api.Succeeded? {
        navigated := true;
      } else {
        error := FailureMessage(api, MSG_CREATE_FAILED);
      }
    }
  }
}
