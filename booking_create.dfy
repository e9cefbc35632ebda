/** The booking form: the service type derived from the chosen service, the
    resets that run when the service or its type changes, the ordered chain
    of checks where the first failure wins, and the payload with its
    type-gated fields. The editing page reuses the form, the chain and the
    payload defined here.

    Date-time fields hold instants in whole minutes (None for an empty
    field); price fields are numeric text fields. */
module BookingCreate {
  import opened Common
  import opened Services

  /** Everything the booking form holds. */
  datatype BookingForm = BookingForm(
    clientId: string,
    serviceCode: string,
    manualServiceType: string,
    startDate: Option<int>,
    endDate: Option<int>,
    fullPrice: NumField,
    discountedPrice: NumField,
    priceCurrency: string,
    priceNotes: string,
    paymentStatus: string,
    roomId: string,
    equipmentId: string,
    classId: string,
    sessionOptions: seq<int>,
    selectedSession: Option<int>,
    availability: Option<bool>)

  /** What the page sends. Absent fields are None. */
  datatype BookingPayload = BookingPayload(
    clientId: string,
    serviceType: string,
    serviceCode: Option<string>,
    startDate: Option<int>,
    endDate: Option<int>,
    roomId: Option<string>,
    equipmentId: Option<string>,
    classId: Option<string>,
    fullPrice: real,
    discountedPrice: Option<real>,
    priceCurrency: string,
    priceNotes: Option<string>,
    paymentStatus: Option<string>)

  /** The outcome of the checks: a payload to send, or the message to show. */
  datatype Checked = Accepted(payload: BookingPayload) | Rejected(message: string)

  const MSG_CLIENT: string := "Please select a client."
  const MSG_SERVICE: string := "Please select a service."
  const MSG_FULL_PRICE: string := "Full price must be provided as a number."
  const MSG_DISCOUNT_NAN: string := "Discounted price must be a valid number."
  const MSG_DISCOUNT_HIGH: string := "Discounted price cannot exceed full price."
  const MSG_ROOM: string := "Please choose a room."
  const MSG_ROOM_TIMES: string := "Provide start and end time for the room booking."
  const MSG_EQUIPMENT: string := "Please choose the equipment to rent."
  const MSG_EQUIPMENT_TIMES: string := "Provide start and end time for the equipment booking."
  const MSG_CLASS: string := "Please choose the class."
  const MSG_SERVICE_TIMES: string := "Provide start and end time for the service."
  const MSG_CREATE_FAILED: string := "Failed to create booking."

  /** The form as the page first shows it. */
  const INITIAL_FORM: BookingForm := BookingForm(
    "", NO_SERVICE_SELECTED, ROOM, None, None, Blank, Blank, DEFAULT_CURRENCY, "", "unpaid",
    "", "", "", [], None, None)

  // ---------------------------------------------------------------------------
  // Derived values

  /** The catalogue entry behind the selected code; the two sentinel codes have none. */
  function ServiceDefOf(cat: Catalog, code: string): (d: Option<ServiceDef>)
    ensures code == CUSTOM_SERVICE_CODE || code == NO_SERVICE_SELECTED ==> d.None?
    ensures code != CUSTOM_SERVICE_CODE && code != NO_SERVICE_SELECTED ==> d == FindServiceByCode(cat, code)
  {
    if code == CUSTOM_SERVICE_CODE || code == NO_SERVICE_SELECTED then None
    else FindServiceByCode(cat, code)
  }

  /** `serviceType`: the catalogue category of the chosen service when it has
      one, otherwise the manually chosen type. */
  function ServiceTypeOf(cat: Catalog, f: BookingForm): (t: string)
    ensures var d := ServiceDefOf(cat, f.serviceCode);
            if d.Some? && d.value.category != "" then t == d.value.category else t == f.manualServiceType
  {
    CategoryOr(ServiceDefOf(cat, f.serviceCode), f.manualServiceType)
  }

  /** `requiresClassId`: only a class booking, and not when the catalogue entry says false. */
  function RequiresClassId(cat: Catalog, f: BookingForm): (b: bool)
    ensures b ==> ServiceTypeOf(cat, f) == CLASS
    ensures var d := ServiceDefOf(cat, f.serviceCode);
            ServiceTypeOf(cat, f) == CLASS ==> (b <==> d.None? || d.value.requiresClassId != Some(false))
  {
    var d := ServiceDefOf(cat, f.serviceCode);
    ServiceTypeOf(cat, f) == CLASS && (d.None? || d.value.requiresClassId != Some(false))
  }

  // ---------------------------------------------------------------------------
  // Resets

  /** The effect keyed on the service type: each type-specific selection is
      cleared unless the form is of that type; nothing else changes. */
  function ClearForType(f: BookingForm, serviceType: string): (r: BookingForm)
    ensures serviceType != CLASS ==> r.classId == "" && r.sessionOptions == [] && r.selectedSession.None?
    ensures serviceType == CLASS ==> r.classId == f.classId && r.sessionOptions == f.sessionOptions && r.selectedSession == f.selectedSession
    ensures serviceType != ROOM ==> r.roomId == "" && r.availability.None?
    ensures serviceType == ROOM ==> r.roomId == f.roomId && r.availability == f.availability
    ensures serviceType != EQUIPMENT ==> r.equipmentId == ""
    ensures serviceType == EQUIPMENT ==> r.equipmentId == f.equipmentId
    ensures r.(classId := f.classId, sessionOptions := f.sessionOptions, selectedSession := f.selectedSession,
               roomId := f.roomId, availability := f.availability, equipmentId := f.equipmentId) == f
  {
    var a := if serviceType != CLASS then f.(classId := "", sessionOptions := [], selectedSession := None) else f;
    var b := if serviceType != ROOM then a.(roomId := "", availability := None) else a;
    if serviceType != EQUIPMENT then b.(equipmentId := "") else b
  }

  /** Running the reset again changes nothing. */
  lemma ClearForTypeIdempotent(f: BookingForm, serviceType: string)
    ensures ClearForType(ClearForType(f, serviceType), serviceType) == ClearForType(f, serviceType)
  {
  }

  /** `handleServiceChange` on the creation page. */
  function ServiceChanged(cat: Catalog, f: BookingForm, value: string): (r: BookingForm)
    ensures r.serviceCode == value
    ensures r.startDate.None? && r.endDate.None? && r.availability.None?
    ensures r.discountedPrice == Blank && r.priceNotes == "" && r.selectedSession.None?
    ensures value == CUSTOM_SERVICE_CODE ==> r.manualServiceType == ROOM && r.fullPrice == Blank
    ensures value == NO_SERVICE_SELECTED ==> r.manualServiceType == f.manualServiceType && r.fullPrice == Blank
    ensures value != CUSTOM_SERVICE_CODE && value != NO_SERVICE_SELECTED ==>
              r.manualServiceType == (if ServiceCategory(cat, value) != "" then ServiceCategory(cat, value) else f.manualServiceType)
              && r.fullPrice == (var d := FindServiceByCode(cat, value);
                                 if d.Some? && d.value.defaultFullPrice.Some? then Num(d.value.defaultFullPrice.value) else Blank)
    ensures r.(serviceCode := f.serviceCode, startDate := f.startDate, endDate := f.endDate, availability := f.availability,
               manualServiceType := f.manualServiceType, fullPrice := f.fullPrice, discountedPrice := f.discountedPrice,
               priceNotes := f.priceNotes, selectedSession := f.selectedSession) == f
  {
    var g := f.(serviceCode := value, startDate := None, endDate := None, availability := None);
    var h :=
      if value == CUSTOM_SERVICE_CODE then
        g.(manualServiceType := ROOM, fullPrice := Blank, discountedPrice := Blank)
      else if value != NO_SERVICE_SELECTED then
        var def := FindServiceByCode(cat, value);
        var derived := ServiceCategory(cat, value);
        var g1 := if derived != "" then g.(manualServiceType := derived) else g;
        var g2 := if def.Some? && def.value.defaultFullPrice.Some?
                  then g1.(fullPrice := Num(def.value.defaultFullPrice.value))
                  else g1.(fullPrice := Blank);
        g2.(discountedPrice := Blank)
      else
        g.(fullPrice := Blank, discountedPrice := Blank);
    h.(priceNotes := "", selectedSession := None)
  }

  // ---------------------------------------------------------------------------
  // The checks

  predicate MissingTimes(f: BookingForm)
  {
    f.startDate.None? || f.endDate.None?
  }

  /** Every check the form fails, each judged on its own, in the order the
      page runs them. A check only reachable after an earlier one passed is
      listed whenever its own condition holds. */
  function AllFailures(cat: Catalog, f: BookingForm): seq<string>
  {
    var t := ServiceTypeOf(cat, f);
    (if f.clientId == "" then [MSG_CLIENT] else [])
    + (if f.serviceCode == NO_SERVICE_SELECTED then [MSG_SERVICE] else [])
    + (if !f.fullPrice.Num? then [MSG_FULL_PRICE] else [])
    + (if f.discountedPrice.Invalid? then [MSG_DISCOUNT_NAN] else [])
    + (if f.fullPrice.Num? && f.discountedPrice.Num? && f.discountedPrice.v > f.fullPrice.v then [MSG_DISCOUNT_HIGH] else [])
    + (if t == ROOM && f.roomId == "" then [MSG_ROOM] else [])
    + (if t == ROOM && MissingTimes(f) then [MSG_ROOM_TIMES] else [])
    + (if t == EQUIPMENT && f.equipmentId == "" then [MSG_EQUIPMENT] else [])
    + (if t == EQUIPMENT && MissingTimes(f) then [MSG_EQUIPMENT_TIMES] else [])
    + (if t == CLASS && RequiresClassId(cat, f) && f.classId == "" then [MSG_CLASS] else [])
    + (if t == SERVICE && MissingTimes(f) then [MSG_SERVICE_TIMES] else [])
  }

  /** The payload the page builds once every check passed. `withStatus`
      says whether the page sends the payment status (creation does, editing does not). */
  function BuildPayload(cat: Catalog, f: BookingForm, withStatus: bool): (p: BookingPayload)
    requires f.fullPrice.Num? && !f.discountedPrice.Invalid?
    ensures p.clientId == f.clientId && p.serviceType == ServiceTypeOf(cat, f)
    ensures p.serviceCode == PayloadServiceCode(ServiceDefOf(cat, f.serviceCode))
    ensures p.startDate == f.startDate && p.endDate == f.endDate
    ensures p.roomId.Some? <==> p.serviceType == ROOM
    ensures p.roomId.Some? ==> p.roomId.value == f.roomId
    ensures p.equipmentId.Some? <==> p.serviceType == EQUIPMENT
    ensures p.equipmentId.Some? ==> p.equipmentId.value == f.equipmentId
    ensures p.classId.Some? <==> p.serviceType == CLASS && f.classId != ""
    ensures p.classId.Some? ==> p.classId.value == f.classId
    ensures p.fullPrice == f.fullPrice.v
    ensures p.discountedPrice.None? <==> f.discountedPrice.Blank?
    ensures p.discountedPrice.Some? ==> p.discountedPrice.value == f.discountedPrice.v
    ensures p.priceCurrency == SubmittedCurrency(f.priceCurrency)
    ensures p.priceNotes.None? <==> f.priceNotes == ""
    ensures p.priceNotes.Some? ==> p.priceNotes.value == Trim(f.priceNotes)
    ensures p.paymentStatus.Some? <==> withStatus
    ensures p.paymentStatus.Some? ==> p.paymentStatus.value == f.paymentStatus
  {
    var t := ServiceTypeOf(cat, f);
    BookingPayload(
      f.clientId,
      t,
      PayloadServiceCode(ServiceDefOf(cat, f.serviceCode)),
      f.startDate,
      f.endDate,
      if t == ROOM then Some(f.roomId) else None,
      if t == EQUIPMENT then Some(f.equipmentId) else None,
      if t == CLASS && f.classId != "" then Some(f.classId) else None,
      f.fullPrice.v,
      if f.discountedPrice.Num? then Some(f.discountedPrice.v) else None,
      SubmittedCurrency(f.priceCurrency),
      if f.priceNotes != "" then Some(Trim(f.priceNotes)) else None,
      if withStatus then Some(f.paymentStatus) else None)
  }

  /** `handleSubmit`'s chain: each check in turn, the first failure returning its message. */
  function CheckBooking(cat: Catalog, f: BookingForm, withStatus: bool): (r: Checked)
    ensures r.Rejected? <==> AllFailures(cat, f) != []
    ensures r.Rejected? ==> r.message == AllFailures(cat, f)[0]
    ensures r.Accepted? ==> r.payload == BuildPayload(cat, f, withStatus)
  {
    var t := ServiceTypeOf(cat, f);
    if f.clientId == "" then Rejected(MSG_CLIENT)
    else if f.serviceCode == NO_SERVICE_SELECTED then Rejected(MSG_SERVICE)
    else if !f.fullPrice.Num? then Rejected(MSG_FULL_PRICE)
    else if f.discountedPrice.Invalid? then Rejected(MSG_DISCOUNT_NAN)
    else if f.discountedPrice.Num? && f.discountedPrice.v > f.fullPrice.v then Rejected(MSG_DISCOUNT_HIGH)
    else if t == ROOM && f.roomId == "" then Rejected(MSG_ROOM)
    else if t == ROOM && MissingTimes(f) then Rejected(MSG_ROOM_TIMES)
    else if t == EQUIPMENT && f.equipmentId == "" then Rejected(MSG_EQUIPMENT)
    else if t == EQUIPMENT && MissingTimes(f) then Rejected(MSG_EQUIPMENT_TIMES)
    else if t == CLASS && RequiresClassId(cat, f) && f.classId == "" then Rejected(MSG_CLASS)
    else if t == SERVICE && MissingTimes(f) then Rejected(MSG_SERVICE_TIMES)
    else Accepted(BuildPayload(cat, f, withStatus))
  }

  /** A missing client is reported first, whatever else the form holds. */
  lemma MissingClientFirst(cat: Catalog, f: BookingForm, withStatus: bool)
    requires f.clientId == ""
    ensures CheckBooking(cat, f, withStatus) == Rejected(MSG_CLIENT)
  {
  }

  /** What an accepted form guarantees about the payload: prices are in
      order, and each typed booking carries its selection and its times. */
  lemma AcceptedPayloadIsComplete(cat: Catalog, f: BookingForm, withStatus: bool)
    requires CheckBooking(cat, f, withStatus).Accepted?
    ensures var p := CheckBooking(cat, f, withStatus).payload;
            p.clientId != ""
            && (p.discountedPrice.Some? ==> p.discountedPrice.value <= p.fullPrice)
            && (p.serviceType == ROOM ==> p.roomId.Some? && p.roomId.value != "")
            && (p.serviceType == EQUIPMENT ==> p.equipmentId.Some? && p.equipmentId.value != "")
            && (p.serviceType == CLASS && RequiresClassId(cat, f) ==> p.classId.Some?)
            && (p.serviceType in {ROOM, EQUIPMENT, SERVICE} ==> p.startDate.Some? && p.endDate.Some?)
  {
    assert AllFailures(cat, f) == [];
  }

  /** The checks look at the ids of the form's own type only: filling in an
      id of another type never turns a rejection into an acceptance or back. */
  lemma OtherTypeIdsIgnored(cat: Catalog, f: BookingForm, roomId: string, equipmentId: string)
    requires ServiceTypeOf(cat, f) !in {ROOM, EQUIPMENT}
    ensures CheckBooking(cat, f.(roomId := roomId, equipmentId := equipmentId), false).Rejected?
        <==> CheckBooking(cat, f, false).Rejected?
  {
    var g := f.(roomId := roomId, equipmentId := equipmentId);
    assert ServiceTypeOf(cat, g) == ServiceTypeOf(cat, f);
    assert RequiresClassId(cat, g) == RequiresClassId(cat, f);
    assert AllFailures(cat, g) == AllFailures(cat, f);
  }

  // ---------------------------------------------------------------------------
  // The page

  class BookingCreatePage {
    var form: BookingForm
    /** The message shown above the form, "" for none. */
    var error: string
    /** Every payload handed to the create call, oldest first. */
    var sent: seq<BookingPayload>
    /** The page has moved on to the bookings list. */
    var navigated: bool

    constructor ()
      ensures form == INITIAL_FORM && error == "" && sent == [] && !navigated
    {
      form := INITIAL_FORM;
      error := "";
      sent := [];
      navigated := false;
    }

    /** A new service is picked in the select. */
    method HandleServiceChange(cat: Catalog, value: string)
      modifies this
      ensures form == ServiceChanged(cat, old(form), value)
      ensures error == old(error) && sent == old(sent) && navigated == old(navigated)
    {
      form := ServiceChanged(cat, form, value);
    }

    /** The service type was recomputed: clear what belongs to other types. */
    method ApplyTypeReset(cat: Catalog)
      modifies this
      ensures form == ClearForType(old(form), ServiceTypeOf(cat, old(form)))
      ensures error == old(error) && sent == old(sent) && navigated == old(navigated)
    {
      form := ClearForType(form, ServiceTypeOf(cat, form));
    }

    /** The form is submitted; `api` is how the create call ends when it is made. */
    method HandleSubmit(cat: Catalog, api: ApiOutcome)
      modifies this
      ensures form == old(form)
      ensures var c := CheckBooking(cat, old(form), true);
              if c.Rejected? then error == c.message && sent == old(sent) && navigated == old(navigated)
              else sent == old(sent) + [c.payload]
                   && (api.Succeeded? ==> error == "" && navigated)
                   && (api.FailedWith? ==> error == FailureMessage(api, MSG_CREATE_FAILED) && navigated == old(navigated))
    {
      var c := CheckBooking(cat, form, true);
      error := "";
      if c.Rejected? {
        error := c.message;
        return;
      }
      sent := sent + [c.payload];
      if api.Succeeded? {
        navigated := true;
      } else {
        error := FailureMessage(api, MSG_CREATE_FAILED);
      }
    }
  }

  /** After a service change and the type reset that follows it, a form not
      of type room, equipment or class holds none of their selections. */
  lemma ServiceChangeThenResetClearsIds(cat: Catalog, f: BookingForm, value: string)
    ensures var g := ServiceChanged(cat, f, value);
            var r := ClearForType(g, ServiceTypeOf(cat, g));
            (ServiceTypeOf(cat, g) != ROOM ==> r.roomId == "")
            && (ServiceTypeOf(cat, g) != EQUIPMENT ==> r.equipmentId == "")
            && (ServiceTypeOf(cat, g) != CLASS ==> r.classId == "")
            && r.startDate.None? && r.endDate.None?
  {
  }
}
