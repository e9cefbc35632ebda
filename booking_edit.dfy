/** The booking editing page: a stored booking is loaded into the form, the
    form is kept consistent by the type reset and by the class-session
    choice, and is sent back through the same chain of checks as on the
    creation page, without the payment status, while a guard keeps a second
    submission out until the first one has settled. */
module BookingEdit {
  import opened Common
  import opened Services
  import opened BookingCreate

  /** A stored booking as the server returns it. References may come
      populated or raw; `fullPrice`, `discountedPrice` are None when not a
      number, `totalFee` is None when absent; dates are None when missing or
      unreadable. */
  datatype BookingRecord = BookingRecord(
    clientId: Ref,
    serviceCode: string,
    serviceType: string,
    startDate: Option<int>,
    endDate: Option<int>,
    fullPrice: Option<real>,
    totalFee: Option<real>,
    discountedPrice: Option<real>,
    priceCurrency: string,
    priceNotes: string,
    roomId: Ref,
    equipmentId: Ref,
    classId: Ref)

  datatype LoadResult = Loaded(record: BookingRecord) | LoadFailed

  /** A class as the class list returns it: its id, its scheduled session
      instants and its session length in minutes (0 when unset). */
  datatype ClassInfo = ClassInfo(oid: string, schedule: seq<int>, sessionLength: int)

  const MSG_LOAD_FAILED: string := "Failed to load booking details."
  const MSG_UPDATE_FAILED: string := "Failed to update booking."
  const DEFAULT_SESSION_MINUTES: int := 90

  // ---------------------------------------------------------------------------
  // Loading

  /** The form filled from a stored booking; fields the record does not
      speak for keep their initial values. */
  function LoadForm(cat: Catalog, rec: BookingRecord): (f: BookingForm)
    ensures f.clientId == RefId(rec.clientId)
    ensures f.roomId == RefId(rec.roomId) && f.equipmentId == RefId(rec.equipmentId) && f.classId == RefId(rec.classId)
    ensures f.serviceCode == (if rec.serviceCode != "" && rec.serviceCode in cat then rec.serviceCode else CUSTOM_SERVICE_CODE)
    ensures f.manualServiceType == (if rec.serviceType != "" then rec.serviceType
                                    else if ServiceCategory(cat, rec.serviceCode) != "" then ServiceCategory(cat, rec.serviceCode)
                                    else ROOM)
    ensures f.startDate == rec.startDate && f.endDate == rec.endDate
    ensures rec.fullPrice.Some? ==> f.fullPrice == Num(rec.fullPrice.value)
    ensures rec.fullPrice.None? && rec.totalFee.Some? ==> f.fullPrice == Num(rec.totalFee.value)
    ensures rec.fullPrice.None? && rec.totalFee.None? ==> f.fullPrice == Blank
    ensures f.discountedPrice == (if rec.discountedPrice.Some? then Num(rec.discountedPrice.value) else Blank)
    ensures f.priceCurrency == LoadedCurrency(rec.priceCurrency) && f.priceNotes == rec.priceNotes
    ensures f.sessionOptions == [] && f.selectedSession.None? && f.availability.None?
  {
    var base := if rec.fullPrice.Some? then rec.fullPrice else rec.totalFee;
    INITIAL_FORM.(
      clientId := RefId(rec.clientId),
      serviceCode := if rec.serviceCode != "" && FindServiceByCode(cat, rec.serviceCode).Some? then rec.serviceCode else CUSTOM_SERVICE_CODE,
      manualServiceType := if rec.serviceType != "" then rec.serviceType
                           else if ServiceCategory(cat, rec.serviceCode) != "" then ServiceCategory(cat, rec.serviceCode)
                           else ROOM,
      startDate := rec.startDate,
      endDate := rec.endDate,
      fullPrice := if base.Some? then Num(base.value) else Blank,
      discountedPrice := if rec.discountedPrice.Some? then Num(rec.discountedPrice.value) else Blank,
      priceCurrency := LoadedCurrency(rec.priceCurrency),
      priceNotes := rec.priceNotes,
      roomId := RefId(rec.roomId),
      equipmentId := RefId(rec.equipmentId),
      classId := RefId(rec.classId))
  }

  /** A room booking outside the catalogue, loaded and submitted untouched,
      is accepted and sends back what was stored. */
  lemma ReloadedRoomBookingResubmits(cat: Catalog, rec: BookingRecord)
    requires RefId(rec.clientId) != "" && RefId(rec.roomId) != ""
    requires rec.serviceCode !in cat && rec.serviceType == ROOM
    requires rec.startDate.Some? && rec.endDate.Some? && rec.fullPrice.Some?
    requires rec.discountedPrice.Some? ==> rec.discountedPrice.value <= rec.fullPrice.value
    ensures var f := LoadForm(cat, rec);
            var c := CheckBooking(cat, ClearForType(f, ServiceTypeOf(cat, f)), false);
            c.Accepted?
            && c.payload.clientId == RefId(rec.clientId)
            && c.payload.serviceType == ROOM && c.payload.serviceCode.None?
            && c.payload.roomId == Some(RefId(rec.roomId))
            && c.payload.equipmentId.None? && c.payload.classId.None?
            && c.payload.startDate == rec.startDate && c.payload.endDate == rec.endDate
            && c.payload.fullPrice == rec.fullPrice.value
            && c.payload.discountedPrice == rec.discountedPrice
            && c.payload.paymentStatus.None?
  {
    var f := LoadForm(cat, rec);
    assert f.serviceCode == CUSTOM_SERVICE_CODE;
    assert ServiceTypeOf(cat, f) == ROOM;
    var g := ClearForType(f, ROOM);
    assert ServiceTypeOf(cat, g) == ROOM;
    assert AllFailures(cat, g) == [];
  }

  // ---------------------------------------------------------------------------
  // Service change on the editing page

  /** `handleServiceChange` on the editing page. Unlike creation, choosing a
      custom service keeps the current category or manual type, and going
      back to "no service" keeps the prices. */
  function EditServiceChanged(cat: Catalog, f: BookingForm, value: string): (r: BookingForm)
    ensures r.serviceCode == value
    ensures r.startDate.None? && r.endDate.None? && r.availability.None?
    ensures r.priceNotes == "" && r.selectedSession.None?
    ensures value == CUSTOM_SERVICE_CODE ==>
              r.manualServiceType == CategoryOr(ServiceDefOf(cat, f.serviceCode), if f.manualServiceType != "" then f.manualServiceType else ROOM)
              && r.fullPrice == Blank && r.discountedPrice == Blank
    ensures value == NO_SERVICE_SELECTED ==>
              r.manualServiceType == f.manualServiceType && r.fullPrice == f.fullPrice && r.discountedPrice == f.discountedPrice
    ensures r.(serviceCode := f.serviceCode, startDate := f.startDate, endDate := f.endDate, availability := f.availability,
               manualServiceType := f.manualServiceType, fullPrice := f.fullPrice, discountedPrice := f.discountedPrice,
               priceNotes := f.priceNotes, selectedSession := f.selectedSession) == f
  {
    var g := f.(serviceCode := value, startDate := None, endDate := None, availability := None);
    var h :=
      if value == CUSTOM_SERVICE_CODE then
        var keep := CategoryOr(ServiceDefOf(cat, f.serviceCode), if f.manualServiceType != "" then f.manualServiceType else ROOM);
        g.(manualServiceType := keep, fullPrice := Blank, discountedPrice := Blank)
      else if value != NO_SERVICE_SELECTED then
        var def := FindServiceByCode(cat, value);
        var derived := ServiceCategory(cat, value);
        var g1 := if derived != "" then g.(manualServiceType := derived) else g;
        var g2 := if def.Some? && def.value.defaultFullPrice.Some?
                  then g1.(fullPrice := Num(def.value.defaultFullPrice.value))
                  else g1.(fullPrice := Blank);
        g2.(discountedPrice := Blank)
      else g;
    h.(priceNotes := "", selectedSession := None)
  }

  /** Picking a catalogue service behaves the same on both pages. */
  lemma CatalogueChoiceAgrees(cat: Catalog, f: BookingForm, value: string)
    requires value != CUSTOM_SERVICE_CODE && value != NO_SERVICE_SELECTED
    ensures EditServiceChanged(cat, f, value) == ServiceChanged(cat, f, value)
  {
  }

  // ---------------------------------------------------------------------------
  // Class session choice

  /** The first class with that id, if any. */
  function FindClass(classes: seq<ClassInfo>, id: string): Option<ClassInfo>
  {
    FindFirst(classes, (c: ClassInfo) => c.oid, id)
  }

  /** A session's length: the class's own, else the service's default duration, else 90 minutes. */
  function SessionLength(cls: ClassInfo, def: Option<ServiceDef>): (len: int)
    ensures cls.sessionLength != 0 ==> len == cls.sessionLength
    ensures cls.sessionLength == 0 && def.Some? && def.value.defaultDuration != 0 ==> len == def.value.defaultDuration
    ensures cls.sessionLength == 0 && (def.None? || def.value.defaultDuration == 0) ==> len == DEFAULT_SESSION_MINUTES
  {
    if cls.sessionLength != 0 then cls.sessionLength
    else if def.Some? && def.value.defaultDuration != 0 then def.value.defaultDuration
    else DEFAULT_SESSION_MINUTES
  }

  /** The class-session effect: with a known class of a class booking, offer
      its sessions and select the one the start already names, or else the
      first, with the end `len` minutes after it; otherwise offer nothing. */
  function ChooseClassSession(f: BookingForm, serviceType: string, classes: seq<ClassInfo>, def: Option<ServiceDef>): (r: BookingForm)
    ensures serviceType != CLASS || f.classId == "" || FindClass(classes, f.classId).None? ==>
              r == f.(sessionOptions := [], selectedSession := None)
    ensures serviceType == CLASS && f.classId != "" && FindClass(classes, f.classId).Some? ==>
              r.sessionOptions == FindClass(classes, f.classId).value.schedule
    ensures r.sessionOptions != [] ==>
              FindClass(classes, f.classId).Some?
              && r.selectedSession.Some? && r.selectedSession.value in r.sessionOptions
              && r.startDate == r.selectedSession
              && r.endDate == Some(r.selectedSession.value + SessionLength(FindClass(classes, f.classId).value, def))
    ensures r.sessionOptions != [] && f.startDate.Some? && f.startDate.value in r.sessionOptions ==> r.startDate == f.startDate
    ensures r.sessionOptions != [] && (f.startDate.None? || f.startDate.value !in r.sessionOptions) ==>
              r.selectedSession == Some(r.sessionOptions[0])
    ensures r.sessionOptions == [] ==> r.startDate == f.startDate && r.endDate == f.endDate
    ensures r.(sessionOptions := f.sessionOptions, selectedSession := f.selectedSession, startDate := f.startDate, endDate := f.endDate) == f
  {
    if serviceType != CLASS || f.classId == "" then f.(sessionOptions := [], selectedSession := None)
    else match FindClass(classes, f.classId)
      case None => f.(sessionOptions := [], selectedSession := None)
      case Some(cls) =>
        var sessions := cls.schedule;
        var g := f.(sessionOptions := sessions);
        if sessions == [] then g
        else
          var len := SessionLength(cls, def);
          if f.startDate.Some? && f.startDate.value in sessions then
            g.(selectedSession := f.startDate, endDate := Some(f.startDate.value + len))
          else
            g.(selectedSession := Some(sessions[0]), startDate := Some(sessions[0]), endDate := Some(sessions[0] + len))
  }

  /** The effect re-runs whenever the start changes; setting the start to the
      chosen session makes the next run change nothing, so it settles. */
  lemma ChooseClassSessionSettles(f: BookingForm, serviceType: string, classes: seq<ClassInfo>, def: Option<ServiceDef>)
    ensures var r := ChooseClassSession(f, serviceType, classes, def);
            ChooseClassSession(r, serviceType, classes, def) == r
  {
  }

  // ---------------------------------------------------------------------------
  // The page

  class BookingEditPage {
    var form: BookingForm
    var loading: bool
    /** An update is in flight. */
    var submitting: bool
    var error: string
    /** Every payload handed to the update call, oldest first. */
    var sent: seq<BookingPayload>
    var navigated: bool

    constructor ()
      ensures form == INITIAL_FORM && loading && !submitting && error == "" && sent == [] && !navigated
    {
      form := INITIAL_FORM;
      loading := true;
      submitting := false;
      error := "";
      sent := [];
      navigated := false;
    }

    /** The stored booking arrived, or could not be fetched. */
    method Load(cat: Catalog, res: LoadResult)
      modifies this
      ensures !loading
      ensures res.Loaded? ==> form == LoadForm(cat, res.record) && error == old(error)
      ensures res.LoadFailed? ==> form == old(form) && error == MSG_LOAD_FAILED
      ensures submitting == old(submitting) && sent == old(sent) && navigated == old(navigated)
    {
      if res.Loaded? {
        form := LoadForm(cat, res.record);
      } else {
        error := MSG_LOAD_FAILED;
      }
      loading := false;
    }

    method HandleServiceChange(cat: Catalog, value: string)
      modifies this
      ensures form == EditServiceChanged(cat, old(form), value)
      ensures loading == old(loading) && submitting == old(submitting) && error == old(error)
      ensures sent == old(sent) && navigated == old(navigated)
    {
      form := EditServiceChanged(cat, form, value);
    }

    /** The effect keyed on the service type, as on the creation page. */
    method ApplyTypeReset(cat: Catalog)
      modifies this
      ensures form == ClearForType(old(form), ServiceTypeOf(cat, old(form)))
      ensures loading == old(loading) && submitting == old(submitting) && error == old(error)
      ensures sent == old(sent) && navigated == old(navigated)
    {
      form := ClearForType(form, ServiceTypeOf(cat, form));
    }

    /** The class-session effect, given the class list. */
    method ApplyClassSession(cat: Catalog, classes: seq<ClassInfo>)
      modifies this
      ensures form == ChooseClassSession(old(form), ServiceTypeOf(cat, old(form)), classes, ServiceDefOf(cat, old(form).serviceCode))
      ensures loading == old(loading) && submitting == old(submitting) && error == old(error)
      ensures sent == old(sent) && navigated == old(navigated)
    {
      form := ChooseClassSession(form, ServiceTypeOf(cat, form), classes, ServiceDefOf(cat, form.serviceCode));
    }

    /** The form is submitted. While an update is in flight nothing happens;
        otherwise the checks run and, when they pass, the update is sent and
        the page waits for it. */
    method HandleSubmit(cat: Catalog)
      modifies this
      ensures form == old(form) && loading == old(loading) && navigated == old(navigated)
      ensures old(submitting) ==> submitting && error == old(error) && sent == old(sent)
      ensures !old(submitting) ==>
                var c := CheckBooking(cat, old(form), false);
                if c.Rejected? then error == c.message && !submitting && sent == old(sent)
                else error == "" && submitting && sent == old(sent) + [c.payload]
    {
      var c := CheckBooking(cat, form, false);
      if submitting {
        return;
      }
      error := "";
      if c.Rejected? {
        error := c.message;
        return;
      }
      submitting := true;
      sent := sent + [c.payload];
    }

    /** The update in flight has ended; `finally` clears the guard. */
    method SettleUpdate(api: ApiOutcome)
      requires submitting
      modifies this
      ensures !submitting
      ensures form == old(form) && loading == old(loading) && sent == old(sent)
      ensures api.Succeeded? ==> navigated && error == old(error)
      ensures api.FailedWith? ==> error == FailureMessage(api, MSG_UPDATE_FAILED) && navigated == old(navigated)
    {
      if api.Succeeded? {
        navigated := true;
      } else {
        error := FailureMessage(api, MSG_UPDATE_FAILED);
      }
      submitting := false;
    }
  }

  /** Two submissions without a settlement in between send one update. */
  method DoubleSubmitSendsOnce(cat: Catalog, page: BookingEditPage)
    requires !page.submitting
    requires CheckBooking(cat, page.form, false).Accepted?
    modifies page
    ensures |page.sent| == |old(page.sent)| + 1
  {
    page.HandleSubmit(cat);
    page.HandleSubmit(cat);
  }
}
