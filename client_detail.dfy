/** The client page's booking table: what the client has paid towards each
    booking, and each booking's full, final and remaining price. */
module ClientDetail {
  import opened Common
  import opened Services

  /** An income payment of the client. `bookingRef` is the payment's booking,
      populated or raw; `amount` is None when it is not a number. */
  datatype ClientPayment = ClientPayment(bookingRef: Ref, amount: Option<real>)

  /** A booking of the client. A price is None when the record's value is not a number. */
  datatype ClientBooking = ClientBooking(
    oid: string,
    serviceCode: string,
    serviceType: string,
    fullPrice: Option<real>,
    totalFee: Option<real>,
    discountedPrice: Option<real>,
    priceCurrency: string,
    paymentStatus: string)

  // ---------------------------------------------------------------------------
  // Paid per booking

  /** What `payments` pay towards booking `b`: the amounts (0 when not a
      number) of the payments filed under `b`, added up from the first. */
  function PaidFor(payments: seq<ClientPayment>, b: string): real
  {
    if payments == [] then 0.0
    else
      var last := payments[|payments| - 1];
      PaidFor(payments[..|payments| - 1], b) + (if RefId(last.bookingRef) == b then AmountOr0(last.amount) else 0.0)
  }

  /** A booking no payment names has paid nothing. */
  lemma {:induction false} PaidForUnnamed(payments: seq<ClientPayment>, b: string)
    requires forall i :: 0 <= i < |payments| ==> RefId(payments[i].bookingRef) != b
    ensures PaidFor(payments, b) == 0.0
  {
    if payments != [] {
      PaidForUnnamed(payments[..|payments| - 1], b);
    }
  }

  /** Payments for other bookings do not change what a booking has paid. */
  lemma {:induction false} PaidForAppend(payments: seq<ClientPayment>, more: seq<ClientPayment>, b: string)
    ensures PaidFor(payments + more, b) == PaidFor(payments, b) + PaidFor(more, b)
    decreases |more|
  {
    if more != [] {
      assert (payments + more)[..|payments + more| - 1] == payments + more[..|more| - 1];
      PaidForAppend(payments, more[..|more| - 1], b);
    } else {
      assert payments + more == payments;
    }
  }

  /** The paid total the map holds for a booking, 0 when it has none. */
  function Lookup(m: map<string, real>, id: string): real
  {
    if id in m then m[id] else 0.0
  }

  /** The `paymentsByBooking` memo: one entry per booking id some payment
      names (payments without one are skipped), holding what was paid towards it. */
  method PaymentsByBooking(payments: seq<ClientPayment>) returns (m: map<string, real>)
    ensures forall b :: b in m <==> b != "" && exists i :: 0 <= i < |payments| && RefId(payments[i].bookingRef) == b
    ensures forall b :: b != "" ==> Lookup(m, b) == PaidFor(payments, b)
  {
    m := map[];
    for i := 0 to |payments|
      invariant forall b :: b in m <==> b != "" && exists j :: 0 <= j < i && RefId(payments[j].bookingRef) == b
      invariant forall b :: b != "" ==> Lookup(m, b) == PaidFor(payments[..i], b)
    {
      var bookingId := RefId(payments[i].bookingRef);
      var amount := AmountOr0(payments[i].amount);
      ghost var before := m;
      if bookingId != "" {
        if bookingId !in m {
          PaidForUnnamedPrefix(payments, i, bookingId);
        }
        m := m[bookingId := Lookup(m, bookingId) + amount];
      }
      forall b | b != ""
        ensures Lookup(m, b) == PaidFor(payments[..i + 1], b)
      {
        PaidForStep(payments, i, b);
        assert Lookup(before, b) == PaidFor(payments[..i], b);
      }
    }
    assert payments[..|payments|] == payments;
  }

  /** One more payment adds its amount to its own booking and nothing to the others. */
  lemma PaidForStep(payments: seq<ClientPayment>, i: nat, b: string)
    requires i < |payments|
    ensures PaidFor(payments[..i + 1], b) ==
              PaidFor(payments[..i], b) + (if RefId(payments[i].bookingRef) == b then AmountOr0(payments[i].amount) else 0.0)
  {
    assert payments[..i + 1][..i] == payments[..i];
  }

  /** Before the first payment that names `b`, `b` has paid nothing. */
  lemma PaidForUnnamedPrefix(payments: seq<ClientPayment>, i: nat, b: string)
    requires i <= |payments|
    requires !exists j :: 0 <= j < i && RefId(payments[j].bookingRef) == b
    ensures PaidFor(payments[..i], b) == 0.0
  {
    PaidForUnnamed(payments[..i], b);
  }

  // ---------------------------------------------------------------------------
  // Prices

  /** `fullPrice` when it is a number, else `totalFee` when it is one, else 0. */
  function FullPrice(b: ClientBooking): (p: real)
    ensures b.fullPrice.Some? ==> p == b.fullPrice.value
    ensures b.fullPrice.None? && b.totalFee.Some? ==> p == b.totalFee.value
    ensures b.fullPrice.None? && b.totalFee.None? ==> p == 0.0
  {
    match b.fullPrice
    case Some(v) => v
    case None => AmountOr0(b.totalFee)
  }

  /** The discounted price when it is a number, else the full price. */
  function FinalPrice(b: ClientBooking): (p: real)
    ensures b.discountedPrice.Some? ==> p == b.discountedPrice.value
    ensures b.discountedPrice.None? ==> p == FullPrice(b)
  {
    if b.discountedPrice.Some? then b.discountedPrice.value else FullPrice(b)
  }

  /** What is still to pay: the final price less what was paid, never below 0. */
  function Remaining(finalPrice: real, paid: real): (r: real)
    ensures r >= 0.0
    ensures paid <= finalPrice ==> r + paid == finalPrice
    ensures paid >= finalPrice ==> r == 0.0
  {
    Max0(finalPrice - paid)
  }

  /** The "(discount from …)" suffix as the page decides it: shown when a
      discount exists and differs from the final price. */
  function DiscountSuffixAsWritten(b: ClientBooking): (s: Option<real>)
    ensures s.Some? ==> b.discountedPrice.Some? && s.value == FullPrice(b)
  {
    if b.discountedPrice.Some? && b.discountedPrice.value != FinalPrice(b) then Some(FullPrice(b)) else None
  }

  /** The suffix as written is never shown: with a discount, the final price is the discount. */
  lemma DiscountSuffixNeverShown(b: ClientBooking)
    ensures DiscountSuffixAsWritten(b).None?
  {
  }

  /** An example booking whose discount is below its full price, yet gets no suffix. */
  lemma DiscountedBookingLacksSuffix()
    ensures var b := ClientBooking("b1", "", "room", Some(100.0), None, Some(80.0), "USD", "");
            FinalPrice(b) < FullPrice(b) && DiscountSuffixAsWritten(b).None?
  {
  }

  /** The suffix as intended: shown, with the full price, exactly when a
      discount exists and differs from the full price. */
  function DiscountSuffix(b: ClientBooking): (s: Option<real>)
    ensures s.Some? <==> b.discountedPrice.Some? && b.discountedPrice.value != FullPrice(b)
    ensures s.Some? ==> s.value == FullPrice(b) && s.value != FinalPrice(b)
  {
    if b.discountedPrice.Some? && b.discountedPrice.value != FullPrice(b) then Some(FullPrice(b)) else None
  }

  /** One row of the booking table. */
  datatype PriceRow = PriceRow(service: string, finalPrice: real, currency: string, paid: real, remaining: real,
                               discountFrom: Option<real>)

  /** The row of booking `b`, given the `paymentsByBooking` map. */
  function Row(cat: Catalog, m: map<string, real>, b: ClientBooking): (r: PriceRow)
    ensures b.serviceCode in cat ==> r.service == cat[b.serviceCode].name
    ensures b.serviceCode !in cat ==> r.service == b.serviceType
    ensures r.finalPrice == FinalPrice(b) && r.paid == Lookup(m, b.oid)
    ensures r.remaining >= 0.0 && (r.paid <= r.finalPrice ==> r.remaining + r.paid == r.finalPrice)
    ensures r.paid >= r.finalPrice ==> r.remaining == 0.0
    ensures b.priceCurrency != "" ==> r.currency == b.priceCurrency
    ensures b.priceCurrency == "" ==> r.currency == DEFAULT_CURRENCY
    ensures r.discountFrom == DiscountSuffix(b)
  {
    var def := FindServiceByCode(cat, b.serviceCode);
    var final := FinalPrice(b);
    var paid := Lookup(m, b.oid);
    PriceRow(if def.Some? then def.value.name else b.serviceType, final,
             if b.priceCurrency == "" then DEFAULT_CURRENCY else b.priceCurrency,
             paid, Remaining(final, paid), DiscountSuffix(b))
  }

  /** A booking's row shows what its own payments add up to. */
  lemma RowPaidIsItsPayments(cat: Catalog, payments: seq<ClientPayment>, m: map<string, real>, b: ClientBooking)
    requires forall id :: id != "" ==> Lookup(m, id) == PaidFor(payments, id)
    requires b.oid != ""
    ensures Row(cat, m, b).paid == PaidFor(payments, b.oid)
    ensures Row(cat, m, b).remaining == Remaining(FinalPrice(b), PaidFor(payments, b.oid))
  {
  }
}
