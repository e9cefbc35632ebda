# Studio management front end — a verified model

This project models the logic of a studio-management web client in Dafny. The client is a set of React pages for a studio that rents rooms and equipment and runs classes. The model covers these pages and components:

- the session-schedule builder;
- the booking creation and editing forms;
- the payment form and the payments overview with its per-booking cards;
- the client, booking and attendance pages;
- the bookings and clients lists, and the pager under every list;
- the weekly calendar.

What is modelled:

- Pure computations become functions and lemmas. These include the filters, page slices, price and balance arithmetic, and service-type derivation. They also include the form checks with their first-failure order, and the payloads sent to the server.
- A page whose handlers update its state becomes a `class`. Its fields are that state, and its methods are the handlers. The schedule builder's session list, the payment card's two forms and the calendar's week on show are examples.
- A loop in the source becomes a `method` with a `while`/`for` loop. It is proved equal to a specification function, and the properties are then proved about that function. Examples are the weekly and grid generators, the per-day event buckets and the payments-per-booking map.

Modelling conventions:

- Server calls are not run. Each call appears as a parameter (`ApiOutcome`, `Option<…>`) that says how the call ended. Every request a page makes is appended to a `sent`/`created`/`updated`/… field, so contracts can say exactly what was sent.
- The service catalogue is a parameter (`Catalog`, a map from code to definition). The catalogue constants file is not part of this model.
- Times:
  - The schedule builder works in integer minutes. Day 0 is 1970-01-01, a Thursday.
  - The calendar works in integer milliseconds with 86 400 000 ms per day.
  - Local time has no daylight-saving shifts.
- A text field holding a number is a `NumField`: blank, a number, or text that `Number()` cannot read.
- A reference that the server may or may not populate is a `Ref`: absent, a raw id, or an object with id and name.

Modules:

- `Common`: case mapping, trimming, substring search, currency normalisation, references, and a filter with its lemmas.
- `Services`: the catalogue lookups.
- `ScheduleBuilder`, `BookingCreate`, `BookingEdit`, `PaymentCreate`, `PaymentsList`, `ClientDetail`, `BookingDetail`, `AttendanceList`, `BookingsList`, `ClientsList`, `Pagination`, `CalendarPage`: one module per page or component.

## Model

| member | source | states |
|---|---|---|
| Common.FailureMessage | src/pages/Bookings/BookingCreate.js:265 | the server's message when it gave one, otherwise the page's fallback text |
| Common.Lower | src/pages/Attendance/AttendanceList.js:25 | same length, each character lower-cased, no upper-case letter left |
| Common.Upper | src/pages/Bookings/BookingEdit.js:83 | same length, each character upper-cased, no lower-case letter left |
| Common.Trim | src/pages/Bookings/BookingCreate.js:257 | the input without its leading and trailing white space, white space being what JavaScript's `trim` strips (tab, vertical tab, form feed, U+FEFF, every Unicode space separator including U+00A0, and the four line terminators): the piece after the leading white space, followed only by white space, neither starting nor ending with white space |
| Common.TrimStart | src/pages/Bookings/BookingCreate.js:257 | the result is a suffix of the input, and everything dropped was white space |
| Common.TrimEnd | src/pages/Bookings/BookingCreate.js:257 | the result is a prefix of the input, and everything dropped was white space |
| Common.TrimOfTrimmed | src/pages/Bookings/BookingCreate.js:257 | trimming is idempotent |
| Common.NoBreakSpaceTrimmed | src/pages/Bookings/BookingCreate.js:257 | no-break spaces around a code are trimmed away: "\u00A0USD\u00A0" trims to "USD" |
| Common.UpperKeepsSpaces | src/pages/Bookings/BookingCreate.js:244 | upper-casing moves no white space |
| Common.ContainsEmpty | src/pages/Attendance/AttendanceList.js:25 | every text contains the empty text |
| Common.ContainsAt | src/pages/Attendance/AttendanceList.js:25 | an occurrence at any position makes `includes` true |
| Common.ContainsWitness | src/pages/Attendance/AttendanceList.js:25 | when `includes` is true there is a position where the query occurs |
| Common.ContainsNeedsRoom | src/pages/Attendance/AttendanceList.js:25 | a text shorter than the query does not contain it |
| Common.MatchesQuery | src/pages/Bookings/BookingsList.js:28 | the search test of every list page: true exactly when the lower-cased query occurs at some offset of the lower-cased text; the empty query always matches, and a query longer than the text never does |
| Common.FindFirst | src/pages/Bookings/BookingEdit.js:134 | the `find` by id that the edit page uses for classes and the payment form for bookings (src/pages/Payments/PaymentCreate.js:49): the element at the first index whose id matches, and nothing exactly when no element has that id |
| Common.SubmittedCurrency | src/pages/Payments/PaymentCreate.js:100 | an empty field gives USD; otherwise exactly the upper-cased trimmed code, with no lower-case letter and no surrounding white space |
| Common.SubmittedCurrencyKeepsCleanCode | src/pages/Payments/PaymentCreate.js:100 | a code already trimmed and upper-case is sent unchanged |
| Common.SubmittedCurrencyIdempotent | src/pages/Payments/PaymentCreate.js:100 | normalising a submitted currency again changes nothing |
| Common.NoBreakSpaceSubmitted | src/pages/Payments/PaymentCreate.js:100 | a code typed as "usd" followed by a no-break space is sent as "USD" |
| Common.LoadedCurrency | src/pages/Payments/PaymentCreate.js:59 | a missing currency becomes USD; any other is exactly its upper-cased form |
| Common.AmountOr0 | src/pages/Bookings/BookingDetail.js:22 | `Number(x) \|\| 0`: the number when readable, else 0 |
| Common.Max0 | src/pages/Bookings/BookingDetail.js:41 | `Math.max(x, 0)`: x when non-negative, else 0 |
| Common.RefId | src/pages/Bookings/BookingEdit.js:68 | `ref?._id \|\| ref \|\| ''`: the populated id, the raw id, or "" |
| Common.RefName | src/pages/Bookings/BookingsList.js:27 | `ref?.name \|\| ''`: the name of a populated reference, else "" |
| Common.Filter | src/pages/Clients/ClientsList.js:28 | keeps exactly the elements satisfying the predicate, drawn from the input |
| Common.FilterAppend | src/pages/Payments/PaymentsList.js:500-501 | filtering distributes over concatenation |
| Common.FilterPartition | src/pages/Payments/PaymentsList.js:500-501 | filtering by a predicate and by its complement splits the multiset of the input |
| Common.FilterAll | src/pages/Clients/ClientsList.js:28 | a filter every element passes returns the input |
| Common.Weekday | src/components/ScheduleBuilder.js:66 | `getDay()` is a weekday in 0..6 |
| Services.FindServiceByCode | src/pages/Bookings/BookingsList.js:34 | a definition exactly when the code is in the catalogue, and it is that code's definition |
| Services.ServiceCategory | src/pages/Payments/PaymentCreate.js:67 | the code's category, or "" for an unknown code |
| Services.CategoryOr | src/pages/Bookings/BookingCreate.js:57 | `def?.category \|\| fallback` |
| Services.PayloadServiceCode | src/pages/Bookings/BookingCreate.js:248 | the payload carries a code exactly for a catalogue service with a non-empty code |
| ScheduleBuilder.Insert | src/components/ScheduleBuilder.js:53 | insertion keeps the list ascending and adds exactly one copy of the instant |
| ScheduleBuilder.SortAsc | src/components/ScheduleBuilder.js:27 | `slice().sort()`: ascending, and a permutation of the input |
| ScheduleBuilder.SortedUnique | src/components/ScheduleBuilder.js:27 | two ascending lists with the same multiset are equal, so the sort is determined by its input |
| ScheduleBuilder.SortAscOfSorted | src/components/ScheduleBuilder.js:27 | sorting an ascending list returns it unchanged |
| ScheduleBuilder.InsertUnique | src/components/ScheduleBuilder.js:53 | keeps the list strictly ascending; its members are the old ones plus the new instant |
| ScheduleBuilder.Dedupe | src/components/ScheduleBuilder.js:52-54 | strictly ascending, with exactly the input's members, never longer than the input |
| ScheduleBuilder.DistinctBound | src/components/ScheduleBuilder.js:52-54 | a strictly ascending list is no longer than any list holding all of its members |
| ScheduleBuilder.StrictlySortedUnique | src/components/ScheduleBuilder.js:52-54 | two strictly ascending lists with the same members are equal |
| ScheduleBuilder.DedupeOrderIndependent | src/components/ScheduleBuilder.js:52-54 | the merge depends only on which instants occur, not on their order or repetition |
| ScheduleBuilder.DedupeIdempotent | src/components/ScheduleBuilder.js:52-54 | merging a merged list changes nothing |
| ScheduleBuilder.DedupeOfStrictlySorted | src/components/ScheduleBuilder.js:52-54 | a list already strictly ascending is its own merge |
| ScheduleBuilder.AddExistingIsNoop | src/components/ScheduleBuilder.js:40-46 | adding an instant that is already listed leaves the list as it was |
| ScheduleBuilder.ParseDigits | src/components/ScheduleBuilder.js:77-78 | `Number` on a part fails exactly when the part holds a non-digit |
| ScheduleBuilder.BeforeColon | src/components/ScheduleBuilder.js:77 | the first `split(':')` part: a prefix without ':' that ends at the first ':' |
| ScheduleBuilder.ParseTimeToMinutes | src/components/ScheduleBuilder.js:76-79 | an empty field reads as 0; text without a colon is hours only; otherwise the part before the first colon counts 60 per hour and the part after it adds its minutes, an unreadable part counting 0 |
| ScheduleBuilder.FormatTime | src/components/ScheduleBuilder.js:76-79 | a time input's text has five characters with ':' in the middle |
| ScheduleBuilder.ParseFormatTime | src/components/ScheduleBuilder.js:76-79 | `parseTimeToMinutes` reads every "hh:mm" of the day back as the minutes it shows |
| ScheduleBuilder.MinutesToInstant | src/components/ScheduleBuilder.js:81-85 | `minutesToDate` is the given minute of the given day |
| ScheduleBuilder.MinutesToInstantRoundTrip | src/components/ScheduleBuilder.js:81-85 | the instant lies on that day and shows that time of day again |
| ScheduleBuilder.CollectWeekly | src/components/ScheduleBuilder.js:65-72 | the cursor loop produces exactly the weekly batch |
| ScheduleBuilder.WeeklyMembers | src/components/ScheduleBuilder.js:56-74 | an instant is generated iff it is the chosen time on a day of the range whose weekday is selected |
| ScheduleBuilder.WeeklyWithinRange | src/components/ScheduleBuilder.js:65-72 | every generated instant lies at or after the first day's set time and before the set time of the day after the last day |
| ScheduleBuilder.WeeklyStrictlySorted | src/components/ScheduleBuilder.js:65-72 | the weekly batch is strictly ascending, so no day contributes twice |
| ScheduleBuilder.WeeklyExample | src/components/ScheduleBuilder.js:56-74 | two weeks of Mondays and Wednesdays at 18:00 give four instants, in order |
| ScheduleBuilder.GridLoopNeverEnds | src/components/ScheduleBuilder.js:99 | with the as-written step and any negative session length, the cursor after any number of steps is still within the loop bound, so the loop never ends |
| ScheduleBuilder.GridStepAsWritten | src/components/ScheduleBuilder.js:92 | the step as written is never 0, is negative exactly when a negative session length is given, and equals a positive session length |
| ScheduleBuilder.GridStep | src/components/ScheduleBuilder.js:92 | the corrected step is always positive, agrees with the source whenever the source's step is positive, and is 90 for a missing or zero length |
| ScheduleBuilder.CollectGrid | src/components/ScheduleBuilder.js:98-104 | the two nested loops produce exactly the grid batch |
| ScheduleBuilder.DaySlotsCount | src/components/ScheduleBuilder.js:99 | a day gets (last - first) div step + 1 slots, and none when last < first |
| ScheduleBuilder.DaySlotAt | src/components/ScheduleBuilder.js:99 | slot i of a day is first + i * step minutes after its midnight, and never after the last start |
| ScheduleBuilder.LastSlotIncluded | src/components/ScheduleBuilder.js:99 | the last start is itself a slot when the steps reach it exactly |
| ScheduleBuilder.GridCount | src/components/ScheduleBuilder.js:98-104 | the grid has (days in range) times (slots per day) instants |
| ScheduleBuilder.GridExample | src/components/ScheduleBuilder.js:87-106 | 12:00 to 13:00 in 30-minute steps gives 12:00, 12:30 and 13:00 |
| ScheduleBuilder.RoomIdOf | src/components/ScheduleBuilder.js:109 | the room id of an absent, textual or object room prop |
| ScheduleBuilder.Conflict | src/components/ScheduleBuilder.js:117-122 | a session conflicts unless the room was reported free |
| ScheduleBuilder.FillConflicts | src/components/ScheduleBuilder.js:114-123 | one entry per listed session, each the conflict verdict of the query for that session |
| ScheduleBuilder.ConflictBadge | src/components/ScheduleBuilder.js:184 | no badge before a check, then "conflict" or "ok" by the verdict |
| ScheduleBuilder.ArraysEqual | src/components/ScheduleBuilder.js:222-230 | true iff same length and equal element by element, that is, equal lists |
| ScheduleBuilder.Builder.constructor | src/components/ScheduleBuilder.js:11-32 | the list starts as the sorted copy of the parent's schedule; the parent is told of a changed order |
| ScheduleBuilder.Builder.SyncFromParent | src/components/ScheduleBuilder.js:26-29 | adopts the sorted copy of the parent's schedule, and reports it only when it differs by value |
| ScheduleBuilder.Builder.AddSession | src/components/ScheduleBuilder.js:40-46 | a missing input changes nothing; otherwise the instant is merged in, nothing is lost, and the list stays strictly ascending |
| ScheduleBuilder.Builder.RemoveSession | src/components/ScheduleBuilder.js:48-50 | removes every occurrence of the instant and keeps the rest in order |
| ScheduleBuilder.Builder.GenerateWeekly | src/components/ScheduleBuilder.js:56-74 | missing dates, an inverted range or no selected day change nothing; otherwise the weekly batch is merged in |
| ScheduleBuilder.Builder.GenerateFixedAllWeek | src/components/ScheduleBuilder.js:87-106 | missing or inverted ranges change nothing; otherwise the grid batch is merged in |
| ScheduleBuilder.Builder.CheckRoomAvailability | src/components/ScheduleBuilder.js:108-128 | without a room or a usable length nothing is checked; otherwise every session gets its verdict, and the list is untouched |
| ScheduleBuilder.FilterKeepsSorted | src/components/ScheduleBuilder.js:48-50 | removing entries keeps an ascending list ascending |
| BookingCreate.ServiceDefOf | src/pages/Bookings/BookingCreate.js:53-56 | the custom code and "no service" have no definition; any other code is looked up |
| BookingCreate.ServiceTypeOf | src/pages/Bookings/BookingCreate.js:57 | the catalogue category when there is one, else the manual type |
| BookingCreate.RequiresClassId | src/pages/Bookings/BookingCreate.js:58 | only a class booking can require a class id |
| BookingCreate.ClearForType | src/pages/Bookings/BookingCreate.js:82-95 | the ids of the other booking kinds are cleared and this kind's id kept; nothing else changes |
| BookingCreate.ClearForTypeIdempotent | src/pages/Bookings/BookingCreate.js:82-95 | running the reset twice is running it once |
| BookingCreate.ServiceChanged | src/pages/Bookings/BookingCreate.js:153-178 | the new code is stored and the times, availability, discount, notes and session are cleared; the type and price follow the choice |
| BookingCreate.BuildPayload | src/pages/Bookings/BookingCreate.js:244-259 | the payload carries exactly the id of its booking kind, the numeric prices, the normalised currency and the trimmed notes |
| BookingCreate.CheckBooking | src/pages/Bookings/BookingCreate.js:180-242 | rejected iff some check fails, with the first failing check's message; otherwise the payload is built |
| BookingCreate.MissingClientFirst | src/pages/Bookings/BookingCreate.js:184-187 | a missing client is the first error reported |
| BookingCreate.AcceptedPayloadIsComplete | src/pages/Bookings/BookingCreate.js:180-259 | an accepted booking has a client, both times, the id its kind needs, and a currency |
| BookingCreate.OtherTypeIdsIgnored | src/pages/Bookings/BookingCreate.js:180-242 | for a kind that is neither room nor equipment, room and equipment ids cannot rescue a rejected form |
| BookingCreate.BookingCreatePage.constructor | src/pages/Bookings/BookingCreate.js:29-46 | the form starts empty, with nothing sent |
| BookingCreate.BookingCreatePage.HandleServiceChange | src/pages/Bookings/BookingCreate.js:153-178 | the form becomes the service-changed form |
| BookingCreate.BookingCreatePage.ApplyTypeReset | src/pages/Bookings/BookingCreate.js:82-95 | the form becomes the type-reset form |
| BookingCreate.BookingCreatePage.HandleSubmit | src/pages/Bookings/BookingCreate.js:180-267 | a rejected form reports its first error; an accepted one is sent once, then navigates or shows the server's message |
| BookingCreate.ServiceChangeThenResetClearsIds | src/pages/Bookings/BookingCreate.js:82-178 | after a service change and the reset, only the id of the new kind can remain |
| BookingEdit.LoadForm | src/pages/Bookings/BookingEdit.js:64-96 | each field is taken from the stored booking by the page's rules (preset code, manual type, full price from fullPrice or totalFee, currency, reference ids) |
| BookingEdit.ReloadedRoomBookingResubmits | src/pages/Bookings/BookingEdit.js:64-96 | a complete room booking outside the catalogue, loaded and submitted untouched, is accepted with its own client, room, times and prices |
| BookingEdit.EditServiceChanged | src/pages/Bookings/BookingEdit.js:195-217 | the new code is stored and the times, availability, notes and session are cleared; the custom code keeps the previous type |
| BookingEdit.CatalogueChoiceAgrees | src/pages/Bookings/BookingEdit.js:204-214 | picking a catalogue service does the same on the edit page as on the create page |
| BookingEdit.SessionLength | src/pages/Bookings/BookingEdit.js:143 | the class's session length, else the service default, else 90 |
| BookingEdit.ChooseClassSession | src/pages/Bookings/BookingEdit.js:128-162 | the class's sessions are offered; a start among them is kept, otherwise the first session is chosen and the end is start plus the length |
| BookingEdit.ChooseClassSessionSettles | src/pages/Bookings/BookingEdit.js:128-162 | re-running the effect after it set the start changes nothing |
| BookingEdit.BookingEditPage.constructor | src/pages/Bookings/BookingEdit.js:26-47 | the page starts loading, with nothing sent |
| BookingEdit.BookingEditPage.Load | src/pages/Bookings/BookingEdit.js:64-96 | the loaded form, or the load error, and loading ends either way |
| BookingEdit.BookingEditPage.HandleServiceChange | src/pages/Bookings/BookingEdit.js:195-217 | the form becomes the edit-page service-changed form |
| BookingEdit.BookingEditPage.ApplyTypeReset | src/pages/Bookings/BookingEdit.js:113-126 | the form becomes the type-reset form |
| BookingEdit.BookingEditPage.ApplyClassSession | src/pages/Bookings/BookingEdit.js:128-162 | the form becomes the class-session form |
| BookingEdit.BookingEditPage.HandleSubmit | src/pages/Bookings/BookingEdit.js:219-301 | while an update is in flight nothing happens; otherwise the first error is reported, or the payload is sent once and the guard is raised |
| BookingEdit.BookingEditPage.SettleUpdate | src/pages/Bookings/BookingEdit.js:300-309 | the guard drops; success navigates and failure shows the server's message |
| BookingEdit.DoubleSubmitSendsOnce | src/pages/Bookings/BookingEdit.js:219-221 | two submissions with no settlement between them send one update |
| PaymentCreate.InitialPaymentForm | src/pages/Payments/PaymentCreate.js:22-31 | custom service of type "service", income, a blank amount, USD and today's date |
| PaymentCreate.PaymentServiceDef | src/pages/Payments/PaymentCreate.js:35-38 | the custom code has no definition; any other code is looked up |
| PaymentCreate.PaymentServiceType | src/pages/Payments/PaymentCreate.js:39 | the catalogue category, else the manual type |
| PaymentCreate.BookingChosen | src/pages/Payments/PaymentCreate.js:46-60 | the id is always stored; a known booking supplies the client, service, type and currency; kind, amount and method are kept |
| PaymentCreate.PaymentServiceChanged | src/pages/Payments/PaymentCreate.js:62-70 | the custom code resets the type to "service"; a catalogue code sets its category when it has one |
| PaymentCreate.ServiceChangeKeepsAType | src/pages/Payments/PaymentCreate.js:62-70 | after a service change the derived service type is never empty |
| PaymentCreate.CheckPayment | src/pages/Payments/PaymentCreate.js:72-88 | rejected iff a check fails (amount, client, service type), with the first failure's message |
| PaymentCreate.AcceptedPaymentPayload | src/pages/Payments/PaymentCreate.js:90-101 | an accepted form's payload carries the form's fields, the booking only when one is chosen, the resolved service code and type, and the normalised currency |
| PaymentCreate.ChosenBookingCarriesThrough | src/pages/Payments/PaymentCreate.js:46-101 | choosing a booking with a client and entering an amount gives a payload for that booking's client and booking |
| PaymentCreate.PaymentCreatePage.constructor | src/pages/Payments/PaymentCreate.js:20-32 | the initial form, with no bookings and nothing sent |
| PaymentCreate.PaymentCreatePage.BookingsLoaded | src/pages/Payments/PaymentCreate.js:43 | the booking list is replaced, nothing else changes |
| PaymentCreate.PaymentCreatePage.HandleBookingChange | src/pages/Payments/PaymentCreate.js:46-60 | the form becomes the booking-chosen form |
| PaymentCreate.PaymentCreatePage.HandleServiceChange | src/pages/Payments/PaymentCreate.js:62-70 | the form becomes the service-changed form |
| PaymentCreate.PaymentCreatePage.HandleSubmit | src/pages/Payments/PaymentCreate.js:72-110 | a rejected form reports its first error; an accepted one is sent once, then navigates or shows the server's message |
| PaymentsList.FilterSummaries | src/pages/Payments/PaymentsList.js:490-498 | an empty query keeps all; otherwise exactly the summaries whose "client service" text contains the query, ignoring case |
| PaymentsList.Outstanding | src/pages/Payments/PaymentsList.js:500 | the filtered summaries whose status is not paid: each shown one is in the list and unpaid, and each unpaid one is shown |
| PaymentsList.Settled | src/pages/Payments/PaymentsList.js:501 | the filtered summaries whose status is paid: each shown one is in the list and paid, and each paid one is shown |
| PaymentsList.PartitionByStatus | src/pages/Payments/PaymentsList.js:500-501 | outstanding and settled split the filtered list: together they are a permutation of it |
| PaymentsList.BalanceTotal | src/pages/Payments/PaymentsList.js:503 | the sum of the balances due, an unreadable one counting 0; with no negative balance it is not negative |
| PaymentsList.OutstandingTotal | src/pages/Payments/PaymentsList.js:503 | the balance of the outstanding summaries only: a list whose summaries are all paid totals 0 |
| PaymentsList.TotalsSplit | src/pages/Payments/PaymentsList.js:503 | the balance of a list is the balance of its outstanding part plus that of its settled part |
| PaymentsList.OutstandingTotalNonNegative | src/pages/Payments/PaymentsList.js:503 | with no negative balances the outstanding total is not negative |
| PaymentsList.DefaultCurrency | src/pages/Payments/PaymentsList.js:504 | the first outstanding currency, else the first settled one, else USD; never empty |
| PaymentsList.SignedAmount | src/pages/Payments/PaymentsList.js:332-334 | an expense shows as minus its magnitude, and anything else as recorded |
| PaymentsList.ExpenseSignIgnored | src/pages/Payments/PaymentsList.js:332-334 | an expense of v and one of -v show the same |
| PaymentsList.PositiveAmount | src/pages/Payments/PaymentsList.js:102-106 | an amount is accepted iff it is a number above zero |
| PaymentsList.NonEmpty | src/pages/Payments/PaymentsList.js:114-115 | `x \|\| undefined`: absent exactly for empty text |
| PaymentsList.AmountField | src/pages/Payments/PaymentsList.js:131 | `String(amount ?? '')`: a missing amount gives a blank field |
| PaymentsList.PaymentCard.constructor | src/pages/Payments/PaymentsList.js:64-76 | collapsed, both forms blank, nothing sent |
| PaymentsList.PaymentCard.ResetAddForm | src/pages/Payments/PaymentsList.js:85-90 | clears the add form's four fields and nothing else |
| PaymentsList.PaymentCard.ResetEditForm | src/pages/Payments/PaymentsList.js:92-98 | clears the edit form's five fields and nothing else |
| PaymentsList.PaymentCard.ToggleExpanded | src/pages/Payments/PaymentsList.js:198-204 | flips the card open or closed; closing clears both forms |
| PaymentsList.PaymentCard.HandlePaymentClick | src/pages/Payments/PaymentsList.js:129-135 | loads the clicked payment into the edit form |
| PaymentsList.PaymentCard.HandleAddPayment | src/pages/Payments/PaymentsList.js:100-127 | a bad amount is refused with a message and the add form kept; a good one is sent once and the saving flag ends down; success clears the add form, collapses and refreshes, failure shows the message and keeps the form; the edit form is never touched |
| PaymentsList.PaymentCard.SendNewPayment | src/pages/Payments/PaymentsList.js:107-126 | the create request is recorded once and the saving flag ends down; success clears the add form, collapses the card and asks for one refresh; failure shows the server message or the fallback and keeps the form; the edit form is untouched |
| PaymentsList.PaymentCard.HandleEditSubmit | src/pages/Payments/PaymentsList.js:137-161 | a bad amount is refused first with the edit form kept; with no payment selected nothing happens; otherwise one update is sent and the saving flag ends down, success clears the edit form and refreshes, failure shows the message and keeps the form; the add form is never touched |
| PaymentsList.PaymentCard.SendPaymentUpdate | src/pages/Payments/PaymentsList.js:145-160 | the update request is recorded once and the saving flag ends down; success clears the edit form and asks for one refresh; failure shows the server message or the fallback and keeps the form; the add form is untouched |
| ClientDetail.PaymentsByBooking | src/pages/Clients/ClientDetail.js:37-46 | keys are exactly the booking ids some payment names, and each holds what the payments filed under it add up to |
| ClientDetail.PaidForUnnamed | src/pages/Clients/ClientDetail.js:90 | a booking no payment names has paid 0 |
| ClientDetail.PaidForAppend | src/pages/Clients/ClientDetail.js:37-46 | what a booking has paid adds up over concatenated payment lists |
| ClientDetail.FullPrice | src/pages/Clients/ClientDetail.js:86 | fullPrice when a number, else totalFee when a number, else 0 |
| ClientDetail.FinalPrice | src/pages/Clients/ClientDetail.js:87-88 | the discount when there is one, else the full price |
| ClientDetail.Remaining | src/pages/Clients/ClientDetail.js:91 | never negative; paid plus remaining is the final price unless overpaid |
| ClientDetail.DiscountSuffixAsWritten | src/pages/Clients/ClientDetail.js:101 | the suffix as the page decides it: when it is shown, the booking has a discount and the suffix carries the full price |
| ClientDetail.DiscountSuffixNeverShown | src/pages/Clients/ClientDetail.js:101 | the suffix as written is never shown |
| ClientDetail.DiscountedBookingLacksSuffix | src/pages/Clients/ClientDetail.js:101 | a booking of 100 discounted to 80 gets no suffix |
| ClientDetail.DiscountSuffix | src/pages/Clients/ClientDetail.js:101 | the corrected suffix shows the full price iff a discount differs from it |
| ClientDetail.Row | src/pages/Clients/ClientDetail.js:84-105 | the row's service name, final price, paid total from the map, the booking's currency or USD, remaining as the final price less paid (0 when overpaid), and the corrected suffix |
| ClientDetail.RowPaidIsItsPayments | src/pages/Clients/ClientDetail.js:90-91 | with the map built from the payments, a booking's row shows what its own payments add up to |
| BookingDetail.PaidTotal | src/pages/Bookings/BookingDetail.js:22 | the one-pass paid total equals the sum of the amounts of the income payments filtered out first, an unreadable amount counting 0 |
| BookingDetail.PaidTotalAppend | src/pages/Bookings/BookingDetail.js:22 | the paid total adds up over concatenated payment lists |
| BookingDetail.PaidTotalIgnoresOtherKinds | src/pages/Bookings/BookingDetail.js:22 | payments that are not income leave the paid total as it was |
| BookingDetail.NoIncomeNoTotal | src/pages/Bookings/BookingDetail.js:22 | with no income payment the paid total is 0 |
| BookingDetail.PaidTotalNonNegative | src/pages/Bookings/BookingDetail.js:22 | with no negative amounts the paid total is not negative |
| BookingDetail.Remaining | src/pages/Bookings/BookingDetail.js:41 | never negative; paid plus remaining is the fee unless overpaid |
| BookingDetail.SentAmount | src/pages/Bookings/BookingDetail.js:53 | `Number(text)`: a blank field sends 0 and unreadable text sends NaN |
| BookingDetail.BookingDetailPage.constructor | src/pages/Bookings/BookingDetail.js:10-15 | no booking yet, nothing paid, an empty form |
| BookingDetail.BookingDetailPage.Load | src/pages/Bookings/BookingDetail.js:17-26 | the booking is shown; the paid total is the list's when the list arrived |
| BookingDetail.BookingDetailPage.HandleCollect | src/pages/Bookings/BookingDetail.js:45-66 | one income payment for the booking's client is sent; each failing step stops the chain with the message; full success reloads and clears the form |
| BookingDetail.BookingDetailPage.ShownRemaining | src/pages/Bookings/BookingDetail.js:41 | what the page shows as remaining completes the paid total to the fee, and is 0 once paid reaches or passes the fee |
| BookingDetail.CollectedPaymentCounts | src/pages/Bookings/BookingDetail.js:57-61 | a collected income payment raises the reloaded paid total by its amount |
| Pagination.TotalPages | src/components/Pagination.js:5 | at least one page, enough pages for every row, and no empty last page beyond the first |
| Pagination.Pages | src/components/Pagination.js:6-7 | the buttons are 1..totalPages in order |
| Pagination.Prev | src/components/Pagination.js:9 | Prev asks for page - 1 exactly when the page is above 1 |
| Pagination.Next | src/components/Pagination.js:10 | Next asks for page + 1 exactly when the page is below the last |
| Pagination.PrevNextStayInRange | src/components/Pagination.js:9-10 | from a page in range, Prev and Next ask only for pages in range |
| Pagination.ActiveMarks | src/components/Pagination.js:16 | a button is active iff it is the current page |
| Pagination.ExactlyOneActive | src/components/Pagination.js:15-17 | with the page in range, exactly its own button is active |
| Pagination.SliceIndex | src/pages/Clients/ClientsList.js:33 | how `slice` clamps an index into [0, len] |
| Pagination.Window | src/pages/Clients/ClientsList.js:33 | `slice(start, start + size)`: at most size rows, the rows from start on, empty past the end |
| Pagination.PageData | src/pages/Clients/ClientsList.js:33 | a page holds at most pageSize rows, the ones from (page - 1) * pageSize on |
| Pagination.RowOnItsPage | src/pages/Clients/ClientsList.js:33 | row q * pageSize + r is entry r of page q + 1, and the pager offers that page |
| AttendanceList.Filtered | src/pages/Attendance/AttendanceList.js:23-26 | an empty query keeps all; otherwise exactly the rows whose student name contains the query |
| AttendanceList.NextStatus | src/pages/Attendance/AttendanceList.js:42 | present becomes absent, anything else present |
| AttendanceList.NextStatusTwice | src/pages/Attendance/AttendanceList.js:42 | two clicks restore a present or absent status |
| AttendanceList.WithStatus | src/pages/Attendance/AttendanceList.js:44 | the rows with that id get the status, the others are unchanged |
| AttendanceList.AllPresent | src/pages/Attendance/AttendanceList.js:60 | every row becomes present and keeps everything else |
| AttendanceList.AllPresentIdempotent | src/pages/Attendance/AttendanceList.js:60 | marking all present twice is marking them once |
| AttendanceList.ToggleTwiceRestores | src/pages/Attendance/AttendanceList.js:40-48 | toggling a row and toggling it back restores the list |
| AttendanceList.AttendanceListPage.constructor | src/pages/Attendance/AttendanceList.js:9-21 | the loaded rows, first page, no query |
| AttendanceList.AttendanceListPage.PageRows | src/pages/Attendance/AttendanceList.js:23-27 | the table shows at most ten rows, all matching the query |
| AttendanceList.AttendanceListPage.ToggleStatus | src/pages/Attendance/AttendanceList.js:40-48 | one update with the next status is sent; success updates that row, failure shows the message |
| AttendanceList.AttendanceListPage.MarkAllPresent | src/pages/Attendance/AttendanceList.js:50-64 | an empty list does nothing; a first row without class or session reports it; otherwise one bulk request is sent, and success marks every row present |
| BookingsList.Filtered | src/pages/Bookings/BookingsList.js:26-29 | an empty query keeps all; otherwise exactly the bookings whose client name contains the query |
| BookingsList.UnpopulatedClientHidden | src/pages/Bookings/BookingsList.js:27-28 | a booking without a populated client never matches a non-empty query |
| BookingsList.PageRows | src/pages/Bookings/BookingsList.js:26-30 | the table shows at most ten rows of the list, all matching the query (the slice is Pagination.PageData) |
| BookingsList.ServiceLabel | src/pages/Bookings/BookingsList.js:34 | the catalogue name, else the service type, else "-" |
| BookingsList.ListedFullPrice | src/pages/Bookings/BookingsList.js:36 | fullPrice when a number, else totalFee |
| BookingsList.PriceLabelOf | src/pages/Bookings/BookingsList.js:35-42 | a discount with the full price it comes from, else the full price, else "-"; the record's currency, or USD when it has none |
| ClientsList.Filtered | src/pages/Clients/ClientsList.js:32 | an empty query keeps all; otherwise exactly the clients whose name or email contains the query |
| ClientsList.NamelessNeverMatches | src/pages/Clients/ClientsList.js:32 | a client with neither name nor email never matches a non-empty query |
| ClientsList.FoundByOwnName | src/pages/Clients/ClientsList.js:32 | a client is found by its own name |
| ClientsList.ClientsListPage.PageRows | src/pages/Clients/ClientsList.js:32-33 | the table shows at most ten clients of the list, all matching the query (the slice is Pagination.PageData) |
| ClientsList.WithoutId | src/pages/Clients/ClientsList.js:28 | removes the clients with that id and keeps every other |
| ClientsList.WithoutIdRemovesOnlyThatId | src/pages/Clients/ClientsList.js:28 | the kept and the removed clients together are a permutation of the list |
| ClientsList.WithoutAbsentId | src/pages/Clients/ClientsList.js:28 | deleting an id no client has leaves the list as it was |
| ClientsList.ClientsListPage.constructor | src/pages/Clients/ClientsList.js:10-23 | the loaded clients, first page, no query |
| ClientsList.ClientsListPage.HandleDelete | src/pages/Clients/ClientsList.js:25-29 | without confirmation nothing happens; otherwise one delete is sent, and the client leaves the list only when it succeeds |
| CalendarPage.AddDays | src/pages/Calendar/CalendarPage.js:23-27 | the same wall time n days later |
| CalendarPage.DayShift | src/pages/Calendar/CalendarPage.js:23-27 | shifting by whole days shifts the day number and keeps the time of day |
| CalendarPage.AddDaysInverse | src/pages/Calendar/CalendarPage.js:23-27 | n days forward then n back returns to the same instant |
| CalendarPage.StartOfWeek | src/pages/Calendar/CalendarPage.js:14-21 | a Monday midnight at most a week before the instant; a Sunday goes back six days |
| CalendarPage.StartOfMonday | src/pages/Calendar/CalendarPage.js:14-21 | a Monday midnight is its own week start |
| CalendarPage.StartOfWeekIdempotent | src/pages/Calendar/CalendarPage.js:14-21 | the week start of a week start is itself |
| CalendarPage.StartOfWeekShift | src/pages/Calendar/CalendarPage.js:106-108 | moving by whole weeks moves the week start by the same amount |
| CalendarPage.WeekdayPeriodic | src/pages/Calendar/CalendarPage.js:16 | the weekday repeats every seven days |
| CalendarPage.WeekDays | src/pages/Calendar/CalendarPage.js:147 | seven consecutive days from the week start |
| CalendarPage.WeekEnd | src/pages/Calendar/CalendarPage.js:84 | the same wall time seven days later |
| CalendarPage.GetMinutes | src/pages/Calendar/CalendarPage.js:47-49 | the minute of the day that the instant falls in |
| CalendarPage.FormatWeekRange | src/pages/Calendar/CalendarPage.js:29-38 | the end month is shown unless month and year agree, and the start year is shown only across a year boundary |
| CalendarPage.LabelYears | src/pages/Calendar/CalendarPage.js:34-37 | the label names one year within a year and two across a year boundary |
| CalendarPage.ParseEventDate | src/pages/Calendar/CalendarPage.js:40-45 | the date-time when present, else midnight of the date, else nothing |
| CalendarPage.Normalize | src/pages/Calendar/CalendarPage.js:128-143 | unreadable sides drop the event; all-day ends move back 1 ms; a missing title becomes "Untitled event" |
| CalendarPage.NormalizeAll | src/pages/Calendar/CalendarPage.js:126-145 | no longer than the feed; every readable event appears normalised and every entry is the normalisation of a feed event (order and multiplicity are fixed by NormalizeAllAppend) |
| CalendarPage.NormalizeAllAppend | src/pages/Calendar/CalendarPage.js:126-145 | one more event at the end of the feed appends its normalised form when it is readable and nothing otherwise, so the result keeps feed order and duplicates, as map-then-filter does |
| CalendarPage.UnreadableEventsDropped | src/pages/Calendar/CalendarPage.js:144 | an unreadable event leaves the normalised list as it was |
| CalendarPage.ClampEventToDay | src/pages/Calendar/CalendarPage.js:51-59 | the event cut to the day, with an end at midnight moved back 1 ms; nothing when no part is left |
| CalendarPage.TimedBlock | src/pages/Calendar/CalendarPage.js:243-247 | the drawn block runs from the later of the event's start and 12:00 to the earlier of its end and 24:00, and is absent exactly when that is empty |
| CalendarPage.AllDayMembers | src/pages/Calendar/CalendarPage.js:156-159 | a day's all-day list holds exactly the all-day events touching that day |
| CalendarPage.TimedMembers | src/pages/Calendar/CalendarPage.js:156-162 | a day's timed list holds exactly the clipped timed events touching that day |
| CalendarPage.BucketDay | src/pages/Calendar/CalendarPage.js:150-170 | one pass over the events fills the day's two lists in feed order |
| CalendarPage.EventsByDay | src/pages/Calendar/CalendarPage.js:149-171 | seven buckets, one per day of the week, each its day's lists |
| CalendarPage.WeekView.constructor | src/pages/Calendar/CalendarPage.js:82 | the page opens on the week of now |
| CalendarPage.WeekView.HandleWeekChange | src/pages/Calendar/CalendarPage.js:106-108 | Previous and Next move the week start by whole weeks and keep it on a Monday midnight |
| CalendarPage.WeekView.HandleToday | src/pages/Calendar/CalendarPage.js:110-112 | back to the week containing now |
| CalendarPage.WeekView.EventsLoaded | src/pages/Calendar/CalendarPage.js:86-100 | the feed replaces the events, or a failure shows the message |
| CalendarPage.NextThenPreviousRestores | src/pages/Calendar/CalendarPage.js:106-108 | Next then Previous shows the week shown before |

## Left out

- Network calls, authentication and routing. Each request is a parameter that says how it ended; navigation is a flag.
- Asynchronous interleaving. Each handler runs to completion. Races between overlapping requests are not modelled; one example is two availability checks whose answers arrive out of order.
- Case mapping is ASCII only. `toLowerCase`/`toUpperCase` on other letters is not modelled.
- `Number()` is modelled only as blank, a number, or unreadable. Hexadecimal, exponent and white-space syntaxes are not modelled. NaN and Infinity are folded into "unreadable". Amounts are exact reals, not floating point.
- Dates are modelled without daylight-saving time, an invalid `Date`, or the UTC shift of `toISOString`. A `date` value in the feed is already a day number. The Gregorian calendar behind `getMonth`/`getDate`/`getFullYear` is not modelled: `CalendarPage.FormatWeekRange` takes the civil dates as inputs.
- Locale formatting (`toLocaleString`) and the printing of numbers inside labels. `BookingsList.PriceLabelOf` and `CalendarPage.FormatWeekRange` return the label's parts, not its text.
- The event block's percentages (src/pages/Calendar/CalendarPage.js:248-249) use floating point and are not modelled. Only the clamped minutes are.
- The card's `isSettled` threshold and the balance-due preset effect (src/pages/Payments/PaymentsList.js:78-83) are not modelled.
- The payments overview's fetch and sync handlers. `onRefresh` is a counter of refresh requests.
- The `addSaving`/`editSaving` flags are set and cleared, but button disabling is not modelled.
- On both booking pages, the catalogue-defaults effect that presets prices and times (src/pages/Bookings/BookingEdit.js:98-111 and its twin in BookingCreate.js) is not modelled.
- The creation page's class-session effect is not modelled; the editing page's (`BookingEdit.ChooseClassSession`) is. The selected-session effects on both pages are not modelled.
- The availability effect on the booking pages is not modelled.
- The contents of the service catalogue. It is a parameter; src/constants/services.js is not part of this model.
- `ScheduleBuilder.Builder.SyncFromParent`: the parent's schedule is a value. Aliasing between the parent's array and the builder's list is not modelled.
- An object reference without an `_id` (rendered as `[object Object]` by the source) is not modelled. `Ref` is absent, raw or populated.
- JavaScript object keys such as `__proto__` in the payments-by-booking map are ordinary strings here.
- `BookingDetail.BookingDetailPage.HandleCollect` requires a loaded booking, because the page renders the form only after the booking arrives (src/pages/Bookings/BookingDetail.js:28). A failed initial load leaves the page loading forever. That is not a state the model represents: `BookingDetail.BookingDetailPage.Load` takes the booking that arrived.
- The clients list's delete, when the request fails, rejects the handler's promise. The model leaves the list unchanged and does not model the unhandled rejection.
- List pages' initial fetches and their error strings. The list classes start from the loaded rows.
- The schedule builder keeps ISO-8601 strings and sorts them as text. The model keeps the instants as integer minutes and sorts them numerically; the two orders agree for instants of years 0 to 9999. Seconds and milliseconds are not modelled.
- `ScheduleBuilder.ParseTimeToMinutes` handles digit-only parts. Signs, decimals and white space inside `Number(part)` read as unreadable, that is 0.

## Findings

| source | as written | input that shows it | evidently intended | confidence | as-written member | corrected member |
|---|---|---|---|---|---|---|
| src/pages/Clients/ClientDetail.js:101 | the "(discount from …)" suffix is shown when the discount differs from the final price, but the final price is the discount whenever there is one | fullPrice 100, discountedPrice 80: no suffix (`ClientDetail.DiscountedBookingLacksSuffix`) | show the suffix when the discount differs from the full price | high, not executed | ClientDetail.DiscountSuffixAsWritten | ClientDetail.DiscountSuffix |
| src/components/ScheduleBuilder.js:92 | the slot step is `Number(sessionLength) \|\| 90`, so a negative length becomes the step and the loop at line 99 never ends | any negative sessionLength, such as -30: every slot stays at or before the last start (`ScheduleBuilder.GridLoopNeverEnds`) | use the session length only when it is positive, else 90 | medium, not executed | ScheduleBuilder.GridStepAsWritten | ScheduleBuilder.GridStep |
